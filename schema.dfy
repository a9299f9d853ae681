/** The backend's row types (src/lib/supabase.ts): the snake_case family
    used by the task card, the task store hook, the task modal and the
    dashboard. Timestamps are the ISO strings the backend returns; numeric
    hours are kept as their decimal text. */
module Schema {
  import opened Wrappers
  import opened Enums

  datatype Role = Admin | Manager | Member

  /** A profile row. The opaque `permissions` bag is not modelled: nothing
      in the core reads it. Relation selects fill only id, username,
      display_name and avatar_url; the other fields are then absent. */
  datatype Profile = Profile(
    id: string,
    username: Option<string>,
    display_name: Option<string>,
    discord_id: Option<string>,
    discord_username: Option<string>,
    avatar_url: Option<string>,
    role: Option<Role>,
    created_at: Option<string>,
    updated_at: Option<string>)

  /** A task row, with the three relations the selects expand. */
  datatype Task = Task(
    id: string,
    title: string,
    description: Option<string>,
    status: Status,
    priority: Priority,
    assignee_id: Option<string>,
    reporter_id: Option<string>,
    reviewer_id: Option<string>,
    due_date: Option<string>,
    estimated_hours: Option<string>,
    actual_hours: Option<string>,
    tags: Option<seq<string>>,
    discord_thread_id: Option<string>,
    created_at: string,
    updated_at: string,
    assignee: Option<Profile>,
    reporter: Option<Profile>,
    reviewer: Option<Profile>)

  /** `Partial<Task>` restricted to the fields the UI ever sends. */
  datatype TaskPatch = TaskPatch(
    title: Option<string>,
    description: Option<string>,
    status: Option<Status>,
    priority: Option<Priority>,
    assignee_id: Option<string>,
    due_date: Option<string>,
    estimated_hours: Option<string>,
    tags: Option<seq<string>>)

  const EmptyPatch := TaskPatch(None, None, None, None, None, None, None, None)

  /** The error object the backend client returns. */
  datatype BackendError = BackendError(message: string)
}
