/** The in-memory types (src/types/task.ts): the camelCase family used by
    the task list, the task form, the notification panel and the user
    management screen. A `Date` is an opaque instant. */
module AppTypes {
  import opened Wrappers
  import opened Enums

  /** A JavaScript `Date`, as milliseconds since the epoch. */
  type Instant = int

  datatype UserRole = Admin | Manager | Developer | Viewer

  datatype Permission = Permission(id: string, name: string, description: string)

  datatype User = User(
    id: string,
    name: string,
    email: string,
    discordId: Option<string>,
    role: UserRole,
    permissions: seq<Permission>,
    createdAt: Instant,
    updatedAt: Instant)

  datatype Task = Task(
    id: string,
    title: string,
    description: string,
    status: Status,
    priority: Priority,
    assigneeId: string,
    assignee: User,
    createdBy: string,
    creator: User,
    dueDate: Option<Instant>,
    createdAt: Instant,
    updatedAt: Instant,
    resourceLinks: Option<seq<string>>,
    tags: Option<seq<string>>)

  datatype NotificationType = Reminder | Assignment | StatusChange | DueDate

  datatype Notification = Notification(
    id: string,
    recipientId: string,
    senderId: string,
    taskId: string,
    message: string,
    kind: NotificationType,
    isRead: bool,
    createdAt: Instant)

  datatype DateRange = DateRange(start: Option<Instant>, end: Option<Instant>)

  datatype TaskFilter = TaskFilter(
    status: Option<seq<Status>>,
    assigneeId: Option<string>,
    priority: Option<seq<Priority>>,
    dueDateRange: Option<DateRange>,
    tags: Option<seq<string>>)

  /** `{}`: the filter with nothing set. */
  const EmptyFilter := TaskFilter(None, None, None, None, None)
}
