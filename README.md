# Task tracker core, modelled in Dafny

This project models the decision rules and list updates of a small
task-tracking web application written in TypeScript and React. The
application is a kanban dashboard backed by a hosted database, plus a
task table, a task form, a notification centre and a user
administration screen that keep their data in component state seeded
with sample records. It also builds Discord embeds for task events.

The model covers:

- the task card's authorization guard: who may edit a task, change its
  status or delete it, and the delete button's label;
- the task cache hook: fetch, create (prepend), update (replace by id)
  and delete (filter by id), with the backend's reply as a parameter,
  plus its three selectors;
- the board's four status columns and the dashboard's handlers and
  counters;
- the task modal's form initialisation, its duplicate-free tag list and
  its conversion of the form into the save payload;
- the task table's filter, its create, edit and delete handlers and its
  tag overflow, together with the task form's link and tag lists;
- the notification centre's read/unread toggles, deletion, manual send,
  "mark all as read" and unread count;
- the user screen's edit merge, create append and confirmed delete;
- the Discord embed builders: the name fallback, the description
  truncation, the status colour and the field layout.

Two type families exist in the source and both are kept:

- `Schema` (src/lib/supabase.ts) is the snake_case family with
  `reporter_id` and roles admin/manager/member;
- `AppTypes` (src/types/task.ts) is the camelCase family with
  `createdBy` and roles admin/manager/developer/viewer.

Both use the `Status` and `Priority` enumerations in `Enums`.

Components that update their state become classes, with one field per
piece of state. Each method's `ensures` states the whole new state,
usually through a pure function of the old state such as `AfterCreate`,
`WithRead` or `AfterEdit`, and the lemmas are proved about those
functions. JavaScript semantics are written out where they matter:

- `||` on strings is truthiness, so an empty string falls through
  (`Wrappers.Truthy`);
- `trim` strips ECMAScript white space and line terminators
  (`Text.Trim`);
- `split('T')[0]` is `TaskModal.DatePart`;
- `filter((_, i) => i !== index)` is `TaskForm.WithoutIndex`;
- `task.assignee_id === user?.id` compares the backend's `null` for an
  unset id with the `undefined` id of a missing user, which is false, so
  `getMyTasks` and `getReportedTasks` return nothing while nobody is
  signed in (`UseTasks.MyTasksSignedOut`).

The task table mounts its `TaskForm` once, on its first render, when
`editingTask` is still null. The form's data comes only from its
`useState` initialiser, so it starts at the defaults and never shows an
edited task. "Edit" only sets the table's own `editingTask` and opens
the dialog (`TaskList.TaskListState.HandleEditTask`). The form's
`onSubmit` is `handleCreateTask` in every case, so a submit appends
whatever the form holds as a new task and never replaces one
(`TaskList.TaskListState.SubmitForm`).

Two rules of the code are worth stating on their own:

- A manager sees the delete button only while signed in, because the
  button sits inside the `canEdit` block (`TaskCard.DeletePolicy`).
- `createTask` does not check the title. Only the dashboard's save
  handler does (`Dashboard.SaveCall`).

## Model

| member | source | states |
|---|---|---|
| TaskCard.CanEdit | src/components/TaskCard.tsx:37-41 | Nobody signed out may edit, and a signed-in manager always may. |
| TaskCard.SelectDisabled | src/components/TaskCard.tsx:98 | The status select is disabled when signed out and on a completed task. |
| TaskCard.ShowEdit | src/components/TaskCard.tsx:107-116 | The edit button is shown only to a signed-in user, and never on a completed task. |
| TaskCard.ShowDelete | src/components/TaskCard.tsx:107-118 | The delete button is shown only to a signed-in user, and a non-manager sees it only on a completed task. |
| TaskCard.DeleteLabel | src/components/TaskCard.tsx:123 | The label is 終了 exactly for a completed task, and 削除 otherwise. |
| TaskCard.StatusChange | src/components/TaskCard.tsx:43-45 | The handler receives the card's task id and the picked value unchanged. |
| TaskCard.CanEditIsOwnershipOrManager | src/components/TaskCard.tsx:37-41 | Editing is allowed iff a user is signed in and is the assignee, the reporter or a manager. |
| TaskCard.AbsentReferencesNeverMatch | src/components/TaskCard.tsx:37-41 | A task without assignee and reporter is not editable by a signed-in non-manager. |
| TaskCard.ReporterSuffices | src/components/TaskCard.tsx:38-39 | Being the reporter is enough to edit, whoever the assignee is. |
| TaskCard.CompletedIsFrozen | src/components/TaskCard.tsx:98-115 | A completed task has its status select disabled and no edit button, for every user and role. |
| TaskCard.DeletePolicy | src/components/TaskCard.tsx:107-118 | The delete button is shown iff a user is signed in and is either a manager or an owner of a completed task. |
| TaskCard.OwnerCannotDeleteOpenTask | src/components/TaskCard.tsx:118 | A non-manager never sees the delete button on a task that is not completed. |
| TaskCard.SelectEnabledIffEditShown | src/components/TaskCard.tsx:98-109 | The status select is enabled exactly where the edit button is shown. |
| TaskCard.ManagerMonotone | src/components/TaskCard.tsx:37-118 | Each of edit, status change and delete that a non-manager may do, a manager may do too. |
| TaskCard.DeleteLabelIff | src/components/TaskCard.tsx:123 | The label is 終了 iff the task is completed, and 削除 otherwise. |
| TaskCard.AnyStatusSelectable | src/components/TaskCard.tsx:43-104 | Every status is offered, and the picked value reaches `onStatusChange` unchanged with the task's id. |
| TaskCard.ScenarioOpenTask | src/components/TaskCard.tsx:37-118 | On an open task the assignee may edit; an unrelated member sees nothing enabled; a manager may delete; the reporter may not delete. |
| TaskCard.ScenarioCompletedTask | src/components/TaskCard.tsx:98-123 | The reporter may close out a completed task but not edit it; an unrelated member may not; a manager may. |
| Enums.StatusLabel | src/lib/supabase.ts:26 | A status is stored as one of the four Japanese labels. |
| Enums.PriorityLabel | src/lib/supabase.ts:27 | A priority is stored as one of low, medium, high, urgent. |
| Enums.LabelsInjective | src/lib/supabase.ts:26-27 | Distinct statuses, and distinct priorities, have distinct stored strings. |
| Enums.ParseStatus | src/lib/supabase.ts:26 | A parsed status label names the status it was parsed to. |
| Enums.ParseStatusLabel | src/lib/supabase.ts:26 | Every status's label parses back to that status. |
| UseTasks.AfterFetch | src/hooks/useTasks.ts:28-34 | A failed or throwing fetch keeps the list; a successful one replaces it with the rows, or with the empty list when there are none. |
| UseTasks.FetchError | src/hooks/useTasks.ts:28-34 | The error is cleared iff the fetch succeeds; otherwise it is the backend's message or the fixed failure text. |
| UseTasks.TaskStore.constructor | src/hooks/useTasks.ts:8-11 | The store starts empty, loading and without an error. |
| UseTasks.TaskStore.FetchTasks | src/hooks/useTasks.ts:13-38 | The new list and error follow AfterFetch and FetchError, and loading is false afterwards in every case. |
| UseTasks.AfterCreate | src/hooks/useTasks.ts:72-74 | On success with a signed-in user the record is prepended: the length grows by one and the old list follows unchanged; otherwise the list is kept. |
| UseTasks.TaskStore.CreateTask | src/hooks/useTasks.ts:46-77 | Signed out, nothing is sent and "Not authenticated" is returned; signed in, the row sent carries the caller's fields and `reporter_id` is the user; the list follows AfterCreate. |
| UseTasks.ReplaceById | src/hooks/useTasks.ts:92-94 | Every entry with the id becomes the record, the others are untouched, and the length is kept. |
| UseTasks.AfterUpdate | src/hooks/useTasks.ts:92-94 | An accepted reply replaces by id; any other reply keeps the list. |
| UseTasks.TaskStore.UpdateTask | src/hooks/useTasks.ts:79-97 | The patch sent to the backend is exactly the caller's `updates`; the list follows AfterUpdate and the reply is returned. |
| UseTasks.RemoveById | src/hooks/useTasks.ts:105-107 | No entry with the id remains, and the list does not grow. |
| UseTasks.AfterDelete | src/hooks/useTasks.ts:105-107 | With no error the id is removed; with an error the list is kept. |
| UseTasks.TaskStore.DeleteTask | src/hooks/useTasks.ts:99-110 | The list follows AfterDelete and the error is returned. |
| UseTasks.TasksByStatus | src/hooks/useTasks.ts:112-114 | Every selected task has the status. |
| UseTasks.MyTasks | src/hooks/useTasks.ts:116-118 | Every selected task is assigned to the signed-in user's id. |
| UseTasks.ReportedTasks | src/hooks/useTasks.ts:120-122 | Every selected task was reported by the signed-in user's id. |
| UseTasks.FailuresLeaveCache | src/hooks/useTasks.ts:72-107 | A reply with an error leaves the list unchanged for create, update and delete. |
| UseTasks.DeleteRemovesExactly | src/hooks/useTasks.ts:105-107 | A task remains after a delete iff it was there and has another id, and the rest keep their order. |
| UseTasks.DeleteAbsentIsNoop | src/hooks/useTasks.ts:105-107 | Deleting an id that is not present changes nothing. |
| UseTasks.UpdateAbsentIsNoop | src/hooks/useTasks.ts:92-94 | Updating an id that is not present changes nothing. |
| UseTasks.StoreDoesNotEnforceTerminality | src/hooks/useTasks.ts:79-94 | A completed task is replaced by whatever the server returns, including an in-progress record. |
| UseTasks.CreatedTaskIsListed | src/hooks/useTasks.ts:72-122 | A created task is in the list, and it heads both its reporter's selection and its status's selection, each followed by the old selection. |
| UseTasks.SelectorsExact | src/hooks/useTasks.ts:112-122 | Each selector keeps exactly the matching tasks, in their order; "my tasks" and "reported tasks" match only when a user is signed in. |
| UseTasks.MyTasksSignedOut | src/hooks/useTasks.ts:116-122 | With nobody signed in, "my tasks" and "reported tasks" are empty, even when some tasks are unassigned. |
| TaskBoard.Board | src/components/TaskBoard.tsx:13-52 | Four columns in the order 未着手, 進行中, レビュー待ち, 完了; each holds its status's tasks; its badge is their count; the placeholder shows iff the count is 0. |
| TaskBoard.StatusFiltersPartition | src/components/TaskBoard.tsx:13-23 | Taken together, the four columns hold every task exactly as often as the list does. |
| TaskBoard.ColumnCounts | src/components/TaskBoard.tsx:13-23 | Each task occurs in the four columns together exactly as often as in the list. |
| TaskBoard.StatusCountsSum | src/components/TaskBoard.tsx:13-23 | The column lengths sum to the number of tasks. |
| TaskBoard.BoardPartition | src/components/TaskBoard.tsx:21-36 | A task is in a column iff it has that column's status; a column keeps the input order; the badges sum to the total. |
| TaskBoard.EveryStatusHasColumn | src/components/TaskBoard.tsx:13-18 | Every status has a column. |
| Dashboard.StatusPatch | src/app/dashboard/page.tsx:40-42 | The status change sends an update whose only field is the status. |
| Dashboard.SaveCall | src/app/dashboard/page.tsx:61-78 | When editing, save updates the edited task's id. Otherwise it creates from the eight listed fields only if the title is non-empty, and makes no call if it is empty. |
| Dashboard.SaveDispatch | src/app/dashboard/page.tsx:61-78 | Editing never creates; a create implies no edit and a title; an absent or empty title reaches no store call. |
| Dashboard.DeletePrompt | src/app/dashboard/page.tsx:50-54 | The prompt is the close-out text iff the first task with the id is completed; otherwise it is the plain delete text. |
| Dashboard.AfterSave | src/app/dashboard/page.tsx:61-78 | A rejected reply keeps the list; only a create can grow it, and then only by the returned record at the front; an update keeps the length. |
| Dashboard.StatusCounters | src/app/dashboard/page.tsx:142-160 | The four counters equal the board's badges and sum to the number of tasks. |
| Dashboard.DashboardPage.constructor | src/app/dashboard/page.tsx:14-15 | The modal starts closed with no task being edited. |
| Dashboard.DashboardPage.OpenNewTask | src/app/dashboard/page.tsx:119 | The button opens the modal and keeps the edited task. |
| Dashboard.DashboardPage.HandleEdit | src/app/dashboard/page.tsx:44-47 | The task is being edited and the modal is open. |
| Dashboard.DashboardPage.HandleModalClose | src/app/dashboard/page.tsx:83-86 | The modal is closed and nothing is being edited. |
| Dashboard.DashboardPage.HandleStatusChange | src/app/dashboard/page.tsx:40-42 | The call is built from the patch the store reports it sent, which is the status alone; the list follows AfterUpdate. |
| Dashboard.DashboardPage.HandleDelete | src/app/dashboard/page.tsx:49-59 | The user is shown DeletePrompt's text; a delete happens only if they confirm, and the list follows AfterDelete. |
| Dashboard.DashboardPage.HandleSaveTask | src/app/dashboard/page.tsx:61-81 | The store call is SaveCall's, with an update's patch taken from what the store reports it sent. A create hands the store the fields, and the row it inserts is those fields with the signed-in user as reporter. The list follows AfterSave. The modal is closed and the edited task cleared in every branch, assuming the awaited call returns. |
| TaskModal.DatePart | src/components/TaskModal.tsx:36 | The result is the longest prefix without `T`, and is followed by a `T` whenever it is shorter than the input. |
| TaskModal.DatePartOfDateTime | src/components/TaskModal.tsx:36 | A date followed by `T` and a time yields the date, and a date alone is unchanged. |
| TaskModal.FormFor | src/components/TaskModal.tsx:28-51 | Title, status and priority are copied. A missing description, assignee or due date becomes empty. The due date keeps its date part. Missing tags become the empty list. With no task, the form is the default. |
| TaskModal.Payload | src/components/TaskModal.tsx:60-65 | Title, description, status, priority and tags pass through; an empty assignee, due date or hours becomes absent, and a due date present is the ISO text. |
| TaskModal.EditRoundTrip | src/components/TaskModal.tsx:28-65 | Opening on a task and saving sends back its title, status, priority, assignee and tags; an absent assignee stays absent, and only an empty-string one is lost. |
| TaskModal.AcceptsTag | src/components/TaskModal.tsx:77 | An accepted input is not all white space, and its trimmed form is not yet among the tags. |
| TaskModal.ModalState.constructor | src/components/TaskModal.tsx:15-26 | The form starts at its defaults with an empty tag input and not loading. |
| TaskModal.ModalState.Reset | src/components/TaskModal.tsx:28-53 | The form becomes FormFor(task) and the tag input is cleared. |
| TaskModal.ModalState.AddTag | src/components/TaskModal.tsx:76-84 | A non-blank tag that is not yet present is appended trimmed and the input cleared. Otherwise neither the tags nor the input change. |
| TaskModal.ModalState.RemoveTag | src/components/TaskModal.tsx:86-91 | The tags become those different from the removed one. |
| TaskModal.ModalState.HandleSubmit | src/components/TaskModal.tsx:55-74 | The payload reaches `onSave` unless the date conversion throws. The modal closes only if `onSave` returns normally. Loading is false afterwards. |
| TaskModal.AddTagKeepsNoDuplicates | src/components/TaskModal.tsx:77-81 | An accepted tag keeps a duplicate-free list duplicate-free. |
| TaskModal.BlankTagRefused | src/components/TaskModal.tsx:77 | A whitespace-only input is refused. |
| TaskModal.RemoveTagExact | src/components/TaskModal.tsx:86-91 | Every copy of the tag goes, and the other tags stay in order. |
| Text.Trim | src/components/TaskModal.tsx:77 | The result is the slice of the input between its leading and its trailing white space: what is cut off at both ends is all white space, and the result neither starts nor ends with white space. |
| Text.TrimEmptyIff | src/components/tasks/TaskForm.tsx:92 | The trimmed input is empty iff the input is all white space. |
| Text.TrimIdempotent | src/components/tasks/TaskForm.tsx:92-96 | Trimming a trimmed string changes nothing. |
| TaskForm.WithoutIndexFrom | src/components/tasks/TaskForm.tsx:104 | Filtering by position never lengthens the list. |
| TaskForm.WithoutIndexFromSlices | src/components/tasks/TaskForm.tsx:104 | Dropping the element at an absolute position leaves the elements before and after it; any other position leaves the list as it was. |
| TaskForm.WithoutIndex | src/components/tasks/TaskForm.tsx:101-106 | An index in range removes exactly that element, shortening the list by one with the rest in order; any other index changes nothing. |
| TaskForm.InitialFormData | src/components/tasks/TaskForm.tsx:61-70 | The initial form is the editing task's data, or the defaults (未着手, medium, no due date, empty lists). |
| TaskForm.FormState.constructor | src/components/tasks/TaskForm.tsx:61-73 | The form starts from the initial data, with both inputs empty. |
| TaskForm.FormState.HandleSubmit | src/components/tasks/TaskForm.tsx:75-89 | The current data is submitted, then the form is reset to the defaults. |
| TaskForm.FormState.AddResourceLink | src/components/tasks/TaskForm.tsx:91-99 | A non-blank input is appended trimmed at the end and cleared; a blank one changes nothing. |
| TaskForm.FormState.RemoveResourceLink | src/components/tasks/TaskForm.tsx:101-106 | The links become WithoutIndex of the old links. |
| TaskForm.FormState.AddTag | src/components/tasks/TaskForm.tsx:108-116 | A non-blank input is appended trimmed, even if already present, and cleared; a blank one changes nothing. |
| TaskForm.FormState.RemoveTag | src/components/tasks/TaskForm.tsx:118-123 | The tags become WithoutIndex of the old tags. |
| TaskForm.DuplicateTagAccepted | src/components/tasks/TaskForm.tsx:108-116 | A tag already present is added a second time. |
| TaskList.Passes | src/components/tasks/TaskList.tsx:131-137 | A task passes iff it meets "my tasks" (assignee 1) and each of the status, priority and assignee conditions, where an absent or empty condition does not restrict. |
| TaskList.FilteredTasks | src/components/tasks/TaskList.tsx:131-137 | The rows are no more than the tasks, and every row passes the filter. |
| TaskList.FilteredTasksExact | src/components/tasks/TaskList.tsx:131-137 | A task is listed iff it is in the list and passes each condition: "my tasks" means assignee 1; an absent or empty status, priority or assignee filter does not restrict. The rows are a subsequence. |
| TaskList.ClearedFilterListsAll | src/components/tasks/TaskList.tsx:131-137 | With the cleared filter and "my tasks" off, every task is listed in order. |
| TaskList.FilterIgnoresDatesAndTags | src/components/tasks/TaskList.tsx:131-137 | The filter's date range and tags do not change the rows. |
| TaskList.FilterStable | src/components/tasks/TaskList.tsx:131-137 | Filtering the rows again changes nothing. |
| TaskList.MyTasksOfSample | src/components/tasks/TaskList.tsx:132 | Of the sample tasks, "my tasks" shows only the first. |
| TaskList.NewTask | src/components/tasks/TaskList.tsx:139-148 | The new task carries the form's fields, the fresh id and time, creator id 1, and the first sample's assignee and creator. |
| TaskList.EditFormData | src/components/tasks/TaskList.tsx:152-162 | The task's fields are copied, and missing links or tags become the empty list. |
| TaskList.VisibleTags | src/components/tasks/TaskList.tsx:314 | At most two tags are shown, and they are the first ones. |
| TaskList.HiddenTagCount | src/components/tasks/TaskList.tsx:323-326 | The "+n" caption exists iff there are more than two tags. |
| TaskList.TagDisplayAccountsForAll | src/components/tasks/TaskList.tsx:314-326 | The chips and n add up to the number of tags, and the chips followed by the hidden tags are the tag list. |
| TaskList.TaskListState.constructor | src/components/tasks/TaskList.tsx:125-129 | The list starts as the sample tasks with an empty filter, filters hidden and the dialog closed; its form is mounted once, with no editing task, so it holds the defaults. |
| TaskList.TaskListState.ToggleFilters | src/components/tasks/TaskList.tsx:184 | The filter panel flips, and nothing else changes. |
| TaskList.TaskListState.OpenForm | src/components/tasks/TaskList.tsx:191 | The form opens and keeps whatever edit was left in place. |
| TaskList.TaskListState.SetStatusFilter | src/components/tasks/TaskList.tsx:211 | Only the status filter changes. |
| TaskList.TaskListState.SetPriorityFilter | src/components/tasks/TaskList.tsx:225 | Only the priority filter changes. |
| TaskList.TaskListState.SetAssigneeFilter | src/components/tasks/TaskList.tsx:238 | Only the assignee filter changes. |
| TaskList.TaskListState.ClearFilters | src/components/tasks/TaskList.tsx:170-172 | The filter becomes empty, and nothing else changes. |
| TaskList.TaskListState.HandleCreateTask | src/components/tasks/TaskList.tsx:139-150 | The new task is appended at the end. |
| TaskList.TaskListState.HandleEditTask | src/components/tasks/TaskList.tsx:152-164 | The table's `editingTask` takes the task's fields and the dialog opens; the mounted form's data does not change. |
| TaskList.TaskListState.HandleDeleteTask | src/components/tasks/TaskList.tsx:166-168 | Every task with the id is removed. |
| TaskList.TaskListState.CloseForm | src/components/tasks/TaskList.tsx:357-360 | The form closes and the edit is cleared. |
| TaskList.TaskListState.SubmitForm | src/components/tasks/TaskList.tsx:355-364 | Whatever the mounted form holds is appended as a new task, whether or not an edit was open, and no task is replaced. Then the dialog closes and the form resets to the defaults. |
| TaskList.DeleteRemovesExactly | src/components/tasks/TaskList.tsx:166-168 | A task remains iff it was there with another id, and the rest keep their order. |
| NotificationPanel.UnreadCount | src/components/notifications/NotificationPanel.tsx:120 | The unread count is at most the number of notifications. |
| NotificationPanel.Visible | src/components/notifications/NotificationPanel.tsx:121-123 | Tab 0 shows everything; any other tab shows exactly the unread count of notifications, all unread. |
| NotificationPanel.UnreadTabExact | src/components/notifications/NotificationPanel.tsx:120-123 | The unread tab lists a notification iff it is unread, in order, and read plus unread is the whole list. |
| NotificationPanel.WithRead | src/components/notifications/NotificationPanel.tsx:125-135 | Only the notifications with the id change, and only in their read flag; the length is kept. |
| NotificationPanel.WithReadIdempotent | src/components/notifications/NotificationPanel.tsx:125-135 | Marking read (or unread) twice is marking once. |
| NotificationPanel.ReadThenUnreadRestores | src/components/notifications/NotificationPanel.tsx:125-135 | Marking unread notifications read and then unread restores the list. |
| NotificationPanel.MarkAsReadLowersUnread | src/components/notifications/NotificationPanel.tsx:120-129 | Marking read never raises the unread count, and changes nothing when no notification has the id. |
| NotificationPanel.MarkAsUnreadRaisesUnread | src/components/notifications/NotificationPanel.tsx:120-135 | Marking unread never lowers the unread count. |
| NotificationPanel.AllRead | src/components/notifications/NotificationPanel.tsx:160-162 | Every notification is kept, now read. |
| NotificationPanel.MarkRead | src/components/notifications/NotificationPanel.tsx:160-162 | The callback sets the read flag and changes nothing else. |
| NotificationPanel.UnreadPositiveIff | src/components/notifications/NotificationPanel.tsx:120 | The unread count is positive iff some notification is unread. |
| NotificationPanel.Panel.ShowsMarkAll | src/components/notifications/NotificationPanel.tsx:176 | The 全て既読にする button is shown iff some notification is unread. |
| NotificationPanel.MarkAllClearsUnread | src/components/notifications/NotificationPanel.tsx:160-176 | After marking all read, nothing is unread and the unread tab is empty. |
| NotificationPanel.NewNotification | src/components/notifications/NotificationPanel.tsx:142-150 | A sent notification is unread, from user 1, about task "manual", with the form's recipient, message and type. |
| NotificationPanel.SendAddsUnread | src/components/notifications/NotificationPanel.tsx:141-150 | Prepending a sent notification raises the unread count by one. |
| NotificationPanel.DeleteRemovesExactly | src/components/notifications/NotificationPanel.tsx:137-139 | A notification remains iff it was there with another id, and the rest keep their order. |
| NotificationPanel.SampleUnreadCount | src/components/notifications/NotificationPanel.tsx:65-96 | Two of the three sample notifications start unread. |
| NotificationPanel.Panel.constructor | src/components/notifications/NotificationPanel.tsx:111-118 | The panel starts with the samples on tab 0, the dialog closed and the form empty with type reminder. |
| NotificationPanel.Panel.SetActiveTab | src/components/notifications/NotificationPanel.tsx:195 | Only the tab changes. |
| NotificationPanel.Panel.SetFormOpen | src/components/notifications/NotificationPanel.tsx:184 | Only the dialog's visibility changes. |
| NotificationPanel.Panel.EditForm | src/components/notifications/NotificationPanel.tsx:277-305 | Only the form changes. |
| NotificationPanel.Panel.MarkAsRead | src/components/notifications/NotificationPanel.tsx:125-129 | The list follows WithRead with true. |
| NotificationPanel.Panel.MarkAsUnread | src/components/notifications/NotificationPanel.tsx:131-135 | The list follows WithRead with false. |
| NotificationPanel.Panel.Delete | src/components/notifications/NotificationPanel.tsx:137-139 | Every notification with the id is removed. |
| NotificationPanel.Panel.SendNotification | src/components/notifications/NotificationPanel.tsx:141-158 | The new notification is put first and the unread count grows by one. The dialog closes and the form is reset to type reminder. |
| NotificationPanel.Panel.MarkAllAsRead | src/components/notifications/NotificationPanel.tsx:160-176 | Every notification becomes read, the unread count is 0 and the button disappears. |
| UserManagement.FormFor | src/components/users/UserManagement.tsx:118-137 | Editing copies name, email and role, and the Discord id or the empty string; creating starts blank with role developer. |
| UserManagement.AfterEdit | src/components/users/UserManagement.tsx:147-152 | Only the users with the edited id change. They take the form's name, email, Discord id and role and the new time, and keep their id, permissions and creation time. The length is kept. |
| UserManagement.NewUser | src/components/users/UserManagement.tsx:153-159 | A created user has the form's fields, no permissions, and the fresh id and time. |
| UserManagement.Merge | src/components/users/UserManagement.tsx:150 | The merged user keeps id, permissions and creation time, and takes the form's name, email, Discord id and role and the new update time. |
| UserManagement.DeleteDisabled | src/components/users/UserManagement.tsx:249 | The delete button is disabled exactly for administrators. |
| UserManagement.OperationsKeepUniqueIds | src/components/users/UserManagement.tsx:144-171 | With unique ids, an edit and a delete keep them unique, and so does a create whose id is new. |
| UserManagement.FilterKeepsUniqueIds | src/components/users/UserManagement.tsx:169 | Deleting keeps unique ids unique. |
| UserManagement.EditUnchangedRoundTrip | src/components/users/UserManagement.tsx:118-152 | Saving an unchanged edit only moves the update time, except that an absent Discord id becomes the empty one. |
| UserManagement.EditKeepsIds | src/components/users/UserManagement.tsx:147-152 | An edit keeps every user's id. |
| UserManagement.UserScreen.constructor | src/components/users/UserManagement.tsx:108-116 | The screen starts with the sample users, the dialog closed and the blank form. |
| UserManagement.UserScreen.HandleOpenForm | src/components/users/UserManagement.tsx:118-137 | The dialog opens on FormFor(user), with that user being edited. |
| UserManagement.UserScreen.HandleCloseForm | src/components/users/UserManagement.tsx:139-142 | The dialog closes and nobody is being edited. |
| UserManagement.UserScreen.EditForm | src/components/users/UserManagement.tsx:274-297 | Only the form changes. |
| UserManagement.UserScreen.HandleSubmit | src/components/users/UserManagement.tsx:144-165 | An edit follows AfterEdit; a create appends NewUser; either way the dialog closes and nobody is being edited. |
| UserManagement.UserScreen.HandleDeleteUser | src/components/users/UserManagement.tsx:167-171 | Users with the id are removed only when confirmed; otherwise the list is unchanged. |
| UserManagement.DeleteRemovesExactly | src/components/users/UserManagement.tsx:167-171 | A user remains iff they were there with another id, and the rest keep their order. |
| UserManagement.AdminsSurviveEnabledDelete | src/components/users/UserManagement.tsx:249 | With unique ids, a delete through an enabled button keeps every administrator. |
| UserManagement.SampleAdmin | src/components/users/UserManagement.tsx:58-98 | Among the sample users only 高橋次郎 is an administrator, and the sample ids are unique. |
| Discord.Name | src/lib/discord.ts:58-59 | The display name if non-empty, else the user name if non-empty, else the fallback. |
| Discord.NameNeverEmpty | src/lib/discord.ts:58-59 | With a non-empty fallback the name is never empty. The fallback is used when neither name is usable, or when the chosen name happens to equal it. |
| Discord.TruncateDescription | src/lib/discord.ts:88-90 | A description over 100 characters becomes its first 100 plus `...`; a shorter one is unchanged; the result is at most 103 long. |
| Discord.TruncateKeepsPrefix | src/lib/discord.ts:88-90 | A truncated description is 103 long and starts with the original's first 100 characters. |
| Discord.StatusColor | src/lib/discord.ts:108-118 | 進行中 is blue, レビュー待ち yellow, 完了 green, and anything else gray. |
| Discord.StatusColorsDistinct | src/lib/discord.ts:108-113 | The four statuses have four different colours. |
| Discord.StatusColorOfLabel | src/lib/discord.ts:108-118 | Each status label gets its colour, and text that names no status is gray. |
| Discord.NotifyTaskCreated | src/lib/discord.ts:51-96 | One blue embed with the task's title and three inline fields: assignee, reporter and priority. A fourth, non-inline, truncated description field is present iff the description is non-empty. |
| Discord.NotifyTaskStatusChanged | src/lib/discord.ts:98-140 | One embed coloured by the new status, with the fields "old → new", assignee and changed-by. |
| Discord.NotifyTaskCompleted | src/lib/discord.ts:142-170 | One green embed with exactly the fields assignee and completed-by. |

## Left out

- Backend access (the database client and its query chains, the profile list fetch) is external I/O. Each store operation receives the backend's reply as a parameter. Only the fetch also models a call that throws (`UseTasks.FetchOutcome.Threw`).
- Dashboard.DashboardPage.HandleSaveTask, HandleStatusChange and HandleDelete assume that the awaited create, update and delete return, because the client reports failures in `error`. If one threw, the dashboard would skip closing the modal and the modal's own `catch` would keep it open; the model does not capture that path.
- The fetch that runs when the user changes (src/hooks/useTasks.ts:40-44) is React effect scheduling. `UseTasks.TaskStore.FetchTasks` is the operation it runs.
- Authentication and the auth context are not part of this model. The signed-in user's id and the manager flag are inputs.
- Routing, redirects, the page wrappers, the hard-coded dashboard widgets and all JSX and styling are presentation only.
- Clocks and ids (`new Date()`, `Date.now()`) are parameters: `now`, `id`, `loadedAt`, `timestamp`. `toISOString` is the `dueIso` parameter, which is None when the conversion throws. `toLocaleString` is display only.
- The sample notifications' dates are local wall-clock times, so the module's `utcOffset` parameter fixes their instants.
- Estimated hours stay as their decimal text, because `parseFloat` and `toString` are floating point. `TaskModal.Payload` passes the text through.
- String lengths and `substring` count code points, not UTF-16 units. `Discord.TruncateDescription` therefore treats a character outside the Basic Multilingual Plane as one character, not two.
- `Discord.StatusColor` does not model keys inherited from `Object.prototype` (e.g. `constructor`), whose lookup returns a function rather than a colour.
- `window.confirm` is a boolean input.
- Browser form validation (`required` inputs) is not modelled. The handlers are modelled as they run once the browser lets the form submit.
- React's batching of state updates and async ordering are not modelled. Each handler's updates are applied in program order.
- A `null` and an `undefined` field are both None. Where the two are compared, as in the store's selectors, the comparison is written out: the store's rows come from the backend, so their unset ids are `null`.
- The permission bag of a profile or user is carried along but never consulted.
- `TaskForm.FormState.constructor` models the `useState` initialiser, which React runs only when the form is first mounted. A later change of `editingTask` does not re-run it, and the model has no operation for that case either. The task table's form is built once, in `TaskList.TaskListState.constructor`, accordingly.
- `sendWebhook`, the environment variable it reads and its logging are I/O. The `Discord` methods return the payload it would post.
