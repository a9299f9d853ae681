/** The workflow and authorization guard of the task card
    (src/components/TaskCard.tsx). `user` is the signed-in user's id from
    the auth context (None when signed out); `isManager` comes from the
    same context. Every decision is a total boolean function. */
module TaskCard {
  import opened Wrappers
  import opened Enums
  import opened Schema

  /** `canEdit`: a signed-in user who is the assignee, the reporter or a manager. */
  function CanEdit(user: Option<string>, isManager: bool, task: Task): (b: bool)
    ensures b ==> user.Some?
    ensures user.Some? && isManager ==> b
  {
    user.Some? && (task.assignee_id == Some(user.value) || task.reporter_id == Some(user.value) || isManager)
  }

  /** The status select's `disabled` flag. */
  function SelectDisabled(user: Option<string>, isManager: bool, task: Task): (b: bool)
    ensures user.None? || task.status == Completed ==> b
  {
    !CanEdit(user, isManager, task) || task.status == Completed
  }

  /** The edit button, rendered inside the `canEdit` block. */
  function ShowEdit(user: Option<string>, isManager: bool, task: Task): (b: bool)
    ensures b ==> user.Some? && task.status != Completed
  {
    CanEdit(user, isManager, task) && task.status != Completed
  }

  /** The delete button, rendered inside the `canEdit` block. */
  function ShowDelete(user: Option<string>, isManager: bool, task: Task): (b: bool)
    ensures b ==> user.Some?
    ensures b && !isManager ==> task.status == Completed
  {
    CanEdit(user, isManager, task) && ((task.status == Completed && CanEdit(user, isManager, task)) || isManager)
  }

  /** The delete button's label: 終了 (close out) for a completed task. */
  function DeleteLabel(task: Task): (text: string)
    ensures text == "終了" <==> task.status == Completed
    ensures text == "終了" || text == "削除"
  {
    if task.status == Completed then "終了" else "削除"
  }

  /** The options of the status select, in order. */
  const StatusOptions: seq<string> := ["未着手", "進行中", "レビュー待ち", "完了"]

  /** What `onStatusChange` receives when option `value` is picked. */
  function StatusChange(task: Task, value: string): (r: (string, string))
    ensures r.0 == task.id && r.1 == value
  {
    (task.id, value)
  }

  // ---------------------------------------------------------------------
  // The policy the guard implements, stated independently of the JSX.

  /** Ownership: the user is the task's assignee or its reporter. */
  predicate Owns(user: string, task: Task) {
    task.assignee_id == Some(user) || task.reporter_id == Some(user)
  }

  lemma CanEditIsOwnershipOrManager(user: Option<string>, isManager: bool, task: Task)
    ensures CanEdit(user, isManager, task) <==> user.Some? && (Owns(user.value, task) || isManager)
  {
  }

  /** A task without assignee and reporter is editable only by a manager. */
  lemma AbsentReferencesNeverMatch(user: Option<string>, task: Task)
    requires task.assignee_id.None? && task.reporter_id.None?
    ensures !CanEdit(user, false, task)
  {
  }

  /** The reporter may edit even when someone else is the assignee. */
  lemma ReporterSuffices(user: string, isManager: bool, task: Task)
    requires task.reporter_id == Some(user)
    ensures CanEdit(Some(user), isManager, task)
  {
  }

  /** A completed task has its select disabled and no edit button, whoever looks at it. */
  lemma CompletedIsFrozen(user: Option<string>, isManager: bool, task: Task)
    requires task.status == Completed
    ensures SelectDisabled(user, isManager, task)
    ensures !ShowEdit(user, isManager, task)
  {
  }

  /** Deletion: an owner or manager may close out a completed task; only a
      manager may delete an open one. */
  lemma DeletePolicy(user: Option<string>, isManager: bool, task: Task)
    ensures ShowDelete(user, isManager, task) <==>
      user.Some? && ((task.status == Completed && Owns(user.value, task)) || isManager)
  {
  }

  /** A non-manager never sees the delete button on an open task. */
  lemma OwnerCannotDeleteOpenTask(user: Option<string>, task: Task)
    requires task.status != Completed
    ensures !ShowDelete(user, false, task)
  {
  }

  /** The select is enabled exactly where the edit button is shown. */
  lemma SelectEnabledIffEditShown(user: Option<string>, isManager: bool, task: Task)
    ensures !SelectDisabled(user, isManager, task) <==> ShowEdit(user, isManager, task)
  {
  }

  /** Being a manager never takes an action away. */
  lemma ManagerMonotone(user: Option<string>, task: Task)
    ensures CanEdit(user, false, task) ==> CanEdit(user, true, task)
    ensures !SelectDisabled(user, false, task) ==> !SelectDisabled(user, true, task)
    ensures ShowEdit(user, false, task) ==> ShowEdit(user, true, task)
    ensures ShowDelete(user, false, task) ==> ShowDelete(user, true, task)
  {
  }

  lemma DeleteLabelIff(task: Task)
    ensures DeleteLabel(task) == "終了" <==> task.status == Completed
    ensures DeleteLabel(task) == "削除" <==> task.status != Completed
  {
  }

  /** No adjacency rule: every status is offered, and the picked value is
      passed on unchanged with the task's id. */
  lemma AnyStatusSelectable(task: Task, to: Status)
    ensures StatusLabel(to) in StatusOptions
    ensures StatusChange(task, StatusLabel(to)) == (task.id, StatusLabel(to))
    ensures ParseStatus(StatusChange(task, StatusLabel(to)).1) == Some(to)
  {
  }

  /** The walk-through of the workflow: A (id 1) reports task X assigned
      to B (id 2); C (id 3) is unrelated; D is a manager. */
  lemma ScenarioOpenTask(x: Task)
    requires x.reporter_id == Some("1") && x.assignee_id == Some("2") && x.status == NotStarted
    ensures ShowEdit(Some("2"), false, x) && !SelectDisabled(Some("2"), false, x)
    ensures SelectDisabled(Some("3"), false, x) && !ShowEdit(Some("3"), false, x) && !ShowDelete(Some("3"), false, x)
    ensures ShowDelete(Some("4"), true, x)
    ensures !ShowDelete(Some("1"), false, x)
  {
  }

  /** Task Y is completed: its reporter may close it out but not edit it;
      an unrelated member may not; a manager may. */
  lemma ScenarioCompletedTask(y: Task)
    requires y.reporter_id == Some("1") && y.assignee_id == Some("2") && y.status == Completed
    ensures ShowDelete(Some("1"), false, y) && !ShowEdit(Some("1"), false, y)
    ensures !ShowDelete(Some("3"), false, y)
    ensures ShowDelete(Some("4"), true, y)
    ensures DeleteLabel(y) == "終了"
  {
  }
}
