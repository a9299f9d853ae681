/** The task cache hook (src/hooks/useTasks.ts). The backend is external:
    each operation receives the backend's reply as a parameter and returns
    what the hook returns. The cache is a class whose fields are the hook's
    three pieces of state. */
module UseTasks {
  import opened Wrappers
  import opened Enums
  import opened Schema
  import opened Seqs

  /** A backend reply `{ data, error }`. */
  datatype Response<T> = Response(data: Option<T>, error: Option<BackendError>)

  /** The outcome of the list query: a reply, or an exception from the client. */
  datatype FetchOutcome = Fetched(rows: Option<seq<Task>>, failure: Option<BackendError>) | Threw

  /** The fields `createTask` accepts. */
  datatype CreateFields = CreateFields(
    title: string,
    description: Option<string>,
    status: Option<Status>,
    priority: Option<Priority>,
    assignee_id: Option<string>,
    due_date: Option<string>,
    estimated_hours: Option<string>,
    tags: Option<seq<string>>)

  /** The row `createTask` inserts: the caller's fields, then `reporter_id`. */
  datatype InsertRow = InsertRow(fields: CreateFields, reporter_id: string)

  const NotAuthenticated := BackendError("Not authenticated")
  const FetchFailedMessage := "タスクの取得に失敗しました"

  /** The hook applies a reply to its cache only when it has data and no error. */
  predicate Accepted<T>(r: Response<T>) {
    r.data.Some? && r.error.None?
  }

  // ---------------------------------------------------------------------
  // The callbacks the hook passes to `filter` and `map`.

  function IdIsNot(id: string): Task -> bool { (t: Task) => t.id != id }
  function HasStatus(status: Status): Task -> bool { (t: Task) => t.status == status }
  /** `task.assignee_id === user?.id`. The store's rows all come from the
      backend, which sends `null` for an unset id; `null === undefined` is
      false, so nothing matches while nobody is signed in. */
  function AssignedTo(user: Option<string>): Task -> bool { (t: Task) => user.Some? && t.assignee_id == user }
  /** `task.reporter_id === user?.id`, read as for `AssignedTo`. */
  function ReportedBy(user: Option<string>): Task -> bool { (t: Task) => user.Some? && t.reporter_id == user }
  function Replacing(id: string, record: Task): Task -> Task { (t: Task) => if t.id == id then record else t }

  // ---------------------------------------------------------------------
  // The cache updates, as functions of the old list.

  /** The list after `fetchTasks`. */
  function AfterFetch(tasks: seq<Task>, outcome: FetchOutcome): (r: seq<Task>)
    ensures outcome.Threw? || outcome.failure.Some? ==> r == tasks
    ensures outcome.Fetched? && outcome.failure.None? ==> r == outcome.rows.GetOr([])
  {
    match outcome
    case Threw => tasks
    case Fetched(rows, failure) => if failure.Some? then tasks else rows.GetOr([])
  }

  /** The error message after `fetchTasks`. */
  function FetchError(outcome: FetchOutcome): (r: Option<string>)
    ensures r.None? <==> outcome.Fetched? && outcome.failure.None?
  {
    match outcome
    case Threw => Some(FetchFailedMessage)
    case Fetched(_, failure) => if failure.Some? then Some(failure.value.message) else None
  }

  /** The list after `createTask` with the given signed-in user and reply. */
  function AfterCreate(tasks: seq<Task>, user: Option<string>, response: Response<Task>): (r: seq<Task>)
    ensures user.Some? && Accepted(response) ==> |r| == |tasks| + 1 && r[0] == response.data.value && r[1..] == tasks
    ensures user.None? || !Accepted(response) ==> r == tasks
  {
    if user.Some? && Accepted(response) then [response.data.value] + tasks else tasks
  }

  /** `prev.map(task => task.id === id ? record : task)`. */
  function ReplaceById(tasks: seq<Task>, id: string, record: Task): (r: seq<Task>)
    ensures |r| == |tasks|
    ensures forall i :: 0 <= i < |tasks| && tasks[i].id == id ==> r[i] == record
    ensures forall i :: 0 <= i < |tasks| && tasks[i].id != id ==> r[i] == tasks[i]
  {
    Map(tasks, Replacing(id, record))
  }

  /** The list after `updateTask(id, …)`. */
  function AfterUpdate(tasks: seq<Task>, id: string, response: Response<Task>): (r: seq<Task>)
    ensures !Accepted(response) ==> r == tasks
    ensures Accepted(response) ==> r == ReplaceById(tasks, id, response.data.value)
  {
    if Accepted(response) then ReplaceById(tasks, id, response.data.value) else tasks
  }

  /** `prev.filter(task => task.id !== id)`. */
  function RemoveById(tasks: seq<Task>, id: string): (r: seq<Task>)
    ensures forall i :: 0 <= i < |r| ==> r[i].id != id
    ensures |r| <= |tasks|
  {
    Filter(tasks, IdIsNot(id))
  }

  /** The list after `deleteTask(id)`, given the error the backend reports. */
  function AfterDelete(tasks: seq<Task>, id: string, error: Option<BackendError>): (r: seq<Task>)
    ensures error.Some? ==> r == tasks
    ensures error.None? ==> r == RemoveById(tasks, id)
  {
    if error.None? then RemoveById(tasks, id) else tasks
  }

  // ---------------------------------------------------------------------
  // The selectors.

  function TasksByStatus(tasks: seq<Task>, status: Status): (r: seq<Task>)
    ensures forall i :: 0 <= i < |r| ==> r[i].status == status
  {
    Filter(tasks, HasStatus(status))
  }

  /** `tasks.filter(task => task.assignee_id === user?.id)`. */
  function MyTasks(tasks: seq<Task>, user: Option<string>): (r: seq<Task>)
    ensures forall i :: 0 <= i < |r| ==> r[i].assignee_id == user
  {
    Filter(tasks, AssignedTo(user))
  }

  /** `tasks.filter(task => task.reporter_id === user?.id)`. */
  function ReportedTasks(tasks: seq<Task>, user: Option<string>): (r: seq<Task>)
    ensures forall i :: 0 <= i < |r| ==> r[i].reporter_id == user
  {
    Filter(tasks, ReportedBy(user))
  }

  // ---------------------------------------------------------------------
  // The hook's state.

  class TaskStore {
    var tasks: seq<Task>
    var loading: bool
    var error: Option<string>
    /** The signed-in user's id from the auth context. */
    const user: Option<string>

    constructor(user: Option<string>)
      ensures this.user == user && tasks == [] && loading && error == None
    {
      this.user := user;
      tasks := [];
      loading := true;
      error := None;
    }

    method FetchTasks(outcome: FetchOutcome)
      modifies this
      ensures tasks == AfterFetch(old(tasks), outcome)
      ensures error == FetchError(outcome)
      ensures !loading
    {
      loading := true;
      error := None;
      match outcome {
        case Threw =>
          error := Some(FetchFailedMessage);
        case Fetched(rows, failure) =>
          if failure.Some? {
            error := Some(failure.value.message);
          } else {
            tasks := if rows.Some? then rows.value else [];
          }
      }
      loading := false;
    }

    /** Creates a task; `sent` is the row handed to the backend, if any. */
    method CreateTask(fields: CreateFields, response: Response<Task>) returns (result: Response<Task>, sent: Option<InsertRow>)
      modifies this
      ensures user.None? ==> sent == None && result == Response(None, Some(NotAuthenticated))
      ensures user.Some? ==> sent == Some(InsertRow(fields, user.value)) && result == response
      ensures tasks == AfterCreate(old(tasks), user, response)
      ensures loading == old(loading) && error == old(error)
    {
      if user.None? {
        return Response(None, Some(NotAuthenticated)), None;
      }
      sent := Some(InsertRow(fields, user.value));
      if response.data.Some? && response.error.None? {
        tasks := [response.data.value] + tasks;
      }
      result := response;
    }

    /** Updates task `id` with `updates`; `sent` is the patch handed to the
        backend, and the cache takes the server's record. */
    method UpdateTask(id: string, updates: TaskPatch, response: Response<Task>) returns (result: Response<Task>, sent: TaskPatch)
      modifies this
      ensures sent == updates && result == response
      ensures tasks == AfterUpdate(old(tasks), id, response)
      ensures loading == old(loading) && error == old(error)
    {
      if response.data.Some? && response.error.None? {
        tasks := ReplaceById(tasks, id, response.data.value);
      }
      sent := updates;
      result := response;
    }

    method DeleteTask(id: string, outcome: Option<BackendError>) returns (result: Option<BackendError>)
      modifies this
      ensures result == outcome
      ensures tasks == AfterDelete(old(tasks), id, outcome)
      ensures loading == old(loading) && error == old(error)
    {
      if outcome.None? {
        tasks := RemoveById(tasks, id);
      }
      result := outcome;
    }
  }

  // ---------------------------------------------------------------------
  // Properties of the cache updates and the selectors.

  /** A failed create, update or delete leaves the list as it was. */
  lemma FailuresLeaveCache(tasks: seq<Task>, user: Option<string>, id: string, response: Response<Task>, e: BackendError)
    requires response.error.Some?
    ensures AfterCreate(tasks, user, response) == tasks
    ensures AfterUpdate(tasks, id, response) == tasks
    ensures AfterDelete(tasks, id, Some(e)) == tasks
  {
  }

  /** After a successful delete no entry has the id, and every other entry
      is kept, in order. */
  lemma {:induction false} DeleteRemovesExactly(tasks: seq<Task>, id: string, t: Task)
    ensures t in RemoveById(tasks, id) <==> t in tasks && t.id != id
    ensures IsSubsequence(RemoveById(tasks, id), tasks)
  {
    FilterMembership(tasks, IdIsNot(id), t);
    FilterIsSubsequence(tasks, IdIsNot(id));
  }

  /** Deleting an id that is not there changes nothing. */
  lemma {:induction false} DeleteAbsentIsNoop(tasks: seq<Task>, id: string)
    requires forall i :: 0 <= i < |tasks| ==> tasks[i].id != id
    ensures RemoveById(tasks, id) == tasks
  {
    FilterKeepsAll(tasks, IdIsNot(id));
  }

  /** Updating an id that is not there changes nothing. */
  lemma UpdateAbsentIsNoop(tasks: seq<Task>, id: string, record: Task)
    requires forall i :: 0 <= i < |tasks| ==> tasks[i].id != id
    ensures ReplaceById(tasks, id, record) == tasks
  {
  }

  /** The store does not treat 完了 as terminal: a completed task is
      replaced by whatever record the backend returns, e.g. one back in
      progress. */
  lemma StoreDoesNotEnforceTerminality(tasks: seq<Task>, i: nat, record: Task)
    requires i < |tasks| && tasks[i].status == Completed && record.id == tasks[i].id
    requires record.status == InProgress
    ensures AfterUpdate(tasks, tasks[i].id, Response(Some(record), None))[i].status == InProgress
  {
  }

  /** A created task heads its reporter's selector and its status's. */
  lemma {:induction false} CreatedTaskIsListed(tasks: seq<Task>, user: string, response: Response<Task>)
    requires Accepted(response) && response.data.value.reporter_id == Some(user)
    ensures response.data.value in AfterCreate(tasks, Some(user), response)
    ensures ReportedTasks(AfterCreate(tasks, Some(user), response), Some(user))
            == [response.data.value] + ReportedTasks(tasks, Some(user))
    ensures TasksByStatus(AfterCreate(tasks, Some(user), response), response.data.value.status)
            == [response.data.value] + TasksByStatus(tasks, response.data.value.status)
  {
    var created := response.data.value;
    assert AfterCreate(tasks, Some(user), response) == [created] + tasks;
    FilterAppend([created], tasks, ReportedBy(Some(user)));
    FilterAppend([created], tasks, HasStatus(created.status));
  }

  /** The selectors return exactly the matching entries, in order. */
  lemma {:induction false} SelectorsExact(tasks: seq<Task>, status: Status, user: Option<string>, t: Task)
    ensures t in TasksByStatus(tasks, status) <==> t in tasks && t.status == status
    ensures t in MyTasks(tasks, user) <==> t in tasks && user.Some? && t.assignee_id == user
    ensures t in ReportedTasks(tasks, user) <==> t in tasks && user.Some? && t.reporter_id == user
    ensures IsSubsequence(TasksByStatus(tasks, status), tasks)
    ensures IsSubsequence(MyTasks(tasks, user), tasks)
    ensures IsSubsequence(ReportedTasks(tasks, user), tasks)
  {
    FilterMembership(tasks, HasStatus(status), t);
    FilterMembership(tasks, AssignedTo(user), t);
    FilterMembership(tasks, ReportedBy(user), t);
    FilterIsSubsequence(tasks, HasStatus(status));
    FilterIsSubsequence(tasks, AssignedTo(user));
    FilterIsSubsequence(tasks, ReportedBy(user));
  }

  /** With nobody signed in, `getMyTasks` and `getReportedTasks` return
      nothing, not even the unassigned tasks: their `null` id is not the
      `undefined` of the missing user. */
  lemma {:induction false} MyTasksSignedOut(tasks: seq<Task>)
    ensures MyTasks(tasks, None) == []
    ensures ReportedTasks(tasks, None) == []
  {
    FilterKeepsNone(tasks, AssignedTo(None));
    FilterKeepsNone(tasks, ReportedBy(None));
  }
}
