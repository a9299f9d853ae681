/** The dashboard page (src/app/dashboard/page.tsx): it wires the board and
    the modal to the task store, asks for confirmation before deleting and
    shows four status counters. Each handler reports the store call it
    made, so that what reaches the backend can be stated. */
module Dashboard {
  import opened Wrappers
  import opened Enums
  import opened Schema
  import opened Seqs
  import opened UseTasks
  import opened TaskBoard

  /** The store operation a handler invoked, if any. */
  datatype StoreCall =
    | NoCall
    | CreateCall(fields: CreateFields)
    | UpdateCall(id: string, patch: TaskPatch)
    | DeleteCall(id: string)

  const CloseOutPrompt := "この完了済みタスクを終了（削除）しますか？"
  const DeletePromptText := "このタスクを削除しますか？"

  /** The update `handleStatusChange` sends: `{ status }` and nothing else. */
  function StatusPatch(status: Status): (p: TaskPatch)
    ensures p.status == Some(status)
    ensures p.(status := None) == EmptyPatch
  {
    EmptyPatch.(status := Some(status))
  }

  /** The store call `handleSaveTask` makes for the modal's data. */
  function SaveCall(editing: Option<Task>, data: TaskPatch): (c: StoreCall)
    ensures editing.Some? ==> c == UpdateCall(editing.value.id, data)
    ensures editing.None? && !Truthy(data.title) ==> c == NoCall
    ensures editing.None? && Truthy(data.title) ==>
      c == CreateCall(CreateFields(data.title.value, data.description, data.status, data.priority,
                                   data.assignee_id, data.due_date, data.estimated_hours, data.tags))
  {
    if editing.Some? then UpdateCall(editing.value.id, data)
    else if data.title.Some? && data.title.value != "" then
      CreateCall(CreateFields(
        title := data.title.value,
        description := data.description,
        status := data.status,
        priority := data.priority,
        assignee_id := data.assignee_id,
        due_date := data.due_date,
        estimated_hours := data.estimated_hours,
        tags := data.tags))
    else NoCall
  }

  /** The task list after a save call, given the signed-in user and the reply. */
  function AfterSave(tasks: seq<Task>, user: Option<string>, call: StoreCall, response: Response<Task>): (r: seq<Task>)
    ensures !Accepted(response) ==> r == tasks
    ensures !call.CreateCall? ==> |r| == |tasks|
    ensures call.CreateCall? ==> r == tasks || r == [response.data.value] + tasks
  {
    match call
    case CreateCall(_) => AfterCreate(tasks, user, response)
    case UpdateCall(id, _) => AfterUpdate(tasks, id, response)
    case _ => tasks
  }

  function IdIs(id: string): Task -> bool { (t: Task) => t.id == id }

  /** The confirmation text: the close-out wording when the first task with
      the id is completed. */
  function DeletePrompt(tasks: seq<Task>, id: string): (message: string)
    ensures message == CloseOutPrompt <==>
      Filter(tasks, IdIs(id)) != [] && Filter(tasks, IdIs(id))[0].status == Completed
    ensures message == CloseOutPrompt || message == DeletePromptText
  {
    var task := Find(tasks, IdIs(id));
    if task.Some? && task.value.status == Completed then CloseOutPrompt else DeletePromptText
  }

  datatype Counters = Counters(notStarted: nat, inProgress: nat, awaitingReview: nat, completed: nat)

  /** The four counters above the board. */
  function StatusCounters(tasks: seq<Task>): (c: Counters)
    ensures c.notStarted + c.inProgress + c.awaitingReview + c.completed == |tasks|
    ensures c.notStarted == Board(tasks)[0].badge && c.inProgress == Board(tasks)[1].badge
    ensures c.awaitingReview == Board(tasks)[2].badge && c.completed == Board(tasks)[3].badge
  {
    StatusCountsSum(tasks);
    Counters(
      |TasksByStatus(tasks, NotStarted)|,
      |TasksByStatus(tasks, InProgress)|,
      |TasksByStatus(tasks, AwaitingReview)|,
      |TasksByStatus(tasks, Completed)|)
  }

  class DashboardPage {
    const store: TaskStore
    var isModalOpen: bool
    var editingTask: Option<Task>

    /** A task is only ever being edited inside the open modal. */
    ghost predicate Valid()
      reads this
    {
      editingTask.Some? ==> isModalOpen
    }

    constructor(store: TaskStore)
      ensures this.store == store && !isModalOpen && editingTask == None && Valid()
    {
      this.store := store;
      isModalOpen := false;
      editingTask := None;
    }

    /** The 新しいタスク button. */
    method OpenNewTask()
      requires Valid()
      modifies this
      ensures Valid() && isModalOpen && editingTask == old(editingTask)
    {
      isModalOpen := true;
    }

    method HandleEdit(task: Task)
      modifies this
      ensures Valid() && isModalOpen && editingTask == Some(task)
    {
      editingTask := Some(task);
      isModalOpen := true;
    }

    method HandleModalClose()
      modifies this
      ensures Valid() && !isModalOpen && editingTask == None
    {
      isModalOpen := false;
      editingTask := None;
    }

    /** Hands the store the patch `{ status }`; `call` is what the store reports it sent. */
    method HandleStatusChange(id: string, status: Status, response: Response<Task>) returns (call: StoreCall)
      modifies store
      ensures call == UpdateCall(id, StatusPatch(status))
      ensures store.tasks == AfterUpdate(old(store.tasks), id, response)
      ensures store.loading == old(store.loading) && store.error == old(store.error)
    {
      var _, sent := store.UpdateTask(id, StatusPatch(status), response);
      call := UpdateCall(id, sent);
    }

    /** Asks for confirmation (`confirmed` is the user's answer), then deletes. */
    method HandleDelete(id: string, confirmed: bool, outcome: Option<BackendError>) returns (message: string, call: StoreCall)
      modifies store
      ensures message == DeletePrompt(old(store.tasks), id)
      ensures call == if confirmed then DeleteCall(id) else NoCall
      ensures store.tasks == if confirmed then AfterDelete(old(store.tasks), id, outcome) else old(store.tasks)
      ensures store.loading == old(store.loading) && store.error == old(store.error)
    {
      message := DeletePrompt(store.tasks, id);
      if confirmed {
        var _ := store.DeleteTask(id, outcome);
        call := DeleteCall(id);
      } else {
        call := NoCall;
      }
    }

    /** The modal's save: update the task being edited, or create one when
        a title was given; then close the modal. `call` is built from what
        the store reports it was handed, and `row` is the insert the store
        sent to the backend. */
    method HandleSaveTask(data: TaskPatch, response: Response<Task>) returns (call: StoreCall, row: Option<InsertRow>)
      modifies this, store
      ensures call == SaveCall(old(editingTask), data)
      ensures row == if call.CreateCall? && store.user.Some? then Some(InsertRow(call.fields, store.user.value)) else None
      ensures store.tasks == AfterSave(old(store.tasks), store.user, call, response)
      ensures store.loading == old(store.loading) && store.error == old(store.error)
      ensures Valid() && !isModalOpen && editingTask == None
    {
      row := None;
      if editingTask.Some? {
        var _, sent := store.UpdateTask(editingTask.value.id, data, response);
        call := UpdateCall(editingTask.value.id, sent);
      } else {
        if data.title.Some? && data.title.value != "" {
          var fields := CreateFields(
            title := data.title.value,
            description := data.description,
            status := data.status,
            priority := data.priority,
            assignee_id := data.assignee_id,
            due_date := data.due_date,
            estimated_hours := data.estimated_hours,
            tags := data.tags);
          var _, inserted := store.CreateTask(fields, response);
          call := CreateCall(fields);
          row := inserted;
        } else {
          call := NoCall;
        }
      }
      isModalOpen := false;
      editingTask := None;
    }
  }

  /** Saving while editing never creates, and creating needs a title: an
      empty title reaches no store operation. */
  lemma SaveDispatch(editing: Option<Task>, data: TaskPatch)
    ensures editing.Some? ==> SaveCall(editing, data).UpdateCall?
    ensures SaveCall(editing, data).CreateCall? ==> editing.None? && Truthy(data.title)
    ensures editing.None? && (data.title == None || data.title == Some("")) ==> SaveCall(editing, data) == NoCall
  {
  }
}
