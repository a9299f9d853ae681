/** The task table (src/components/tasks/TaskList.tsx): a local task list
    seeded with three sample tasks, a status/priority/assignee filter, an
    optional "my tasks" restriction, and the create, edit and delete
    handlers wired to the task form. */
module TaskList {
  import opened Wrappers
  import opened Enums
  import opened AppTypes
  import opened Seqs
  import opened TaskForm

  /** The user id the list treats as the signed-in user. */
  const MockCurrentUserId := "1"

  /** `mockTasks`; `loadedAt` is the `new Date()` of the module's load, used
      for the sample users' timestamps. The fixed dates are midnight UTC in
      milliseconds. */
  function MockTasks(loadedAt: Instant): seq<Task> {
    var tanaka := User("1", "田中太郎", "tanaka@example.com", None, Developer, [], loadedAt, loadedAt);
    var sato := User("2", "佐藤花子", "sato@example.com", None, Developer, [], loadedAt, loadedAt);
    var suzuki := User("3", "鈴木一郎", "suzuki@example.com", None, Manager, [], loadedAt, loadedAt);
    [ Task("1", "ユーザー認証機能の実装", "JWT を使用したユーザー認証システムを実装する",
           InProgress, High, "1", tanaka, "3", suzuki, Some(1757030400000),
           1755648000000, 1756512000000, Some(["https://jwt.io/introduction/"]), Some(["認証", "セキュリティ"])),
      Task("2", "API ドキュメントの作成", "REST API の詳細なドキュメントを Swagger で作成する",
           AwaitingReview, Medium, "2", sato, "3", suzuki, Some(1756857600000),
           1755475200000, 1756425600000, Some(["https://swagger.io/"]), Some(["ドキュメント", "API"])),
      Task("3", "データベース設計の見直し", "パフォーマンス向上のためのDB設計見直し",
           NotStarted, Low, "3", suzuki, "1", tanaka, Some(1757462400000),
           1756080000000, 1756080000000, None, Some(["データベース", "パフォーマンス"])) ]
  }

  // The conditions of the filter, one by one.

  predicate StatusAllowed(task: Task, filter: TaskFilter) {
    filter.status == None || filter.status == Some([]) || task.status in filter.status.value
  }

  predicate PriorityAllowed(task: Task, filter: TaskFilter) {
    filter.priority == None || filter.priority == Some([]) || task.priority in filter.priority.value
  }

  predicate AssigneeAllowed(task: Task, filter: TaskFilter) {
    filter.assigneeId == None || filter.assigneeId == Some("") || task.assigneeId == filter.assigneeId.value
  }

  /** The test `filteredTasks` applies to one task: an absent or empty
      status or priority list, and an absent or empty assignee, restrict
      nothing. The date range and tags of the filter are not consulted. */
  function Passes(task: Task, filter: TaskFilter, showMyTasks: bool): (b: bool)
    ensures b <==>
      && (showMyTasks ==> task.assigneeId == MockCurrentUserId)
      && StatusAllowed(task, filter)
      && PriorityAllowed(task, filter)
      && AssigneeAllowed(task, filter)
  {
    if showMyTasks && task.assigneeId != MockCurrentUserId then false
    else if filter.status.Some? && |filter.status.value| > 0 && task.status !in filter.status.value then false
    else if filter.priority.Some? && |filter.priority.value| > 0 && task.priority !in filter.priority.value then false
    else if Truthy(filter.assigneeId) && task.assigneeId != filter.assigneeId.value then false
    else true
  }

  function PassesFilter(filter: TaskFilter, showMyTasks: bool): Task -> bool {
    (t: Task) => Passes(t, filter, showMyTasks)
  }

  /** `filteredTasks`, the rows of the table. */
  function FilteredTasks(tasks: seq<Task>, filter: TaskFilter, showMyTasks: bool): (r: seq<Task>)
    ensures |r| <= |tasks|
    ensures forall i :: 0 <= i < |r| ==> Passes(r[i], filter, showMyTasks)
  {
    Filter(tasks, PassesFilter(filter, showMyTasks))
  }

  /** A task is listed iff it is in the list and meets every condition. */
  lemma {:induction false} FilteredTasksExact(tasks: seq<Task>, filter: TaskFilter, showMyTasks: bool, t: Task)
    ensures t in FilteredTasks(tasks, filter, showMyTasks) <==>
      && t in tasks
      && (showMyTasks ==> t.assigneeId == MockCurrentUserId)
      && StatusAllowed(t, filter)
      && PriorityAllowed(t, filter)
      && AssigneeAllowed(t, filter)
    ensures IsSubsequence(FilteredTasks(tasks, filter, showMyTasks), tasks)
  {
    FilterMembership(tasks, PassesFilter(filter, showMyTasks), t);
    FilterIsSubsequence(tasks, PassesFilter(filter, showMyTasks));
  }

  /** With nothing set and "my tasks" off, every task is listed, in order. */
  lemma {:induction false} ClearedFilterListsAll(tasks: seq<Task>)
    ensures FilteredTasks(tasks, EmptyFilter, false) == tasks
  {
    FilterKeepsAll(tasks, PassesFilter(EmptyFilter, false));
  }

  /** Setting the date range or the tags does not change the rows. */
  lemma {:induction false} FilterIgnoresDatesAndTags(tasks: seq<Task>, filter: TaskFilter, showMyTasks: bool,
                                                     range: Option<DateRange>, tags: Option<seq<string>>)
    ensures FilteredTasks(tasks, filter.(dueDateRange := range, tags := tags), showMyTasks)
         == FilteredTasks(tasks, filter, showMyTasks)
  {
    FilterExtensional(tasks, PassesFilter(filter.(dueDateRange := range, tags := tags), showMyTasks),
                      PassesFilter(filter, showMyTasks));
  }

  /** Filtering the rows again changes nothing. */
  lemma {:induction false} FilterStable(tasks: seq<Task>, filter: TaskFilter, showMyTasks: bool)
    ensures FilteredTasks(FilteredTasks(tasks, filter, showMyTasks), filter, showMyTasks)
         == FilteredTasks(tasks, filter, showMyTasks)
  {
    FilterIdempotent(tasks, PassesFilter(filter, showMyTasks));
  }

  /** Of the sample tasks, "my tasks" shows only the first. */
  lemma {:induction false} MyTasksOfSample(loadedAt: Instant)
    ensures FilteredTasks(MockTasks(loadedAt), EmptyFilter, true) == [MockTasks(loadedAt)[0]]
  {
    var m := MockTasks(loadedAt);
    var p := PassesFilter(EmptyFilter, true);
    assert m[1..][1..][1..] == [];
    assert Filter(m[1..][1..], p) == [];
    assert Filter(m[1..], p) == [];
  }

  /** The task `handleCreateTask` builds from the form's data, copying the
      sample head's assignee and creator whatever the chosen assignee. */
  function NewTask(data: TaskFormData, id: string, now: Instant, head: Task): (t: Task)
    ensures t.id == id && t.createdBy == MockCurrentUserId
    ensures t.assignee == head.assignee && t.creator == head.creator
    ensures t.createdAt == now && t.updatedAt == now
    ensures t.title == data.title && t.description == data.description
    ensures t.status == data.status && t.priority == data.priority
    ensures t.assigneeId == data.assigneeId && t.dueDate == data.dueDate
    ensures t.resourceLinks == Some(data.resourceLinks) && t.tags == Some(data.tags)
  {
    Task(
      id := id,
      title := data.title,
      description := data.description,
      status := data.status,
      priority := data.priority,
      assigneeId := data.assigneeId,
      assignee := head.assignee,
      createdBy := MockCurrentUserId,
      creator := head.creator,
      dueDate := data.dueDate,
      createdAt := now,
      updatedAt := now,
      resourceLinks := Some(data.resourceLinks),
      tags := Some(data.tags))
  }

  /** The form data `handleEditTask` hands to the form; missing lists become empty. */
  function EditFormData(task: Task): (f: TaskFormData)
    ensures f.resourceLinks == task.resourceLinks.GetOr([]) && f.tags == task.tags.GetOr([])
    ensures f.title == task.title && f.description == task.description
    ensures f.status == task.status && f.priority == task.priority
    ensures f.assigneeId == task.assigneeId && f.dueDate == task.dueDate
  {
    TaskFormData(task.title, task.description, task.status, task.priority, task.assigneeId,
                 task.dueDate, task.resourceLinks.GetOr([]), task.tags.GetOr([]))
  }

  function TaskIdIsNot(id: string): Task -> bool { (t: Task) => t.id != id }

  /** The tag chips of a row: the first two tags. */
  function VisibleTags(tags: Option<seq<string>>): (r: seq<string>)
    ensures |r| <= 2 && |r| <= |tags.GetOr([])| && r == tags.GetOr([])[..|r|]
    ensures |tags.GetOr([])| <= 2 ==> r == tags.GetOr([])
  {
    var ts := tags.GetOr([]);
    if |ts| <= 2 then ts else ts[..2]
  }

  /** The `+n` caption, shown when there are more than two tags. */
  function HiddenTagCount(tags: Option<seq<string>>): (r: Option<nat>)
    ensures r.Some? <==> |tags.GetOr([])| > 2
  {
    var n := |tags.GetOr([])|;
    if n > 2 then Some(n - 2) else None
  }

  /** The chips and the caption account for every tag. */
  lemma TagDisplayAccountsForAll(tags: Option<seq<string>>)
    ensures |VisibleTags(tags)| + HiddenTagCount(tags).GetOr(0) == |tags.GetOr([])|
    ensures HiddenTagCount(tags).Some? ==> VisibleTags(tags) + tags.value[2..] == tags.value
  {
  }

  class TaskListState {
    const showMyTasks: bool
    /** `mockTasks[0]`, whose assignee and creator new tasks copy. */
    const head: Task
    /** The `TaskForm` the list renders. It is mounted once, with the first
        render's `editingTask`, which is null. */
    const form: FormState
    var tasks: seq<Task>
    var filter: TaskFilter
    var showFilters: bool
    var formOpen: bool
    var editingTask: Option<TaskFormData>

    constructor(showMyTasks: bool, loadedAt: Instant)
      ensures this.showMyTasks == showMyTasks && head == MockTasks(loadedAt)[0]
      ensures tasks == MockTasks(loadedAt) && filter == EmptyFilter
      ensures !showFilters && !formOpen && editingTask == None
      ensures fresh(form) && form.formData == DefaultFormData
    {
      this.showMyTasks := showMyTasks;
      head := MockTasks(loadedAt)[0];
      form := new FormState(None);
      tasks := MockTasks(loadedAt);
      filter := EmptyFilter;
      showFilters := false;
      formOpen := false;
      editingTask := None;
    }

    /** The rows the table shows. */
    function Rows(): seq<Task>
      reads this
    {
      FilteredTasks(tasks, filter, showMyTasks)
    }

    /** The フィルター button. */
    method ToggleFilters()
      modifies this
      ensures showFilters == !old(showFilters)
      ensures tasks == old(tasks) && filter == old(filter) && formOpen == old(formOpen) && editingTask == old(editingTask)
    {
      showFilters := !showFilters;
    }

    /** The 新規作成 button; an edit left in `editingTask` is kept. */
    method OpenForm()
      modifies this
      ensures formOpen
      ensures tasks == old(tasks) && filter == old(filter) && showFilters == old(showFilters) && editingTask == old(editingTask)
    {
      formOpen := true;
    }

    method SetStatusFilter(statuses: seq<Status>)
      modifies this
      ensures filter == old(filter).(status := Some(statuses))
      ensures tasks == old(tasks) && showFilters == old(showFilters) && formOpen == old(formOpen) && editingTask == old(editingTask)
    {
      filter := filter.(status := Some(statuses));
    }

    method SetPriorityFilter(priorities: seq<Priority>)
      modifies this
      ensures filter == old(filter).(priority := Some(priorities))
      ensures tasks == old(tasks) && showFilters == old(showFilters) && formOpen == old(formOpen) && editingTask == old(editingTask)
    {
      filter := filter.(priority := Some(priorities));
    }

    /** The 担当者 select; its 全員 entry is the empty string. */
    method SetAssigneeFilter(assigneeId: string)
      modifies this
      ensures filter == old(filter).(assigneeId := Some(assigneeId))
      ensures tasks == old(tasks) && showFilters == old(showFilters) && formOpen == old(formOpen) && editingTask == old(editingTask)
    {
      filter := filter.(assigneeId := Some(assigneeId));
    }

    method ClearFilters()
      modifies this
      ensures filter == EmptyFilter
      ensures tasks == old(tasks) && showFilters == old(showFilters) && formOpen == old(formOpen) && editingTask == old(editingTask)
    {
      filter := EmptyFilter;
    }

    /** Appends the task built from `data`; `id` and `now` stand for
        `Date.now().toString()` and `new Date()`. */
    method HandleCreateTask(data: TaskFormData, id: string, now: Instant)
      modifies this
      ensures tasks == old(tasks) + [NewTask(data, id, now, head)]
      ensures filter == old(filter) && showFilters == old(showFilters) && formOpen == old(formOpen) && editingTask == old(editingTask)
    {
      tasks := tasks + [NewTask(data, id, now, head)];
    }

    /** Sets the list's `editingTask` and opens the dialog. The mounted
        form's data is not touched: the form does not show the task. */
    method HandleEditTask(task: Task)
      modifies this
      ensures editingTask == Some(EditFormData(task)) && formOpen
      ensures tasks == old(tasks) && filter == old(filter) && showFilters == old(showFilters)
      ensures form.formData == old(form.formData)
    {
      editingTask := Some(EditFormData(task));
      formOpen := true;
    }

    method HandleDeleteTask(id: string)
      modifies this
      ensures tasks == Filter(old(tasks), TaskIdIsNot(id))
      ensures filter == old(filter) && showFilters == old(showFilters) && formOpen == old(formOpen) && editingTask == old(editingTask)
    {
      tasks := Filter(tasks, TaskIdIsNot(id));
    }

    /** The form's `onClose`. */
    method CloseForm()
      modifies this
      ensures !formOpen && editingTask == None
      ensures tasks == old(tasks) && filter == old(filter) && showFilters == old(showFilters)
    {
      formOpen := false;
      editingTask := None;
    }

    /** The form's submit: its `onSubmit` is `handleCreateTask` whether or
        not a task is being edited, so whatever the form holds is appended
        as a new task and no task is replaced; then `onClose` runs and the
        form resets. */
    method SubmitForm(id: string, now: Instant) returns (submitted: TaskFormData)
      modifies this, form
      ensures submitted == old(form.formData)
      ensures tasks == old(tasks) + [NewTask(submitted, id, now, head)]
      ensures form.formData == DefaultFormData
      ensures !formOpen && editingTask == None
      ensures filter == old(filter) && showFilters == old(showFilters)
    {
      submitted := form.HandleSubmit();
      HandleCreateTask(submitted, id, now);
      CloseForm();
    }
  }

  /** Deleting removes every task with the id and keeps the others in order. */
  lemma {:induction false} DeleteRemovesExactly(tasks: seq<Task>, id: string, t: Task)
    ensures t in Filter(tasks, TaskIdIsNot(id)) <==> t in tasks && t.id != id
    ensures IsSubsequence(Filter(tasks, TaskIdIsNot(id)), tasks)
  {
    FilterMembership(tasks, TaskIdIsNot(id), t);
    FilterIsSubsequence(tasks, TaskIdIsNot(id));
  }
}
