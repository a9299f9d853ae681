/** The kanban board (src/components/TaskBoard.tsx): four status columns,
    each showing the tasks of its status, a count badge and an empty
    placeholder. */
module TaskBoard {
  import opened Enums
  import opened Schema
  import opened Seqs
  import opened UseTasks

  /** `statusColumns`, in display order. */
  const StatusColumns: seq<Status> := [NotStarted, InProgress, AwaitingReview, Completed]

  datatype Column = Column(status: Status, caption: string, tasks: seq<Task>, badge: nat, showEmpty: bool)

  function ColumnFor(tasks: seq<Task>): Status -> Column {
    (s: Status) =>
      var ts := TasksByStatus(tasks, s);
      Column(s, StatusLabel(s), ts, |ts|, |ts| == 0)
  }

  /** What the board renders for `tasks`. */
  function Board(tasks: seq<Task>): (cols: seq<Column>)
    ensures |cols| == 4
    ensures forall i :: 0 <= i < 4 ==>
      && cols[i].status == StatusColumns[i]
      && cols[i].caption == StatusLabel(StatusColumns[i])
      && cols[i].tasks == TasksByStatus(tasks, StatusColumns[i])
      && cols[i].badge == |cols[i].tasks|
      && (cols[i].showEmpty <==> cols[i].badge == 0)
  {
    Map(StatusColumns, ColumnFor(tasks))
  }

  /** How often `y` occurs in one column, one task at a time. */
  lemma ColumnHeadCount(tasks: seq<Task>, status: Status, y: Task)
    requires tasks != []
    ensures multiset(TasksByStatus(tasks, status))[y]
            == (if tasks[0].status == status && tasks[0] == y then 1 else 0) + multiset(TasksByStatus(tasks[1..], status))[y]
  {
    FilterHeadMultiset(tasks, HasStatus(status));
  }

  /** How often `y` occurs in the four columns of `tasks`, one task at a time. */
  lemma {:induction false} ColumnCounts(tasks: seq<Task>, y: Task)
    ensures multiset(TasksByStatus(tasks, NotStarted))[y] + multiset(TasksByStatus(tasks, InProgress))[y]
          + multiset(TasksByStatus(tasks, AwaitingReview))[y] + multiset(TasksByStatus(tasks, Completed))[y]
          == multiset(tasks)[y]
  {
    if tasks != [] {
      ColumnCounts(tasks[1..], y);
      assert multiset(tasks)[y] == (if tasks[0] == y then 1 else 0) + multiset(tasks[1..])[y] by {
        assert tasks == [tasks[0]] + tasks[1..];
      }
      ColumnHeadCount(tasks, NotStarted, y);
      ColumnHeadCount(tasks, InProgress, y);
      ColumnHeadCount(tasks, AwaitingReview, y);
      ColumnHeadCount(tasks, Completed, y);
    } else {
      assert TasksByStatus(tasks, NotStarted) == TasksByStatus(tasks, InProgress) == [];
      assert TasksByStatus(tasks, AwaitingReview) == TasksByStatus(tasks, Completed) == [];
    }
  }

  /** The four status filters split any list: together they hold every
      task exactly as often as the list does. */
  lemma StatusFiltersPartition(tasks: seq<Task>)
    ensures multiset(TasksByStatus(tasks, NotStarted)) + multiset(TasksByStatus(tasks, InProgress))
          + multiset(TasksByStatus(tasks, AwaitingReview)) + multiset(TasksByStatus(tasks, Completed))
          == multiset(tasks)
  {
    forall y: Task {
      ColumnCounts(tasks, y);
    }
  }

  /** The column lengths sum to the number of tasks. */
  lemma StatusCountsSum(tasks: seq<Task>)
    ensures |TasksByStatus(tasks, NotStarted)| + |TasksByStatus(tasks, InProgress)|
          + |TasksByStatus(tasks, AwaitingReview)| + |TasksByStatus(tasks, Completed)|
          == |tasks|
  {
    StatusFiltersPartition(tasks);
    var a, b, c, d := TasksByStatus(tasks, NotStarted), TasksByStatus(tasks, InProgress),
                      TasksByStatus(tasks, AwaitingReview), TasksByStatus(tasks, Completed);
    assert |multiset(a) + multiset(b) + multiset(c) + multiset(d)| == |a| + |b| + |c| + |d|;
  }

  /** Every task sits in the column of its status and in no other; within
      a column the input order is kept; the badges add up to the total. */
  lemma {:induction false} BoardPartition(tasks: seq<Task>, t: Task, i: nat)
    requires i < 4
    ensures t in Board(tasks)[i].tasks <==> t in tasks && t.status == StatusColumns[i]
    ensures IsSubsequence(Board(tasks)[i].tasks, tasks)
    ensures Board(tasks)[0].badge + Board(tasks)[1].badge + Board(tasks)[2].badge + Board(tasks)[3].badge == |tasks|
  {
    FilterMembership(tasks, HasStatus(StatusColumns[i]), t);
    FilterIsSubsequence(tasks, HasStatus(StatusColumns[i]));
    StatusCountsSum(tasks);
  }

  /** Every status has its column. */
  lemma EveryStatusHasColumn(s: Status)
    ensures s in StatusColumns
  {
  }
}
