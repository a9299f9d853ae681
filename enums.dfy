/** The task status and priority enumerations. Both type families
    (src/lib/supabase.ts and src/types/task.ts) declare the same string
    unions, so they share these datatypes. */
module Enums {
  import opened Wrappers

  /** 未着手 (not started), 進行中 (in progress), レビュー待ち (awaiting
      review), 完了 (completed). */
  datatype Status = NotStarted | InProgress | AwaitingReview | Completed

  datatype Priority = Low | Medium | High | Urgent

  /** The string the source stores for a status. */
  function StatusLabel(s: Status): (text: string)
    ensures text in {"未着手", "進行中", "レビュー待ち", "完了"}
  {
    match s
    case NotStarted => "未着手"
    case InProgress => "進行中"
    case AwaitingReview => "レビュー待ち"
    case Completed => "完了"
  }

  /** The status a stored string names, if any. */
  function ParseStatus(text: string): (r: Option<Status>)
    ensures r.Some? ==> StatusLabel(r.value) == text
  {
    if text == "未着手" then Some(NotStarted)
    else if text == "進行中" then Some(InProgress)
    else if text == "レビュー待ち" then Some(AwaitingReview)
    else if text == "完了" then Some(Completed)
    else None
  }

  lemma ParseStatusLabel(s: Status)
    ensures ParseStatus(StatusLabel(s)) == Some(s)
  {
  }

  function PriorityLabel(p: Priority): (text: string)
    ensures text in {"low", "medium", "high", "urgent"}
  {
    match p
    case Low => "low"
    case Medium => "medium"
    case High => "high"
    case Urgent => "urgent"
  }

  /** Distinct statuses, and distinct priorities, are stored as distinct strings. */
  lemma LabelsInjective(s: Status, t: Status, p: Priority, q: Priority)
    ensures StatusLabel(s) == StatusLabel(t) ==> s == t
    ensures PriorityLabel(p) == PriorityLabel(q) ==> p == q
  {
  }
}
