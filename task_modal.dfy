/** The task create/edit modal (src/components/TaskModal.tsx): form state
    initialised from the task being edited, a duplicate-free tag list, and
    the conversion of the form into the `Partial<Task>` handed to `onSave`. */
module TaskModal {
  import opened Wrappers
  import opened Enums
  import opened Schema
  import opened Seqs
  import opened Text

  /** `formData`: every field is a string in the form, except the tags. */
  datatype ModalForm = ModalForm(
    title: string,
    description: string,
    status: Status,
    priority: Priority,
    assignee_id: string,
    due_date: string,
    estimated_hours: string,
    tags: seq<string>)

  const DefaultForm := ModalForm("", "", NotStarted, Medium, "", "", "", [])

  /** `s.split('T')[0]`: the text before the first `T`. */
  function DatePart(s: string): (r: string)
    ensures |r| <= |s| && r == s[..|r|]
    ensures 'T' !in r
    ensures |r| < |s| ==> s[|r|] == 'T'
  {
    if s == [] || s[0] == 'T' then [] else [s[0]] + DatePart(s[1..])
  }

  function OrEmpty(s: Option<string>): string {
    if Truthy(s) then s.value else ""
  }

  /** The form the effect fills in when the modal opens on `task` (or on no task). */
  function FormFor(task: Option<Task>): (f: ModalForm)
    ensures task.None? ==> f == DefaultForm
    ensures task.Some? ==>
      && f.title == task.value.title
      && f.status == task.value.status
      && f.priority == task.value.priority
      && (Truthy(task.value.description) ==> f.description == task.value.description.value)
      && (!Truthy(task.value.description) ==> f.description == "")
      && (Truthy(task.value.assignee_id) ==> f.assignee_id == task.value.assignee_id.value)
      && (!Truthy(task.value.assignee_id) ==> f.assignee_id == "")
      && (Truthy(task.value.due_date) ==> f.due_date == DatePart(task.value.due_date.value))
      && (!Truthy(task.value.due_date) ==> f.due_date == "")
      && f.tags == task.value.tags.GetOr([])
  {
    match task
    case None => DefaultForm
    case Some(t) =>
      ModalForm(
        title := t.title,
        description := OrEmpty(t.description),
        status := t.status,
        priority := t.priority,
        assignee_id := OrEmpty(t.assignee_id),
        due_date := if Truthy(t.due_date) then DatePart(t.due_date.value) else "",
        estimated_hours := OrEmpty(t.estimated_hours),
        tags := t.tags.GetOr([]))
  }

  /** The `taskData` `handleSubmit` builds; `dueIso` is the ISO text of the
      chosen day. Empty `assignee_id`, `due_date` and hours become absent. */
  function Payload(form: ModalForm, dueIso: string): (p: TaskPatch)
    ensures p.title == Some(form.title) && p.description == Some(form.description)
    ensures p.status == Some(form.status) && p.priority == Some(form.priority)
    ensures p.tags == Some(form.tags)
    ensures p.assignee_id.None? <==> form.assignee_id == ""
    ensures p.due_date.None? <==> form.due_date == ""
    ensures p.estimated_hours.None? <==> form.estimated_hours == ""
    ensures p.assignee_id.Some? ==> p.assignee_id.value == form.assignee_id
    ensures p.due_date.Some? ==> p.due_date.value == dueIso
  {
    TaskPatch(
      title := Some(form.title),
      description := Some(form.description),
      status := Some(form.status),
      priority := Some(form.priority),
      assignee_id := if form.assignee_id != "" then Some(form.assignee_id) else None,
      due_date := if form.due_date != "" then Some(dueIso) else None,
      estimated_hours := if form.estimated_hours != "" then Some(form.estimated_hours) else None,
      tags := Some(form.tags))
  }

  function IsNot(tag: string): string -> bool { (t: string) => t != tag }

  /** Whether `addTag` accepts the current input. */
  function AcceptsTag(tags: seq<string>, input: string): (b: bool)
    ensures b ==> !AllWhitespace(input) && Trim(input) !in tags
  {
    TrimEmptyIff(input);
    Trim(input) != "" && Trim(input) !in tags
  }

  class ModalState {
    var formData: ModalForm
    var tagInput: string
    var loading: bool

    constructor()
      ensures formData == DefaultForm && tagInput == "" && !loading
    {
      formData := DefaultForm;
      tagInput := "";
      loading := false;
    }

    /** The effect that runs when `task` or `isOpen` changes. */
    method Reset(task: Option<Task>)
      modifies this
      ensures formData == FormFor(task) && tagInput == "" && loading == old(loading)
    {
      formData := FormFor(task);
      tagInput := "";
    }

    method AddTag()
      modifies this
      ensures AcceptsTag(old(formData.tags), old(tagInput)) ==>
        formData == old(formData).(tags := old(formData.tags) + [Trim(old(tagInput))]) && tagInput == ""
      ensures !AcceptsTag(old(formData.tags), old(tagInput)) ==>
        formData == old(formData) && tagInput == old(tagInput)
      ensures loading == old(loading)
    {
      var tag := Trim(tagInput);
      if tag != "" && tag !in formData.tags {
        formData := formData.(tags := formData.tags + [tag]);
        tagInput := "";
      }
    }

    method RemoveTag(tag: string)
      modifies this
      ensures formData == old(formData).(tags := Filter(old(formData.tags), IsNot(tag)))
      ensures tagInput == old(tagInput) && loading == old(loading)
    {
      formData := formData.(tags := Filter(formData.tags, IsNot(tag)));
    }

    /** Submits the form. `dueIso` is the ISO conversion of the chosen day,
        None when `toISOString` throws on an invalid date; `saveThrows` is
        whether `onSave` rejects. `saved` is what `onSave` received and
        `closed` whether `onClose` ran. */
    method HandleSubmit(dueIso: Option<string>, saveThrows: bool) returns (saved: Option<TaskPatch>, closed: bool)
      modifies this
      ensures formData == old(formData) && tagInput == old(tagInput)
      ensures old(formData.due_date) != "" && dueIso.None? ==> saved == None
      ensures old(formData.due_date) == "" || dueIso.Some? ==> saved == Some(Payload(old(formData), dueIso.GetOr("")))
      ensures closed <==> saved.Some? && !saveThrows
      ensures !loading
    {
      loading := true;
      saved, closed := None, false;
      if formData.due_date == "" || dueIso.Some? {
        saved := Some(Payload(formData, dueIso.GetOr("")));
        if !saveThrows {
          closed := true;
        }
      }
      loading := false;
    }
  }

  /** An accepted tag keeps a duplicate-free list duplicate-free. */
  lemma AddTagKeepsNoDuplicates(tags: seq<string>, input: string)
    requires NoDuplicates(tags) && AcceptsTag(tags, input)
    ensures NoDuplicates(tags + [Trim(input)])
  {
    var r := tags + [Trim(input)];
    forall i, j | 0 <= i < j < |r| ensures r[i] != r[j] {
      if j == |tags| {
        assert r[i] == tags[i];
      }
    }
  }

  /** A blank input is refused, whatever the tags. */
  lemma BlankTagRefused(tags: seq<string>, input: string)
    requires AllWhitespace(input)
    ensures !AcceptsTag(tags, input)
  {
    TrimEmptyIff(input);
  }

  /** `removeTag` removes every copy of the tag and keeps the rest in order. */
  lemma {:induction false} RemoveTagExact(tags: seq<string>, tag: string, t: string)
    ensures t in Filter(tags, IsNot(tag)) <==> t in tags && t != tag
    ensures IsSubsequence(Filter(tags, IsNot(tag)), tags)
  {
    FilterMembership(tags, IsNot(tag), t);
    FilterIsSubsequence(tags, IsNot(tag));
  }

  /** Opening on a task and submitting sends back the task's own title,
      status, priority and assignee (an absent one stays absent); only an
      empty-string assignee is lost. */
  lemma {:induction false} EditRoundTrip(task: Task, dueIso: string)
    requires task.assignee_id != Some("")
    ensures Payload(FormFor(Some(task)), dueIso).title == Some(task.title)
    ensures Payload(FormFor(Some(task)), dueIso).status == Some(task.status)
    ensures Payload(FormFor(Some(task)), dueIso).priority == Some(task.priority)
    ensures Payload(FormFor(Some(task)), dueIso).assignee_id == task.assignee_id
    ensures Payload(FormFor(Some(task)), dueIso).tags == Some(task.tags.GetOr([]))
  {
  }

  /** A date-time keeps its date part; a date without a time is unchanged. */
  lemma {:induction false} DatePartOfDateTime(date: string, time: string)
    requires 'T' !in date
    ensures DatePart(date + "T" + time) == date
    ensures DatePart(date) == date
  {
    if date != [] {
      assert (date + "T" + time)[1..] == date[1..] + "T" + time;
      DatePartOfDateTime(date[1..], time);
    } else {
      assert (date + "T" + time)[0] == 'T';
    }
  }
}
