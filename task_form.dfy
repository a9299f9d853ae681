/** The task form dialog (src/components/tasks/TaskForm.tsx): form state
    with resource-link and tag lists built from text inputs, removal by
    position, and a reset to the defaults on submit. */
module TaskForm {
  import opened Wrappers
  import opened Enums
  import opened AppTypes
  import opened Text

  /** `TaskFormData`; a `null` or `undefined` due date is None. */
  datatype TaskFormData = TaskFormData(
    title: string,
    description: string,
    status: Status,
    priority: Priority,
    assigneeId: string,
    dueDate: Option<Instant>,
    resourceLinks: seq<string>,
    tags: seq<string>)

  const DefaultFormData := TaskFormData("", "", NotStarted, Medium, "", None, [], [])

  /** The `useState` initialiser: each field of `editingTask`, or its
      default through `||`. */
  function InitialFormData(editing: Option<TaskFormData>): (r: TaskFormData)
    ensures r == editing.GetOr(DefaultFormData)
  {
    match editing
    case None => DefaultFormData
    case Some(e) =>
      TaskFormData(
        title := if e.title != "" then e.title else "",
        description := if e.description != "" then e.description else "",
        status := e.status,
        priority := e.priority,
        assigneeId := if e.assigneeId != "" then e.assigneeId else "",
        dueDate := if e.dueDate.Some? then e.dueDate else None,
        resourceLinks := e.resourceLinks,
        tags := e.tags)
  }

  /** `s.filter((_, i) => i !== index)`, with `from` the index of `s[0]`. */
  function WithoutIndexFrom<T>(s: seq<T>, index: int, from: int): (r: seq<T>)
    ensures |r| <= |s|
  {
    if s == [] then []
    else (if from != index then [s[0]] else []) + WithoutIndexFrom(s[1..], index, from + 1)
  }

  /** `s.filter((_, i) => i !== index)`: removing a position drops exactly
      that element and keeps the rest in order; any other index changes
      nothing. */
  function WithoutIndex<T>(s: seq<T>, index: int): (r: seq<T>)
    ensures 0 <= index < |s| ==> r == s[..index] + s[index + 1..] && |r| == |s| - 1
    ensures !(0 <= index < |s|) ==> r == s
  {
    WithoutIndexFromSlices(s, index, 0);
    WithoutIndexFrom(s, index, 0)
  }

  lemma {:induction false} WithoutIndexFromSlices<T>(s: seq<T>, index: int, from: int)
    ensures from <= index < from + |s| ==>
      WithoutIndexFrom(s, index, from) == s[..index - from] + s[index - from + 1..]
    ensures !(from <= index < from + |s|) ==> WithoutIndexFrom(s, index, from) == s
  {
    if s != [] {
      var tail := WithoutIndexFrom(s[1..], index, from + 1);
      WithoutIndexFromSlices(s[1..], index, from + 1);
      if from == index {
        assert tail == s[1..];
        assert s[..0] + s[1..] == s[1..];
      } else if from < index < from + |s| {
        var k := index - from;
        assert tail == s[1..][..k - 1] + s[1..][k..];
        assert s[..k] == [s[0]] + s[1..][..k - 1];
        assert s[k + 1..] == s[1..][k..];
      } else {
        assert tail == s[1..];
        assert [s[0]] + s[1..] == s;
      }
    }
  }

  class FormState {
    var formData: TaskFormData
    var newResourceLink: string
    var newTag: string

    constructor(editingTask: Option<TaskFormData>)
      ensures formData == InitialFormData(editingTask) && newResourceLink == "" && newTag == ""
    {
      formData := InitialFormData(editingTask);
      newResourceLink := "";
      newTag := "";
    }

    /** Hands the form data to `onSubmit`, then resets the form. */
    method HandleSubmit() returns (submitted: TaskFormData)
      modifies this
      ensures submitted == old(formData)
      ensures formData == DefaultFormData
      ensures newResourceLink == old(newResourceLink) && newTag == old(newTag)
    {
      submitted := formData;
      formData := DefaultFormData;
    }

    method AddResourceLink()
      modifies this
      ensures Trim(old(newResourceLink)) != "" ==>
        formData == old(formData).(resourceLinks := old(formData.resourceLinks) + [Trim(old(newResourceLink))])
        && newResourceLink == ""
      ensures Trim(old(newResourceLink)) == "" ==> formData == old(formData) && newResourceLink == old(newResourceLink)
      ensures newTag == old(newTag)
    {
      var link := Trim(newResourceLink);
      if link != "" {
        formData := formData.(resourceLinks := formData.resourceLinks + [link]);
        newResourceLink := "";
      }
    }

    method RemoveResourceLink(index: int)
      modifies this
      ensures formData == old(formData).(resourceLinks := WithoutIndex(old(formData.resourceLinks), index))
      ensures newResourceLink == old(newResourceLink) && newTag == old(newTag)
    {
      formData := formData.(resourceLinks := WithoutIndex(formData.resourceLinks, index));
    }

    /** Unlike the task modal, duplicates are accepted. */
    method AddTag()
      modifies this
      ensures Trim(old(newTag)) != "" ==>
        formData == old(formData).(tags := old(formData.tags) + [Trim(old(newTag))]) && newTag == ""
      ensures Trim(old(newTag)) == "" ==> formData == old(formData) && newTag == old(newTag)
      ensures newResourceLink == old(newResourceLink)
    {
      var tag := Trim(newTag);
      if tag != "" {
        formData := formData.(tags := formData.tags + [tag]);
        newTag := "";
      }
    }

    method RemoveTag(index: int)
      modifies this
      ensures formData == old(formData).(tags := WithoutIndex(old(formData.tags), index))
      ensures newResourceLink == old(newResourceLink) && newTag == old(newTag)
    {
      formData := formData.(tags := WithoutIndex(formData.tags, index));
    }
  }

  /** A tag already in the list is added again. */
  lemma DuplicateTagAccepted(tags: seq<string>, input: string)
    requires Trim(input) != "" && Trim(input) in tags
    ensures |tags + [Trim(input)]| == |tags| + 1
    ensures multiset(tags + [Trim(input)])[Trim(input)] >= 2
  {
    assert Trim(input) in multiset(tags);
  }
}
