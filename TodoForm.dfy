/** The 'Add New Todo' form (src/components/TodoForm.tsx): a record of three fields that
    the inputs update one at a time, and a submit that validates and normalises it into
    the payload of a create request. */
module TodoForm {
  import opened Types
  import opened Text

  /** `formData`: the raw text of the two inputs and the chosen priority. */
  datatype FormData = FormData(title: string, description: string, priority: Priority)

  /** The record the form opens with: empty texts, priority 'medium'. */
  const InitialForm := FormData("", "", Medium)

  /** One onChange event: the input's name picks the field, its value the new content.
      The priority select offers only the three priorities. */
  datatype FieldChange =
    | TitleInput(title: string)
    | DescriptionInput(description: string)
    | PriorityInput(priority: Priority)

  /** `handleChange`: the named field takes the new value, the two others are kept. */
  function ApplyChange(f: FormData, change: FieldChange): (r: FormData)
    ensures change.TitleInput? ==>
              r.title == change.title && r.description == f.description && r.priority == f.priority
    ensures change.DescriptionInput? ==>
              r.description == change.description && r.title == f.title && r.priority == f.priority
    ensures change.PriorityInput? ==>
              r.priority == change.priority && r.title == f.title && r.description == f.description
  {
    match change
    case TitleInput(t) => f.(title := t)
    case DescriptionInput(d) => f.(description := d)
    case PriorityInput(p) => f.(priority := p)
  }

  /** A run of onChange events, oldest first. A run without a priority change keeps the
      priority, and when the last event is a title input, the title is what it typed. */
  function ApplyChanges(f: FormData, changes: seq<FieldChange>): (r: FormData)
    ensures (forall i :: 0 <= i < |changes| ==> !changes[i].PriorityInput?) ==> r.priority == f.priority
    ensures changes != [] && changes[|changes| - 1].TitleInput? ==>
              r.title == changes[|changes| - 1].title
    decreases |changes|
  {
    if changes == [] then f else ApplyChanges(ApplyChange(f, changes[0]), changes[1..])
  }

  /** The priority stays 'medium' until the priority select is changed. */
  lemma PriorityDefaultsToMedium(changes: seq<FieldChange>)
    requires forall i :: 0 <= i < |changes| ==> !changes[i].PriorityInput?
    ensures ApplyChanges(InitialForm, changes).priority == Medium
  {
  }

  /** An empty string after trimming is absent, anything else is present. */
  function OptionalText(trimmed: string): Option<string>
  {
    if trimmed == "" then None else Some(trimmed)
  }

  /** `handleSubmit`: a blank title sends nothing; otherwise the sent draft has the
      trimmed title, which is non-empty and neither starts nor ends with white space,
      the trimmed description or none when that is empty, and the chosen priority. */
  function Submit(f: FormData): (sent: Option<Draft>)
    ensures sent.None? <==> IsBlank(f.title)
    ensures sent.Some? ==>
              && sent.value.title == Trim(f.title)
              && sent.value.title != ""
              && !IsSpace(sent.value.title[0])
              && !IsSpace(sent.value.title[|sent.value.title| - 1])
    ensures sent.Some? ==>
              sent.value.description == (if IsBlank(f.description) then None else Some(Trim(f.description)))
    ensures sent.Some? ==> sent.value.priority == f.priority
  {
    if Trim(f.title) == "" then None
    else Some(Draft(Trim(f.title), OptionalText(Trim(f.description)), f.priority))
  }

  /** Submitting is a normalisation: typing a sent draft back into the form and
      submitting again sends the same draft. */
  lemma SubmitIsNormal(f: FormData)
    requires !IsBlank(f.title)
    ensures var d := Submit(f).value;
            Submit(FormData(d.title, if d.description.Some? then d.description.value else "", d.priority))
              == Some(d)
  {
    TrimIdempotent(f.title);
    TrimIdempotent(f.description);
  }

  /** The form component: its record, changed field by field. */
  class Form {
    var formData: FormData

    constructor ()
      ensures formData == InitialForm
    {
      formData := InitialForm;
    }

    /** `handleChange`: only the field the event names changes. */
    method HandleChange(change: FieldChange)
      modifies this
      ensures formData == ApplyChange(old(formData), change)
    {
      formData := ApplyChange(formData, change);
    }

    /** `handleSubmit`: what `onSubmit` is called with, if anything; the record is kept. */
    method HandleSubmit() returns (sent: Option<Draft>)
      ensures sent.None? <==> IsBlank(formData.title)
      ensures sent.Some? ==> sent.value == Submit(formData).value
    {
      sent := Submit(formData);
    }
  }
}
