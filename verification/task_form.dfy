/** The create/edit task form: its initial fields and the ordered chain of
    checks its submit handler runs before handing a payload to `onSubmit`. */
module TaskForm {
  import opened Wrappers
  import opened JsText

  /** The task an edit form is opened on. */
  datatype FormTask = FormTask(id: nat, title: string, description: Option<string>)

  /** The form's state: the two input buffers and the error banner ("" = none). */
  datatype Fields = Fields(title: string, description: string, error: string)

  /** What `onSubmit` receives; an empty description is sent as absent. */
  datatype Payload = Payload(title: string, description: Option<string>)

  datatype Verdict = Rejected(message: string) | Accepted(payload: Payload)

  const MaxTitleLength: nat := 200
  const MaxDescriptionLength: nat := 1000

  const TitleRequired: string := "Title is required"
  const TitleLengthMessage: string := "Title must be between 1 and 200 characters"
  const DescriptionLengthMessage: string := "Description must be less than 1000 characters"

  /** The fields the form opens with: the task's title and description, with
      an empty string standing in for a missing task or description. */
  function Initial(task: Option<FormTask>): (f: Fields)
    ensures f.error == ""
    ensures task.None? ==> f.title == "" && f.description == ""
    ensures task.Some? ==> f.title == task.value.title
    ensures task.Some? && task.value.description.Some? ==> f.description == task.value.description.value
    ensures task.Some? && task.value.description.None? ==> f.description == ""
  {
    match task
    case None => Fields("", "", "")
    case Some(t) => Fields(Or(t.title, ""), OrElse(t.description, ""), "")
  }

  /** When the form accepts its input, stated independently of the order of
      the checks: a title that is not blank and at most 200 UTF-16 code units,
      and a description of at most 1000 code units. */
  predicate Acceptable(title: string, description: string) {
    && !IsBlank(title)
    && Utf16Length(title) <= MaxTitleLength
    && Utf16Length(description) <= MaxDescriptionLength
  }

  /** The submit handler's checks, in source order; the first that fails
      decides the single message shown. */
  function Validate(title: string, description: string): (v: Verdict)
    ensures v.Accepted? <==> Acceptable(title, description)
    ensures IsBlank(title) ==> v == Rejected(TitleRequired)
    ensures !IsBlank(title) && Utf16Length(title) > MaxTitleLength ==> v == Rejected(TitleLengthMessage)
    ensures !IsBlank(title) && Utf16Length(title) <= MaxTitleLength && Utf16Length(description) > MaxDescriptionLength
      ==> v == Rejected(DescriptionLengthMessage)
    ensures v.Accepted? ==> v.payload.title == title
    ensures v.Accepted? ==> (v.payload.description.None? <==> description == "")
    ensures v.Accepted? && description != "" ==> v.payload.description == Some(description)
  {
    if !Truthy(Trim(title)) then
      Rejected(TitleRequired)
    else if Utf16Length(title) < 1 || Utf16Length(title) > MaxTitleLength then
      Rejected(TitleLengthMessage)
    else if Truthy(description) && Utf16Length(description) > MaxDescriptionLength then
      Rejected(DescriptionLengthMessage)
    else
      Accepted(Payload(title, if Truthy(description) then Some(description) else None))
  }

  /** The `title.length < 1` half of the length check can never fire: a title
      that survives the blank check has at least one code unit. */
  lemma ShortTitleBranchUnreachable(title: string)
    requires Trim(title) != []
    ensures Utf16Length(title) >= 1
  {
  }

  /** Exactly 1000 code units of description is still accepted, whatever the
      wording of the message suggests. */
  lemma DescriptionBoundaryAccepted(title: string, description: string)
    requires !IsBlank(title) && Utf16Length(title) <= MaxTitleLength
    requires Utf16Length(description) == MaxDescriptionLength
    ensures Validate(title, description) == Accepted(Payload(title, Some(description)))
  {
  }

  /** Submitting the form: on rejection the message is shown and nothing is
      handed on; on acceptance `onSubmit` receives the payload (the title
      untrimmed) and the banner is cleared. The buffers never change. */
  function Submit(f: Fields): (r: (Fields, Option<Payload>))
    ensures r.0.title == f.title && r.0.description == f.description
    ensures r.1.Some? <==> Acceptable(f.title, f.description)
    ensures r.1.Some? ==> r.0.error == "" && r.1.value.title == f.title
    ensures r.1.Some? ==> (r.1.value.description.None? <==> f.description == "")
    ensures r.1.Some? && f.description != "" ==> r.1.value.description == Some(f.description)
    ensures r.1.None? ==> r.0.error in {TitleRequired, TitleLengthMessage, DescriptionLengthMessage}
    ensures r.1.None? ==> Validate(f.title, f.description) == Rejected(r.0.error)
  {
    match Validate(f.title, f.description)
    case Rejected(message) => (f.(error := message), None)
    case Accepted(payload) => (f.(error := ""), Some(payload))
  }
}
