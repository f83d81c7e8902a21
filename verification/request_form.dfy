/** The form state machine shared by the e-mail recovery and IMSS weeks
    pages: `handleChange`, `handleSubmit` and the "start over" button of the
    success view, as pure transitions over the component's state. The two
    pages differ only in their initial form, which is a parameter here.

    The request in `handleSubmit` is asynchronous; here it is split into the
    part before the request (`BeginSubmit`) and the part after it
    (`FinishSubmit`), with the network outcome as an input. Overlapping
    submissions are not modelled. */
module RequestForm {
  import opened Text
  import opened FormFields

  datatype State = State(
    form: Fields,
    loading: bool,
    submitted: bool,
    submittedData: Option<Response>,
    errors: Errors)

  function Initial(init: Fields): State
  {
    State(init, false, false, None, map[])
  }

  /** `handleChange`: writes the field (upper-casing the CURP) and clears the
      errors as typing does; nothing else in the state moves. */
  function Change(s: State, name: string, value: string): (r: State)
    ensures r.form == ChangeField(s.form, name, value)
    ensures r.errors == ClearOnEdit(s.errors, name)
    ensures r.loading == s.loading && r.submitted == s.submitted
    ensures r.submittedData == s.submittedData
  {
    s.(form := ChangeField(s.form, name, value), errors := ClearOnEdit(s.errors, name))
  }

  /** `handleSubmit` up to the request: loading on, errors emptied. */
  function BeginSubmit(s: State): (r: State)
    ensures r.loading && r.errors == map[]
    ensures r.form == s.form && r.submitted == s.submitted && r.submittedData == s.submittedData
  {
    s.(loading := true, errors := map[])
  }

  /** `handleSubmit` after the request: success records the data and marks the
      form submitted; a failure with a detail makes it the only (general)
      error; loading is always switched off. */
  function FinishSubmit(s: State, o: Outcome): (r: State)
    ensures !r.loading && r.form == s.form
    ensures o.Success? ==> r.submitted && r.submittedData == Some(o.data) && r.errors == s.errors
    ensures o.Failure? ==> r.submitted == s.submitted && r.submittedData == s.submittedData
    ensures HasDetail(o) ==> r.errors == map[GeneralError := o.detail.value]
    ensures o.Failure? && !HasDetail(o) ==> r.errors == s.errors
  {
    match o
    case Success(data) => s.(submittedData := Some(data), submitted := true, loading := false)
    case Failure(detail) =>
      if HasDetail(o) then s.(errors := map[GeneralError := detail.value], loading := false)
      else s.(loading := false)
  }

  /** The whole of `handleSubmit`. It ends with loading off and the form as
      it was; the errors are then exactly `{general: detail}` after a failure
      with a detail and empty otherwise. */
  function Submit(s: State, o: Outcome): (r: State)
    ensures !r.loading && r.form == s.form
    ensures o.Success? ==> r.submitted && r.submittedData == Some(o.data)
    ensures o.Failure? ==> r.submitted == s.submitted && r.submittedData == s.submittedData
    ensures r.errors == if HasDetail(o) then map[GeneralError := o.detail.value] else map[]
  {
    FinishSubmit(BeginSubmit(s), o)
  }

  /** The "start over" button of the success view: the form goes back to
      the page's initial form and the success view closes; the errors and
      `loading` are not touched. */
  function Reset(init: Fields, s: State): (r: State)
    ensures r.form == init && !r.submitted && r.submittedData.None?
    ensures r.errors == s.errors && r.loading == s.loading
  {
    s.(submitted := false, submittedData := None, form := init)
  }

  /** `submitted && submittedData`: the success view renders instead of the
      form. */
  predicate SuccessView(s: State)
  {
    s.submitted && s.submittedData.Some? && HasBody(s.submittedData.value)
  }

  datatype Event = Edit(name: string, value: string) | Send(outcome: Outcome) | StartOver

  function Step(init: Fields, s: State, e: Event): State
  {
    match e
    case Edit(name, value) => Change(s, name, value)
    case Send(o) => Submit(s, o)
    case StartOver => Reset(init, s)
  }

  function Run(init: Fields, s: State, events: seq<Event>): State
    decreases |events|
  {
    if events == [] then s else Run(init, Step(init, s, events[0]), events[1..])
  }

  /** What holds between events: the CURP field is upper-case, nothing is
      loading, and the form is only ever submitted together with its data. */
  predicate Inv(s: State)
  {
    CurpIsUpper(s.form) && !s.loading && (s.submitted ==> s.submittedData.Some?)
  }

  lemma StepKeepsInv(init: Fields, s: State, e: Event)
    requires CurpIsUpper(init) && Inv(s)
    ensures Inv(Step(init, s, e))
  {
    if e.Edit? {
      ChangeKeepsCurpUpper(s.form, e.name, e.value);
    }
  }

  /** From a state satisfying the invariant, every sequence of events keeps it. */
  lemma {:induction false} RunKeepsInv(init: Fields, s: State, events: seq<Event>)
    requires CurpIsUpper(init) && Inv(s)
    ensures Inv(Run(init, s, events))
    decreases |events|
  {
    if events != [] {
      StepKeepsInv(init, s, events[0]);
      RunKeepsInv(init, Step(init, s, events[0]), events[1..]);
    }
  }

  /** A whole session on a page whose initial form has an upper-case CURP:
      whatever the user does, the CURP stays upper-case, loading is off
      between events, and a submitted form stays on screen without the
      success view only after a falsy response body. */
  lemma SessionKeepsInv(init: Fields, events: seq<Event>)
    requires CurpIsUpper(init)
    ensures var s := Run(init, Initial(init), events);
      && CurpIsUpper(s.form) && !s.loading
      && (s.submitted && !SuccessView(s) ==> s.submittedData == Some(EmptyBody))
  {
    RunKeepsInv(init, Initial(init), events);
    SuccessViewAfterSubmit(Run(init, Initial(init), events));
  }

  /** Between events a submitted form shows the success view exactly when
      the server did not answer with a falsy body. */
  lemma SuccessViewAfterSubmit(s: State)
    requires Inv(s)
    ensures s.submitted ==> (SuccessView(s) <==> s.submittedData != Some(EmptyBody))
  {
  }

  /** A success whose body is falsy marks the form submitted but leaves the
      form on screen; one with a body opens the success view. */
  lemma SuccessViewNeedsBody(s: State, data: Response)
    ensures Submit(s, Success(data)).submitted
    ensures SuccessView(Submit(s, Success(data))) <==> HasBody(data)
  {
  }

  /** Starting over after a successful submission gives back exactly the
      initial state. */
  lemma ResetAfterSuccess(init: Fields, s: State, data: Response)
    ensures Reset(init, Submit(s, Success(data))) == Initial(init)
  {
  }
}
