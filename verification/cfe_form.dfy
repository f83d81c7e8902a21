/** The CFE (electricity bill reprint) page: three text fields and the
    first-request checkbox, whose value decides the donation the server
    charges. */
module CfeForm {
  import opened Text
  import opened FormFields
  import Server

  /** A form value: the text of a text input, or the `checked` flag of a
      checkbox. */
  datatype Value = Str(text: string) | Checked(on: bool)

  type Form = map<string, Value>

  datatype InputType = Checkbox | TextInput

  datatype State = State(form: Form, loading: bool, submitted: bool, submittedData: Option<Response>)

  const FirstTime := "is_first_time"
  const TextFields := {"service_number", "user_name", "phone"}

  const InitialForm: Form := map[
    "service_number" := Str(""),
    "user_name" := Str(""),
    "phone" := Str(""),
    FirstTime := Checked(true)
  ]

  const Initial := State(InitialForm, false, false, None)

  /** `handleChange`: a checkbox stores its `checked` flag, any other input its
      text; every other field keeps its value. */
  function Change(s: State, name: string, kind: InputType, value: string, checked: bool): (r: State)
    ensures r.form.Keys == s.form.Keys + {name}
    ensures kind == Checkbox ==> r.form[name] == Checked(checked)
    ensures kind == TextInput ==> r.form[name] == Str(value)
    ensures forall k :: k in s.form && k != name ==> r.form[k] == s.form[k]
    ensures r == s.(form := r.form)
  {
    s.(form := s.form[name := if kind == Checkbox then Checked(checked) else Str(value)])
  }

  /** The inputs the page renders: the three text inputs and the checkbox. */
  predicate Rendered(name: string, kind: InputType)
  {
    (name in TextFields && kind == TextInput) || (name == FirstTime && kind == Checkbox)
  }

  /** The text fields hold text and the checkbox field holds a flag. */
  predicate WellTyped(f: Form)
  {
    && (forall k :: k in TextFields ==> k in f && f[k].Str?)
    && FirstTime in f && f[FirstTime].Checked?
  }

  /** JavaScript truthiness of a stored value. */
  predicate Truthy(v: Value)
  {
    match v
    case Str(t) => t != ""
    case Checked(b) => b
  }

  /** `{!formData.is_first_time && ...}`: the note about the 20 MXN donation. */
  predicate ShowsSubsequentNote(s: State)
  {
    !(FirstTime in s.form && Truthy(s.form[FirstTime]))
  }

  /** The body the server parses from the posted form. */
  function Payload(f: Form): Server.CfeRequestCreate
    requires WellTyped(f)
  {
    Server.CfeRequestCreate(
      f["service_number"].text, f["user_name"].text, f["phone"].text, Some(f[FirstTime].on))
  }

  /** The 20 MXN note shows exactly when the server will ask for 20; in the
      initial (and reset) form the box is ticked, the note is hidden and the
      server asks for 10. */
  lemma NoteMatchesDonation(s: State, db: Server.Db, stamp: Server.Stamp)
    requires WellTyped(s.form)
    ensures ShowsSubsequentNote(s) <==>
      Server.CreateCfeRequest(db, Payload(s.form), stamp).reply.value.donationAmount == 20.0
    ensures WellTyped(InitialForm) && !ShowsSubsequentNote(Initial)
    ensures Server.CreateCfeRequest(db, Payload(InitialForm), stamp).reply.value.donationAmount == 10.0
  {
    assert InitialForm[FirstTime] == Checked(true);
  }

  /** `handleSubmit` up to the request: loading on, which also disables the
      submit button (`disabled={loading}`) until the request ends. */
  function BeginSubmit(s: State): (r: State)
    ensures r.loading && r.form == s.form
    ensures r.submitted == s.submitted && r.submittedData == s.submittedData
    ensures SubmitDisabled(r)
  {
    s.(loading := true)
  }

  /** `handleSubmit` after the request: success records the data and marks the
      form submitted; a failure only alerts; loading always ends off. */
  function FinishSubmit(s: State, o: Outcome): (r: State)
    ensures !r.loading && r.form == s.form
    ensures o.Success? ==> r.submitted && r.submittedData == Some(o.data)
    ensures o.Failure? ==> r == s.(loading := false)
  {
    match o
    case Success(data) => s.(submittedData := Some(data), submitted := true, loading := false)
    case Failure(_) => s.(loading := false)
  }

  /** The whole of `handleSubmit`: loading ends off (the button is enabled
      again) and the form is kept; success records the data and opens the
      success view when the body is truthy, a failure leaves the state as it
      was. */
  function Submit(s: State, o: Outcome): (r: State)
    ensures !r.loading && r.form == s.form
    ensures !SubmitDisabled(r)
    ensures o.Success? ==> r.submitted && r.submittedData == Some(o.data)
    ensures o.Success? ==> (SuccessView(r) <==> HasBody(o.data))
    ensures o.Failure? ==> r == s.(loading := false)
  {
    FinishSubmit(BeginSubmit(s), o)
  }

  /** "Nueva Solicitud": back to the initial form. */
  function Reset(s: State): (r: State)
    ensures !r.submitted && r.submittedData.None? && r.form == InitialForm
    ensures r.loading == s.loading
  {
    s.(submitted := false, submittedData := None, form := InitialForm)
  }

  /** After a successful request, "Nueva Solicitud" gives back exactly the
      initial state. */
  lemma ResetAfterSuccess(s: State, data: Response)
    ensures Reset(Submit(s, Success(data))) == Initial
  {
  }

  /** `submitted && submittedData`. */
  predicate SuccessView(s: State)
  {
    s.submitted && s.submittedData.Some? && HasBody(s.submittedData.value)
  }

  /** The submit button's `disabled={loading}`. */
  predicate SubmitDisabled(s: State)
  {
    s.loading
  }

  datatype Event =
    | Edit(name: string, kind: InputType, value: string, checked: bool)
    | Send(outcome: Outcome)
    | StartOver

  function Step(s: State, e: Event): State
  {
    match e
    case Edit(name, kind, value, checked) => Change(s, name, kind, value, checked)
    case Send(o) => Submit(s, o)
    case StartOver => Reset(s)
  }

  function Run(s: State, events: seq<Event>): State
    decreases |events|
  {
    if events == [] then s else Run(Step(s, events[0]), events[1..])
  }

  /** Events that come from the rendered inputs, with successful replies
      that are objects, as the server's `response_model=CFERequest`
      guarantees. */
  predicate FromPage(events: seq<Event>)
  {
    && (forall i :: 0 <= i < |events| && events[i].Edit? ==> Rendered(events[i].name, events[i].kind))
    && (forall i :: 0 <= i < |events| && events[i].Send? && events[i].outcome.Success? ==>
          HasBody(events[i].outcome.data))
  }

  /** What holds between events: the form is well typed, nothing is loading,
      and the success view shows exactly when the form has been submitted. */
  predicate Inv(s: State)
  {
    WellTyped(s.form) && !s.loading && (SuccessView(s) <==> s.submitted)
  }

  /** Edits from the rendered inputs keep the form well typed, and object
      replies keep the success view in step with the submitted flag,
      whatever the page does in between. */
  lemma {:induction false} RunKeepsInv(s: State, events: seq<Event>)
    requires Inv(s) && FromPage(events)
    ensures Inv(Run(s, events))
    decreases |events|
  {
    if events != [] {
      var e := events[0];
      var t := Step(s, e);
      assert WellTyped(t.form) by {
        if e.Edit? {
          assert Rendered(e.name, e.kind);
        } else if e.StartOver? {
          assert WellTyped(InitialForm);
        }
      }
      if e.Send? && e.outcome.Success? {
        assert HasBody(e.outcome.data);
      }
      assert FromPage(events[1..]) by {
        forall i | 0 <= i < |events[1..]|
          ensures events[1..][i] == events[i + 1]
        {
        }
      }
      RunKeepsInv(t, events[1..]);
    }
  }
}
