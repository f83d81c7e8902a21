/** The tax-status (constancia fiscal) page: a three-field form whose submit
    is gated by the CURP check in the browser, with a single `curpError`
    message instead of an error map. */
module FiscalForm {
  import opened Text
  import opened FormFields
  import Curp
  import Server

  datatype State = State(form: Fields, loading: bool, submitted: bool, curpError: string)

  const InitialForm: Fields := map[CurpField := "", "user_name" := "", "phone" := ""]

  const Initial := State(InitialForm, false, false, "")

  const InvalidCurpMessage := "CURP inválida. Debe tener 18 caracteres y el formato correcto."
  const RejectedCurpMessage := "Formato de CURP inválido. Verifica que sea correcto."

  /** `handleChange`: the field is written (the CURP upper-cased); editing the
      CURP clears its error, editing anything else leaves the error alone. */
  function Change(s: State, name: string, value: string): (r: State)
    ensures r.form == ChangeField(s.form, name, value)
    ensures name == CurpField ==> r.curpError == ""
    ensures name != CurpField ==> r.curpError == s.curpError
    ensures r.loading == s.loading && r.submitted == s.submitted
  {
    var form := ChangeField(s.form, name, value);
    if name == CurpField then s.(form := form, curpError := "") else s.(form := form)
  }

  /** Where `handleSubmit` stands before any request: either it stopped at the
      CURP check, or it sent the form data. */
  datatype Begun = Blocked(state: State) | Sent(state: State, payload: Fields)

  /** `handleSubmit` up to the request. An invalid CURP sets a non-empty error
      and returns without touching `loading` and without sending anything;
      a valid one turns loading on, clears the error and sends the form. */
  function BeginSubmit(s: State): (b: Begun)
    ensures b.Blocked? <==> !Curp.ValidateCurp(Get(s.form, CurpField))
    ensures b.Blocked? ==> b.state == s.(curpError := InvalidCurpMessage) && b.state.curpError != ""
    ensures b.Sent? ==> b.payload == s.form && b.state == s.(loading := true, curpError := "")
  {
    if !Curp.ValidateCurp(Get(s.form, CurpField)) then Blocked(s.(curpError := InvalidCurpMessage))
    else Sent(s.(loading := true, curpError := ""), s.form)
  }

  /** The server's rejection names the CURP format. */
  predicate CurpFormatFailure(o: Outcome)
  {
    o.Failure? && o.detail.Some? && Contains(o.detail.value, "CURP format")
  }

  /** `handleSubmit` after the request: success marks the form submitted; a
      failure whose detail mentions the CURP format sets the error, any other
      failure leaves it; loading always ends off. */
  function FinishSubmit(s: State, o: Outcome): (r: State)
    ensures !r.loading && r.form == s.form
    ensures o.Success? ==> r.submitted && r.curpError == s.curpError
    ensures o.Failure? ==> r.submitted == s.submitted
    ensures CurpFormatFailure(o) ==> r.curpError == RejectedCurpMessage
    ensures !CurpFormatFailure(o) ==> r.curpError == s.curpError
  {
    if o.Success? then s.(submitted := true, loading := false)
    else if CurpFormatFailure(o) then s.(curpError := RejectedCurpMessage, loading := false)
    else s.(loading := false)
  }

  /** The whole of `handleSubmit` with the outcome of the request, if one is
      sent. After a sent request the CURP error is set exactly when the
      server's detail names the CURP format. */
  function Submit(s: State, o: Outcome): (r: State)
    ensures !Curp.ValidateCurp(Get(s.form, CurpField)) ==> r == s.(curpError := InvalidCurpMessage)
    ensures Curp.ValidateCurp(Get(s.form, CurpField)) ==>
      && !r.loading && r.form == s.form
      && (r.submitted <==> o.Success? || s.submitted)
      && (r.curpError != "" <==> CurpFormatFailure(o))
  {
    match BeginSubmit(s)
    case Blocked(t) => t
    case Sent(t, _) => FinishSubmit(t, o)
  }

  /** The submit button is disabled while loading or while the CURP is empty. */
  predicate SubmitDisabled(s: State)
  {
    s.loading || Get(s.form, CurpField) == ""
  }

  /** The button's rule and the handler's check: an empty CURP both disables
      the button and fails the check, and once a request is sent the button
      stays disabled until it ends. */
  lemma SubmitGates(s: State)
    ensures Get(s.form, CurpField) == "" ==> SubmitDisabled(s) && BeginSubmit(s).Blocked?
    ensures BeginSubmit(s).Sent? ==> SubmitDisabled(BeginSubmit(s).state)
    ensures !SubmitDisabled(s) ==> Get(s.form, CurpField) != ""
  {
  }

  /** The request body the server parses out of the sent form data. */
  function Payload(f: Fields): Server.FiscalRequestCreate
  {
    Server.FiscalRequestCreate(Get(f, CurpField), Get(f, "user_name"), Get(f, "phone"))
  }

  /** Whatever the browser sends, the server accepts (as written and as
      corrected), storing the CURP as typed; and for a CURP without a
      trailing newline, whatever the browser holds back the server would have
      rejected. */
  lemma BrowserAndServerAgree(s: State, db: Server.Db, stamp: Server.Stamp)
    ensures BeginSubmit(s).Sent? ==>
      && Server.CreateFiscalRequest(db, Payload(s.form), stamp).reply.Ok?
      && Server.CreateFiscalRequestAsWritten(db, Payload(s.form), stamp).reply.Ok?
    ensures BeginSubmit(s).Sent? && CurpIsUpper(s.form) ==>
      Server.CreateFiscalRequest(db, Payload(s.form), stamp).reply.value.curp == s.form[CurpField]
    ensures var c := Get(s.form, CurpField);
      BeginSubmit(s).Blocked? && (c == [] || c[|c| - 1] != '\n') ==>
        Server.CreateFiscalRequestAsWritten(db, Payload(s.form), stamp).reply.Err?
  {
    Curp.ClientServerAgree(Get(s.form, CurpField));
    if CurpIsUpper(s.form) {
      UpperFixedPoints(s.form[CurpField]);
    }
  }

  /** "Nueva Consulta": back to the form with all three fields empty. */
  function NewQuery(s: State): (r: State)
    ensures !r.submitted
    ensures r.form.Keys == {CurpField, "user_name", "phone"}
    ensures forall k :: k in r.form ==> r.form[k] == ""
    ensures r.loading == s.loading && r.curpError == s.curpError
  {
    s.(submitted := false, form := InitialForm)
  }

  /** After a successful request, "Nueva Consulta" gives back exactly the
      initial state. */
  lemma NewQueryAfterSuccess(s: State, data: Response)
    requires Curp.ValidateCurp(Get(s.form, CurpField))
    ensures NewQuery(Submit(s, Success(data))) == Initial
  {
  }

  datatype Event = Edit(name: string, value: string) | Send(outcome: Outcome) | StartOver

  function Step(s: State, e: Event): State
  {
    match e
    case Edit(name, value) => Change(s, name, value)
    case Send(o) => Submit(s, o)
    case StartOver => NewQuery(s)
  }

  function Run(s: State, events: seq<Event>): State
    decreases |events|
  {
    if events == [] then s else Run(Step(s, events[0]), events[1..])
  }

  /** Whatever the user does, the CURP field stays present and upper-case and
      loading is off between events. */
  lemma {:induction false} RunKeepsCurpUpper(s: State, events: seq<Event>)
    requires CurpIsUpper(s.form) && !s.loading
    ensures CurpIsUpper(Run(s, events).form) && !Run(s, events).loading
    decreases |events|
  {
    if events != [] {
      var e := events[0];
      if e.Edit? {
        ChangeKeepsCurpUpper(s.form, e.name, e.value);
      }
      assert CurpIsUpper(InitialForm);
      RunKeepsCurpUpper(Step(s, e), events[1..]);
    }
  }
}
