/** The CFDI (electronic invoice) verification page: a text area, a verify
    button gated on non-blank content, and a clear button. */
module CfdiForm {
  import opened Text
  import opened FormFields
  import Server

  datatype State = State(xmlContent: string, result: Option<Response>, loading: bool)

  const Initial := State("", None, false)

  /** The text area's `onChange`: the content becomes what was typed; the
      result and `loading` stay. */
  function Edit(s: State, value: string): (r: State)
    ensures r.xmlContent == value && r.result == s.result && r.loading == s.loading
  {
    s.(xmlContent := value)
  }

  /** Where `handleVerification` stands before any request: stopped at the
      blank-content alert, or sent the content. */
  datatype Begun = Blocked(state: State) | Sent(state: State, payload: string)

  /** `handleVerification` up to the request: content that is blank after
      trimming only raises an alert (the state, `loading` included, is left
      as it was); other content turns loading on and is sent as typed. */
  function BeginVerify(s: State): (b: Begun)
    ensures b.Blocked? <==> AllSpace(EcmaScript, s.xmlContent)
    ensures b.Blocked? ==> b.state == s
    ensures b.Sent? ==> b.state == s.(loading := true) && b.payload == s.xmlContent
  {
    if Trim(EcmaScript, s.xmlContent) == [] then Blocked(s)
    else Sent(s.(loading := true), s.xmlContent)
  }

  /** `handleVerification` after the request: success shows the result; a
      failure only alerts, so an earlier result stays on screen; loading
      always ends off. */
  function FinishVerify(s: State, o: Outcome): (r: State)
    ensures !r.loading && r.xmlContent == s.xmlContent
    ensures o.Success? ==> r.result == Some(o.data)
    ensures o.Failure? ==> r.result == s.result
  {
    match o
    case Success(data) => s.(result := Some(data), loading := false)
    case Failure(_) => s.(loading := false)
  }

  /** The whole of `handleVerification`: blank content leaves the state as it
      was; other content ends with loading off, the content kept, and the
      result replaced on success and kept on failure. */
  function Verify(s: State, o: Outcome): (r: State)
    ensures AllSpace(EcmaScript, s.xmlContent) ==> r == s
    ensures !AllSpace(EcmaScript, s.xmlContent) ==>
      && !r.loading && r.xmlContent == s.xmlContent
      && (o.Success? ==> r.result == Some(o.data))
      && (o.Failure? ==> r.result == s.result)
  {
    match BeginVerify(s)
    case Blocked(t) => t
    case Sent(t, _) => FinishVerify(t, o)
  }

  /** `clearVerification`: empty content, no result. */
  function Clear(s: State): (r: State)
    ensures r.xmlContent == "" && r.result.None? && r.loading == s.loading
  {
    s.(xmlContent := "", result := None)
  }

  /** The verify button is disabled while loading or while the content is
      blank after trimming. */
  predicate VerifyDisabled(s: State)
  {
    s.loading || Trim(EcmaScript, s.xmlContent) == ""
  }

  /** The "Limpiar" button shows whenever there is any content at all. */
  predicate ClearShown(s: State)
  {
    s.xmlContent != ""
  }

  /** When nothing is loading, the button is disabled exactly when the handler
      would stop at the alert; clearing hides the clear button and disables
      verification. */
  lemma ButtonMatchesHandler(s: State)
    ensures !s.loading ==> (VerifyDisabled(s) <==> BeginVerify(s).Blocked?)
    ensures !ClearShown(Clear(s)) && VerifyDisabled(Clear(s))
  {
  }

  /** Whitespace-only content shows the clear button while verification stays
      disabled. */
  lemma BlankContentClearable(s: State)
    requires s.xmlContent != [] && AllSpace(EcmaScript, s.xmlContent)
    ensures ClearShown(s) && VerifyDisabled(s) && BeginVerify(s).Blocked?
  {
  }

  /** Every content the server's `<?xml` gate accepts passes the browser's
      non-blank gate: the browser's gate is the weaker one. */
  lemma ServerGateImpliesBrowserGate(xml: string)
    requires Server.LooksLikeXml(xml)
    ensures !AllSpace(EcmaScript, xml)
    ensures BeginVerify(State(xml, None, false)).Sent?
  {
    assert !IsSpace(EcmaScript, Server.XmlDeclaration[0]);
    TrimmedPrefixNotBlank(Python, EcmaScript, xml, Server.XmlDeclaration);
  }

  /** ... and strictly weaker: any non-blank content shorter than `<?xml`
      (a single letter, say) gets past the browser and is rejected by the
      server. */
  lemma BrowserGateIsWeaker(db: Server.Db, xml: string, ip: string, stamp: Server.Stamp)
    requires !AllSpace(EcmaScript, xml) && |xml| < |Server.XmlDeclaration|
    ensures BeginVerify(State(xml, None, false)).Sent?
    ensures Server.VerifyCfdi(db, xml, ip, stamp).reply.Err?
    ensures Server.VerifyCfdi(db, xml, ip, stamp).db == db
  {
    assert |Trim(Python, xml)| < |Server.XmlDeclaration|;
  }
}
