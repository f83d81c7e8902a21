/** The API server's request rules. The database is an immutable value with
    one sequence of documents per collection; every handler takes the database
    and returns the database after the request together with its reply, so
    that "nothing else changes" can be stated directly. The document id
    (`uuid4`) and the creation time (`utcnow`) are inputs. */
module Server {
  import opened Text
  import Curp

  const Pending := "pending"
  const Verified := "verified"

  /** The id and timestamp the server generates for a new document. */
  datatype Stamp = Stamp(id: string, timestamp: string)

  /** CFE (electricity bill reprint) request body; `isFirstTime` is `None`
      when the client omits the field. */
  datatype CfeRequestCreate = CfeRequestCreate(
    serviceNumber: string, userName: string, phone: string, isFirstTime: Option<bool>)

  datatype CfeRequest = CfeRequest(
    id: string, serviceNumber: string, userName: string, phone: string,
    donationAmount: real, isFirstTime: bool, status: string, timestamp: string)

  datatype CertificateRequestCreate = CertificateRequestCreate(
    userName: string, phone: string, certificateType: string)

  datatype CertificateRequest = CertificateRequest(
    id: string, userName: string, phone: string, certificateType: string,
    donationPaid: bool, donationAmount: real, timestamp: string)

  /** Tax-status (constancia fiscal) request body. */
  datatype FiscalRequestCreate = FiscalRequestCreate(curp: string, userName: string, phone: string)

  datatype FiscalRequest = FiscalRequest(
    id: string, curp: string, userName: string, phone: string, status: string, timestamp: string)

  /** A stored invoice (CFDI) verification; the simulated verification result
      is not part of this model. */
  datatype CfdiVerification = CfdiVerification(
    id: string, xmlContent: string, userIp: string, timestamp: string)

  datatype ContactMessageCreate = ContactMessageCreate(
    name: string, email: string, phone: string, message: string)

  datatype ContactMessage = ContactMessage(
    id: string, name: string, email: string, phone: string, message: string, timestamp: string)

  datatype Db = Db(
    cfe: seq<CfeRequest>,
    certificates: seq<CertificateRequest>,
    fiscal: seq<FiscalRequest>,
    cfdi: seq<CfdiVerification>,
    contacts: seq<ContactMessage>)

  datatype HttpError = HttpError(status: nat, detail: string)

  datatype Reply<T> = Ok(value: T) | Err(error: HttpError)

  /** The database after a request, and the reply sent back. */
  datatype Handled<T> = Handled(db: Db, reply: Reply<T>)

  // ---------------------------------------------------------------- CFE

  /** POST /api/cfe/request. The donation is 10 for a first request and 20
      otherwise, the flag defaults to a first request, and the new document
      starts out pending and is appended to the CFE collection alone. */
  function CreateCfeRequest(db: Db, req: CfeRequestCreate, stamp: Stamp): (h: Handled<CfeRequest>)
    ensures h.reply.Ok?
    ensures h.db == db.(cfe := db.cfe + [h.reply.value])
    ensures h.reply.value.id == stamp.id && h.reply.value.timestamp == stamp.timestamp
    ensures h.reply.value.serviceNumber == req.serviceNumber
    ensures h.reply.value.userName == req.userName && h.reply.value.phone == req.phone
    ensures h.reply.value.status == Pending
    ensures h.reply.value.donationAmount == 10.0 || h.reply.value.donationAmount == 20.0
    ensures h.reply.value.donationAmount == 10.0 <==> h.reply.value.isFirstTime
    ensures req.isFirstTime.None? ==> h.reply.value.isFirstTime
    ensures req.isFirstTime.Some? ==> h.reply.value.isFirstTime == req.isFirstTime.value
  {
    var firstTime := match req.isFirstTime case None => true case Some(b) => b;
    var donation := if firstTime then 10.0 else 20.0;
    var rec := CfeRequest(stamp.id, req.serviceNumber, req.userName, req.phone,
                          donation, firstTime, Pending, stamp.timestamp);
    Handled(db.(cfe := db.cfe + [rec]), Ok(rec))
  }

  /** The index of the first CFE document with the given id, as the
      database's `update_one` picks it. */
  function FindCfe(docs: seq<CfeRequest>, id: string): (k: Option<nat>)
    ensures k.None? <==> forall j :: 0 <= j < |docs| ==> docs[j].id != id
    ensures k.Some? ==> k.value < |docs| && docs[k.value].id == id
    ensures k.Some? ==> forall j :: 0 <= j < k.value ==> docs[j].id != id
  {
    if docs == [] then None
    else if docs[0].id == id then Some(0)
    else match FindCfe(docs[1..], id)
      case None => None
      case Some(k) => Some(k + 1)
  }

  predicate HasCfe(db: Db, id: string)
  {
    exists j :: 0 <= j < |db.cfe| && db.cfe[j].id == id
  }

  /** PUT /api/cfe/request/{id}/verify. An unknown id is a 404 that changes
      nothing; a known id sets the status of the first document with that id
      (the one `update_one` matches) to verified and leaves every other
      document, later ones with the same id included, and every other field,
      as it was. */
  function VerifyCfeRequest(db: Db, id: string): (h: Handled<string>)
    ensures h.reply.Ok? <==> HasCfe(db, id)
    ensures h.reply.Err? ==> h.db == db && h.reply.error == HttpError(404, "Request not found")
    ensures h.reply.Ok? ==> h.reply.value == "Request verified successfully"
    ensures h.db == db.(cfe := h.db.cfe)
    ensures |h.db.cfe| == |db.cfe|
    ensures forall j :: 0 <= j < |db.cfe| ==>
      h.db.cfe[j] == db.cfe[j] || (db.cfe[j].id == id && h.db.cfe[j] == db.cfe[j].(status := Verified))
    ensures h.reply.Ok? ==>
      exists j :: 0 <= j < |h.db.cfe| && h.db.cfe[j].id == id && h.db.cfe[j].status == Verified
    ensures h.reply.Ok? ==>
      && FindCfe(db.cfe, id).Some?
      && forall j :: 0 <= j < |db.cfe| ==>
        h.db.cfe[j] == (if Some(j) == FindCfe(db.cfe, id) then db.cfe[j].(status := Verified) else db.cfe[j])
  {
    match FindCfe(db.cfe, id)
    case None => Handled(db, Err(HttpError(404, "Request not found")))
    case Some(k) =>
      var docs := db.cfe[k := db.cfe[k].(status := Verified)];
      assert docs[k].id == id && docs[k].status == Verified;
      Handled(db.(cfe := docs), Ok("Request verified successfully"))
  }

  /** Document ids are distinct (each is a newly generated uuid4). */
  predicate UniqueIds(docs: seq<CfeRequest>)
  {
    forall i, j :: 0 <= i < j < |docs| ==> docs[i].id != docs[j].id
  }

  /** With distinct ids, verifying marks exactly the document with that id. */
  lemma VerifyMarksExactlyOne(db: Db, id: string)
    requires UniqueIds(db.cfe)
    ensures var h := VerifyCfeRequest(db, id);
      forall j :: 0 <= j < |db.cfe| ==>
        h.db.cfe[j] == (if db.cfe[j].id == id then db.cfe[j].(status := Verified) else db.cfe[j])
    ensures UniqueIds(VerifyCfeRequest(db, id).db.cfe)
  {
    var h := VerifyCfeRequest(db, id);
    match FindCfe(db.cfe, id)
    case None =>
    case Some(k) =>
      forall j | 0 <= j < |db.cfe|
        ensures h.db.cfe[j] == (if db.cfe[j].id == id then db.cfe[j].(status := Verified) else db.cfe[j])
      {
        if j != k {
          assert db.cfe[j].id != id by {
            if j < k { assert db.cfe[j].id != db.cfe[k].id; }
            else { assert db.cfe[k].id != db.cfe[j].id; }
          }
        }
      }
  }

  /** Verifying the same id twice has the effect of verifying it once. */
  lemma VerifyIdempotent(db: Db, id: string)
    ensures var once := VerifyCfeRequest(db, id);
      VerifyCfeRequest(once.db, id) == once
  {
    var once := VerifyCfeRequest(db, id);
    match FindCfe(db.cfe, id)
    case None =>
    case Some(k) =>
      assert forall j :: 0 <= j < |db.cfe| ==> once.db.cfe[j].id == db.cfe[j].id;
      assert FindCfe(once.db.cfe, id) == Some(k) by {
        var k' := FindCfe(once.db.cfe, id);
        assert k'.Some?;
        assert k'.value == k;
      }
      assert once.db.cfe[k := once.db.cfe[k].(status := Verified)] == once.db.cfe;
  }

  // ---------------------------------------------------------------- certificates

  /** POST /api/certificates/request: a new unpaid request with the default
      80.0 donation, appended to the certificate collection alone. */
  function CreateCertificateRequest(db: Db, req: CertificateRequestCreate, stamp: Stamp)
    : (h: Handled<CertificateRequest>)
    ensures h.reply.Ok? && h.db == db.(certificates := db.certificates + [h.reply.value])
    ensures h.reply.value.id == stamp.id && h.reply.value.timestamp == stamp.timestamp
    ensures h.reply.value.userName == req.userName && h.reply.value.phone == req.phone
    ensures h.reply.value.certificateType == req.certificateType
    ensures !h.reply.value.donationPaid && h.reply.value.donationAmount == 80.0
  {
    var rec := CertificateRequest(stamp.id, req.userName, req.phone, req.certificateType,
                                  false, 80.0, stamp.timestamp);
    Handled(db.(certificates := db.certificates + [rec]), Ok(rec))
  }

  // ---------------------------------------------------------------- fiscal

  const InvalidCurpDetail := "CURP format is invalid"

  /** The document stored for an accepted tax-status request: the CURP
      upper-cased, the other fields verbatim, status pending. */
  function FiscalRecord(req: FiscalRequestCreate, stamp: Stamp): FiscalRequest
  {
    FiscalRequest(stamp.id, Upper(req.curp), req.userName, req.phone, Pending, stamp.timestamp)
  }

  /** POST /api/fiscal/request as written, with Python's `re.match`, whose `$`
      also matches before one trailing newline. */
  function CreateFiscalRequestAsWritten(db: Db, req: FiscalRequestCreate, stamp: Stamp)
    : (h: Handled<FiscalRequest>)
    ensures h.reply.Ok? <==> Curp.ServerAcceptsAsWritten(req.curp)
    ensures h.reply.Err? ==> h.db == db && h.reply.error == HttpError(400, InvalidCurpDetail)
    ensures h.reply.Ok? ==>
      h.reply.value == FiscalRecord(req, stamp) && h.db == db.(fiscal := db.fiscal + [h.reply.value])
  {
    if !Curp.ServerAcceptsAsWritten(req.curp) then
      Handled(db, Err(HttpError(400, InvalidCurpDetail)))
    else
      Handled(db.(fiscal := db.fiscal + [FiscalRecord(req, stamp)]), Ok(FiscalRecord(req, stamp)))
  }

  /** As written, a valid CURP with a trailing newline is accepted and stored
      as a 19-character CURP ending in a newline. */
  lemma AsWrittenStoresNewline(db: Db, valid: string, userName: string, phone: string, stamp: Stamp)
    requires Curp.IsCurp(valid)
    ensures var h := CreateFiscalRequestAsWritten(db, FiscalRequestCreate(valid + "\n", userName, phone), stamp);
      h.reply.Ok? && |h.reply.value.curp| == 19 && !Curp.IsCurp(h.reply.value.curp)
  {
    Curp.TrailingNewlineSlipsThrough(valid);
  }

  /** The concrete input of the finding: "ABCD123456HABCDE01" followed by a
      newline is accepted as written and stored with 19 characters. */
  lemma NewlineExample(db: Db, stamp: Stamp)
    ensures var h := CreateFiscalRequestAsWritten(
      db, FiscalRequestCreate("ABCD123456HABCDE01\n", "", ""), stamp);
      h.reply.Ok? && |h.reply.value.curp| == 19 && !Curp.IsCurp(h.reply.value.curp)
  {
    Curp.ExampleCurp();
    assert "ABCD123456HABCDE01\n" == "ABCD123456HABCDE01" + "\n";
    AsWrittenStoresNewline(db, "ABCD123456HABCDE01", "", "", stamp);
  }

  /** POST /api/fiscal/request with the pattern anchored at the very end of the
      string, as the browser anchors it. An invalid CURP is a 400 raised
      before anything is stored; an accepted one is stored upper-cased, has
      the CURP shape and so exactly 18 characters, and keeps the other fields
      verbatim. */
  function CreateFiscalRequest(db: Db, req: FiscalRequestCreate, stamp: Stamp)
    : (h: Handled<FiscalRequest>)
    ensures h.reply.Ok? <==> Curp.ValidateCurp(req.curp)
    ensures h.reply.Err? ==> h.db == db && h.reply.error == HttpError(400, InvalidCurpDetail)
    ensures h.reply.Ok? ==>
      && h.reply.value == FiscalRecord(req, stamp)
      && h.db == db.(fiscal := db.fiscal + [h.reply.value])
      && Curp.IsCurp(h.reply.value.curp)
      && |h.reply.value.curp| == 18
      && h.reply.value.status == Pending
  {
    if !Curp.ValidateCurp(req.curp) then
      Handled(db, Err(HttpError(400, InvalidCurpDetail)))
    else
      Handled(db.(fiscal := db.fiscal + [FiscalRecord(req, stamp)]), Ok(FiscalRecord(req, stamp)))
  }

  /** The corrected handler behaves exactly as the one written whenever the
      CURP does not end in a newline. */
  lemma CorrectedMatchesAsWritten(db: Db, req: FiscalRequestCreate, stamp: Stamp)
    requires req.curp == [] || req.curp[|req.curp| - 1] != '\n'
    ensures CreateFiscalRequest(db, req, stamp) == CreateFiscalRequestAsWritten(db, req, stamp)
  {
    Curp.ClientServerAgree(req.curp);
  }

  // ---------------------------------------------------------------- CFDI

  const XmlDeclaration := "<?xml"
  const StoredXmlLimit := 1000
  const CfdiErrorPrefix := "Error processing CFDI: "

  /** The content kept in the database: `xml_content[:1000]`, the first
      min(1000, length) characters, so the whole content when it is short
      enough. */
  function StoredXml(xml: string): (r: string)
    ensures |r| == if |xml| < StoredXmlLimit then |xml| else StoredXmlLimit
    ensures r == xml[..|r|]
    ensures |xml| <= StoredXmlLimit ==> r == xml
  {
    Take(xml, StoredXmlLimit)
  }

  /** The server's format gate: the stripped content starts with `<?xml`. */
  predicate LooksLikeXml(xml: string)
  {
    StartsWith(Trim(Python, xml), XmlDeclaration)
  }

  /** POST /api/cfdi/verify. Content that does not start with `<?xml` after
      stripping is a 400 (the gate's own 400 is caught by the handler's
      `except` and re-raised, still 400, with a prefixed detail) and stores
      nothing; accepted content is stored truncated to 1000 characters. The
      reply body (a constant simulated result) is not modelled. */
  function VerifyCfdi(db: Db, xml: string, userIp: string, stamp: Stamp): (h: Handled<()>)
    ensures h.reply.Ok? <==> StartsWith(Trim(Python, xml), "<?xml")
    ensures h.reply.Err? ==>
      h.db == db && h.reply.error.status == 400 && StartsWith(h.reply.error.detail, CfdiErrorPrefix)
    ensures h.reply.Ok? ==>
      h.db == db.(cfdi := db.cfdi + [CfdiVerification(stamp.id, StoredXml(xml), userIp, stamp.timestamp)])
  {
    if !LooksLikeXml(xml) then
      // HTTPException(400, "Invalid XML format"), caught and wrapped
      var detail := CfdiErrorPrefix + "400: Invalid XML format";
      assert detail[..|CfdiErrorPrefix|] == CfdiErrorPrefix;
      Handled(db, Err(HttpError(400, detail)))
    else
      var rec := CfdiVerification(stamp.id, StoredXml(xml), userIp, stamp.timestamp);
      Handled(db.(cfdi := db.cfdi + [rec]), Ok(()))
  }

  // ---------------------------------------------------------------- contact

  /** POST /api/contact/message: the message is appended to its collection alone. */
  function CreateContactMessage(db: Db, req: ContactMessageCreate, stamp: Stamp)
    : (h: Handled<ContactMessage>)
    ensures h.reply.Ok? && h.db == db.(contacts := db.contacts + [h.reply.value])
    ensures h.reply.value.id == stamp.id && h.reply.value.timestamp == stamp.timestamp
    ensures h.reply.value.name == req.name && h.reply.value.email == req.email
    ensures h.reply.value.phone == req.phone && h.reply.value.message == req.message
  {
    var rec := ContactMessage(stamp.id, req.name, req.email, req.phone, req.message, stamp.timestamp);
    Handled(db.(contacts := db.contacts + [rec]), Ok(rec))
  }

  // ---------------------------------------------------------------- analytics

  datatype Dashboard = Dashboard(cfe: nat, certificates: nat, fiscal: nat, contacts: nat, totalHelped: nat)

  /** GET /api/analytics/dashboard: the four collection sizes, and the number
      of people helped, which counts the three service collections and not
      the contact messages. */
  function DashboardAnalytics(db: Db): (d: Dashboard)
    ensures d.cfe == |db.cfe| && d.certificates == |db.certificates|
    ensures d.fiscal == |db.fiscal| && d.contacts == |db.contacts|
    ensures d.totalHelped == d.cfe + d.certificates + d.fiscal
  {
    var cfe, certificates, fiscal := |db.cfe|, |db.certificates|, |db.fiscal|;
    Dashboard(cfe, certificates, fiscal, |db.contacts|, cfe + certificates + fiscal)
  }

  function TotalHelped(db: Db): nat
  {
    DashboardAnalytics(db).totalHelped
  }

  /** Every service request the server accepts adds one person helped (for
      tax-status requests, under the corrected check and under the check as
      written alike); a contact message, a CFDI verification, a CFE
      verification and a rejected tax-status request add none. */
  lemma TotalHelpedCounts(db: Db, stamp: Stamp)
    ensures forall req :: TotalHelped(CreateCfeRequest(db, req, stamp).db) == TotalHelped(db) + 1
    ensures forall req :: TotalHelped(CreateCertificateRequest(db, req, stamp).db) == TotalHelped(db) + 1
    ensures forall req :: (TotalHelped(CreateFiscalRequest(db, req, stamp).db)
      == TotalHelped(db) + (if Curp.ValidateCurp(req.curp) then 1 else 0))
    ensures forall req :: (TotalHelped(CreateFiscalRequestAsWritten(db, req, stamp).db)
      == TotalHelped(db) + (if Curp.ServerAcceptsAsWritten(req.curp) then 1 else 0))
    ensures forall req :: TotalHelped(CreateContactMessage(db, req, stamp).db) == TotalHelped(db)
    ensures forall xml, ip :: TotalHelped(VerifyCfdi(db, xml, ip, stamp).db) == TotalHelped(db)
    ensures forall id :: TotalHelped(VerifyCfeRequest(db, id).db) == TotalHelped(db)
  {
  }
}
