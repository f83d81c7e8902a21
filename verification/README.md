# Ayuda humanitaria: a Dafny model of the request rules and the form logic

This is a model of the "HUMANIDAD UNIDA" help site. The site is a FastAPI
server (`backend/server.py`) and a React front end with one page per
service. The model covers three parts.

- **Server request rules:**
  - CFE (electricity bill reprint) requests. The donation is 10 MXN for a
    first request and 20 MXN otherwise. A request starts out pending and can
    be verified by id.
  - School certificate requests.
  - Tax-status (constancia fiscal) requests, gated by the CURP pattern.
  - CFDI (electronic invoice) verification. Content must start with `<?xml`
    after stripping, and only its first 1000 characters are stored.
  - Contact messages.
  - The analytics dashboard. Its "people helped" figure is the sum of the
    three service collections.
- **Browser form logic:** the state transitions behind the tax-status, CFE,
  CFDI, e-mail recovery and IMSS contribution-weeks pages.
- **The navigation bar:** the desktop label, the active link and the mobile
  menu's open flag.

The database is an immutable value with one sequence of documents per
collection. Each server handler takes this value and returns the database
after the request together with its reply, so contracts can say that nothing
else changes. Each browser page is a `State` datatype. Its handlers are pure
transitions. An asynchronous submit is split in two: the part before the
request (`BeginSubmit`) and the part after it (`FinishSubmit`), which takes
the request's outcome as an input.

Modules:

| file | module | contents |
|---|---|---|
| text.dfy | Text | `Option`, ASCII upper-casing, the ECMAScript and Python whitespace sets, trim/strip, prefix, substring and slice helpers |
| curp.dfy | Curp | the CURP pattern as runs of character classes, its positional form, the browser's test and the server's `re.match` test |
| server.dfy | Server | collections, the handlers, the dashboard |
| form_fields.dfy | FormFields | the `formData` map, `handleChange`'s CURP upper-casing, the `errors` map, request outcomes |
| request_form.dfy | RequestForm | the form state machine shared by the e-mail recovery and IMSS pages |
| email_recovery.dfy, imss_semanas.dfy | EmailRecovery, ImssSemanas | those two pages' initial forms and start-over lemmas |
| fiscal_form.dfy | FiscalForm | the tax-status page, with its CURP gate and `curpError` |
| cfe_form.dfy | CfeForm | the CFE page, its checkbox and the donation note |
| cfdi_form.dfy | CfdiForm | the CFDI page, its blank-content gate and clear button |
| navbar.dfy | Navbar | navigation entries, desktop labels, the active link, the mobile menu |

## Model

| member | source | states |
|---|---|---|
| Text.Upper | frontend/src/components/Fiscal.js:64 | Upper-casing keeps the length. It maps exactly the letters a-z to A-Z and keeps every other character. The result is always upper-case. |
| Text.UpperFixedPoints | backend/server.py:239-243 | Upper-casing changes a string exactly when it is not already upper-case. It is idempotent, so upper-casing an already upper-cased CURP again stores the same string. |
| Text.TrimStart | frontend/src/components/CFDI.js:30 | Dropping leading whitespace yields a suffix. Everything dropped is whitespace, and the result does not start with whitespace. |
| Text.TrimEnd | frontend/src/components/CFDI.js:30 | Dropping trailing whitespace yields a prefix. Everything dropped is whitespace, and the result does not end with whitespace. |
| Text.Trim | backend/server.py:274 | `trim()` and `strip()` keep the largest piece of the input with no whitespace at either end. Only leading and trailing whitespace is dropped. The result is empty exactly when the input is all whitespace in that runtime's set. |
| Text.TrimmedPrefixNotBlank | backend/server.py:274 | If a trimmed string starts with a prefix whose first character is not whitespace in another runtime's set, the string is not blank in that set. |
| Curp.MatchesRunsWidth | backend/server.py:238 | A string matching the anchored pattern has exactly the pattern's width: 4+6+1+5+1+1 characters. |
| Curp.MatchesCurpPattern | backend/server.py:238 | The pattern `^[A-Z]{4}[0-9]{6}[HM][A-Z]{5}[0-9A-Z][0-9]$`, matched run by run, accepts exactly the strings of the positional CURP shape: four letters, six digits, H or M, five letters, a letter or digit, and a digit. |
| Curp.CurpLength | frontend/src/components/Fiscal.js:32 | Every string the pattern accepts has 18 characters, as the browser's error message says. |
| Curp.ValidateCurp | frontend/src/components/Fiscal.js:31-34 | The browser check holds iff the upper-cased input has the CURP shape. An accepted input has exactly 18 characters. |
| Curp.ServerAcceptsAsWritten | backend/server.py:238-240 | The server's `re.match` check holds iff the upper-cased input has the CURP shape, or the input ends in one newline and what precedes it, upper-cased, has the CURP shape. |
| Curp.ClientServerAgree | backend/server.py:238-240 | Whatever the browser accepts, the server accepts. Without a trailing newline, the two checks accept exactly the same inputs. |
| Curp.TrailingNewlineSlipsThrough | backend/server.py:238-243 | For any valid CURP followed by a newline, the server accepts it, the browser rejects it, and the string the server goes on to store has 19 characters. |
| Curp.ExampleCurp | backend/server.py:238 | "ABCD123456HABCDE01" has the CURP shape. |
| Curp.CurpIsUpper | backend/server.py:238 | A CURP-shaped string has no lower-case letters. |
| Server.CreateCfeRequest | backend/server.py:184-194 | The request always succeeds and is appended to the CFE collection only. Id, timestamp and fields are carried over, and the status is pending. The donation is 10 or 20, and it is 10 iff the request is a first one. An omitted flag counts as a first request (server.py:56). |
| Server.FindCfe | backend/server.py:203-206 | The lookup `update_one` performs: none iff no document has the id; otherwise the first document with that id. |
| Server.VerifyCfeRequest | backend/server.py:201-209 | Success iff some CFE document has the id. An unknown id is a 404 "Request not found" and the database is unchanged. Otherwise the first document with the id (the one `update_one` matches, as `FindCfe` finds it) becomes verified, and every other document, later ones with the same id included, and every other collection and field stays as it was. |
| Server.VerifyMarksExactlyOne | backend/server.py:203-206 | When ids are distinct (they are fresh uuid4 values), verifying changes exactly the document with that id, to status verified, and ids stay distinct. |
| Server.VerifyIdempotent | backend/server.py:201-209 | Verifying an id a second time leaves the database and the reply exactly as after the first time. |
| Server.CreateCertificateRequest | backend/server.py:59-71 | A certificate request is stored with the generated id and timestamp, its three fields as sent, unpaid and with the default 80.0 donation, in the certificate collection only (handler at server.py:212-218). |
| Server.CreateFiscalRequestAsWritten | backend/server.py:235-247 | As written: success iff the `re.match` check passes, in which case the upper-cased CURP is stored. Otherwise a 400 "CURP format is invalid" is returned and nothing is stored. |
| Server.NewlineExample | backend/server.py:238-246 | The concrete input "ABCD123456HABCDE01" followed by a newline is accepted as written and stored as a 19-character value that is not a CURP. |
| Server.AsWrittenStoresNewline | backend/server.py:238-246 | As written, a valid CURP with a trailing newline is accepted and stored as a 19-character value that is not a CURP. |
| Server.CreateFiscalRequest | backend/server.py:235-247 | Corrected: success iff the CURP is valid with `$` at the very end. A failure is a 400 with the database unchanged. On success, the stored record has the CURP shape, 18 characters and status pending, and it is appended to the tax-status collection only. |
| Server.CorrectedMatchesAsWritten | backend/server.py:238-240 | The corrected handler and the one as written give the same reply and database for every CURP that does not end in a newline. |
| Server.StoredXml | backend/server.py:288 | `xml_content[:1000]` is the prefix of length min(1000, length). It is the whole content when the content has at most 1000 characters. |
| Server.VerifyCfdi | backend/server.py:269-297 | Success iff the stripped content starts with `<?xml`. A failure is a 400 whose detail starts with "Error processing CFDI: " (the gate's own 400 is caught and wrapped) and it stores nothing. Accepted content is stored, truncated, in the CFDI collection only. |
| Server.CreateContactMessage | backend/server.py:369-373 | A contact message is stored as sent, in the contact collection only. |
| Server.DashboardAnalytics | backend/server.py:386-403 | The dashboard reports each collection's size. The people-helped total adds the CFE, certificate and tax-status counts and leaves out contact messages. |
| Server.TotalHelpedCounts | backend/server.py:386-403 | `CreateCfeRequest` and `CreateCertificateRequest` always raise people helped by exactly one. `CreateFiscalRequest` raises it by one iff the corrected check passes, and `CreateFiscalRequestAsWritten` by one iff the `re.match` check passes; otherwise they leave it unchanged. `CreateContactMessage`, `VerifyCfdi` and `VerifyCfeRequest` leave it unchanged. |
| FormFields.ChangeField | frontend/src/components/EmailRecovery.js:58-61 | An edit writes one field: the CURP upper-cased, any other field verbatim. Every other field keeps its value, and the field set gains at most the edited name. |
| FormFields.ChangeKeepsCurpUpper | frontend/src/components/IMSSemanas.js:55-58 | No edit can leave a lower-case letter in a present CURP field. |
| FormFields.ClearOnEdit | frontend/src/components/EmailRecovery.js:63-70 | If the edited field's error or the general error shows, both are blanked and every other entry is kept; otherwise the errors are untouched. Afterwards neither shows, and every other error shows iff it showed before. |
| RequestForm.Change | frontend/src/components/IMSSemanas.js:53-68 | `handleChange` writes the field through `ChangeField`, clears errors through `ClearOnEdit`, and touches nothing else. |
| RequestForm.BeginSubmit | frontend/src/components/EmailRecovery.js:37-40 | Submitting turns loading on and empties the errors before the request. |
| RequestForm.FinishSubmit | frontend/src/components/EmailRecovery.js:42-53 | Success records the response and marks the form submitted. A failure with a detail makes it the only, general, error; a failure without one changes no error. Loading always ends off. |
| RequestForm.Submit | frontend/src/components/IMSSemanas.js:34-51 | After a submit, loading is off and the form is as it was. The errors are exactly `{general: detail}` after a failure with a detail, and empty otherwise. |
| RequestForm.Reset | frontend/src/components/EmailRecovery.js:127-138 | "Start over" puts back the page's initial form and closes the success view (submitted false, no data). It leaves the errors and loading alone (also IMSSemanas.js:131-141). |
| RequestForm.StepKeepsInv | frontend/src/components/EmailRecovery.js:37-71 | Any single event keeps the invariant: the CURP is upper-case, nothing is loading, and submitted implies data. |
| RequestForm.RunKeepsInv | frontend/src/components/EmailRecovery.js:37-71 | Any sequence of events keeps that invariant. |
| RequestForm.SessionKeepsInv | frontend/src/components/IMSSemanas.js:53-68 | On a page whose initial form has an upper-case CURP, any sequence of edits, submits and resets from the initial state keeps the CURP upper-case and loading off. A submitted form stays on screen without the success view only when the server answered with a falsy body. |
| RequestForm.SuccessViewAfterSubmit | frontend/src/components/EmailRecovery.js:78 | Under the invariant (submitted implies stored data), a submitted form shows the success view iff the stored response body is truthy. |
| RequestForm.SuccessViewNeedsBody | frontend/src/components/IMSSemanas.js:41-42 | A success always marks the form submitted. It opens the success view iff `response.data` is truthy (IMSSemanas.js:75). |
| RequestForm.ResetAfterSuccess | frontend/src/components/EmailRecovery.js:127-138 | "Start over" after a successful submit gives back exactly the initial state. |
| EmailRecovery.InitialFormFields | frontend/src/components/EmailRecovery.js:8-21 | The page starts with seven fields, all empty except the provider, which is "Gmail". Nothing is loading, nothing is submitted and there are no errors. The CURP field starts upper-case (empty), so `RequestForm.SessionKeepsInv` applies to the page. |
| EmailRecovery.StartOverRestoresInitial | frontend/src/components/EmailRecovery.js:127-138 | "Recuperar Otro Email" after success restores the initial state exactly, provider included. |
| ImssSemanas.InitialFormFields | frontend/src/components/IMSSemanas.js:8-14 | The page starts with the five empty fields nss, curp, user_name, birth_date and phone. The CURP field starts upper-case (empty), so `RequestForm.SessionKeepsInv` applies to the page. |
| ImssSemanas.StartOverRestoresInitial | frontend/src/components/IMSSemanas.js:131-141 | Starting over after success restores the initial state exactly. |
| FiscalForm.Change | frontend/src/components/Fiscal.js:60-70 | An edit writes the field, upper-casing the CURP. Editing the CURP clears its error; editing any other field keeps it. |
| FiscalForm.BeginSubmit | frontend/src/components/Fiscal.js:36-45 | The submit is blocked iff the browser CURP check fails. A blocked submit sets a non-empty error and changes nothing else. Otherwise loading turns on, the error clears, and the form is sent unchanged. |
| FiscalForm.FinishSubmit | frontend/src/components/Fiscal.js:47-57 | Success marks the form submitted. A failure whose detail contains "CURP format" sets the server-format message; any other failure keeps the error. Loading always ends off. |
| FiscalForm.Submit | frontend/src/components/Fiscal.js:36-58 | An invalid CURP only sets the error. A valid one ends with loading off; submitted holds iff the request succeeded or the form was already submitted; and an error shows iff the server's detail named the CURP format. |
| FiscalForm.SubmitGates | frontend/src/components/Fiscal.js:204 | An empty CURP both disables the button and fails the handler's check. A sent request keeps the button disabled until it ends, and an enabled button implies a non-empty CURP. |
| FiscalForm.BrowserAndServerAgree | frontend/src/components/Fiscal.js:39-48 | Whatever the browser sends, the server accepts, both as written and as corrected. An upper-case CURP is stored as typed. Without a trailing newline, whatever the browser holds back the server would reject. |
| FiscalForm.NewQuery | frontend/src/components/Fiscal.js:113-117 | "Nueva Consulta" returns to a not-submitted form with the three fields curp, user_name and phone, all empty. |
| FiscalForm.NewQueryAfterSuccess | frontend/src/components/Fiscal.js:113-117 | "Nueva Consulta" after a successful request gives back exactly the initial state. |
| FiscalForm.RunKeepsCurpUpper | frontend/src/components/Fiscal.js:60-70 | Any event sequence from a state with an upper-case CURP keeps the CURP upper-case and loading off. |
| CfeForm.Change | frontend/src/components/CFE.js:34-40 | A checkbox stores its checked flag, any other input its text. Every other field keeps its value. |
| CfeForm.NoteMatchesDonation | frontend/src/components/CFE.js:261-265 | The 20 MXN note shows iff the server will charge 20. The initial form is well typed, hides the note, and is charged 10. |
| CfeForm.BeginSubmit | frontend/src/components/CFE.js:18-20 | Submitting turns loading on, so the submit button is disabled (CFE.js:270). It keeps the form, the submitted flag and the data. |
| CfeForm.FinishSubmit | frontend/src/components/CFE.js:22-31 | Success records the response and marks the form submitted. A failure only alerts, so the state stays as it was apart from loading, which always ends off. |
| CfeForm.Submit | frontend/src/components/CFE.js:18-32 | After `handleSubmit`, loading is off, so the submit button is enabled again (CFE.js:270), and the form is kept. Success stores the response, marks the form submitted, and opens the success view iff the body is truthy. A failure leaves the state as it was apart from loading. |
| CfeForm.Reset | frontend/src/components/CFE.js:121-129 | "Nueva Solicitud" clears the submission and restores the initial form. |
| CfeForm.ResetAfterSuccess | frontend/src/components/CFE.js:8-16 | "Nueva Solicitud" after success gives back exactly the initial state. |
| CfeForm.RunKeepsInv | frontend/src/components/CFE.js:34-47 | Edits from the rendered inputs, submits answered with objects (as `response_model=CFERequest`, server.py:184, guarantees) and resets keep the form well typed and loading off. The success view shows iff the form is submitted. |
| CfdiForm.Edit | frontend/src/components/CFDI.js:116 | Typing sets the content to the typed text and keeps the result and loading. |
| CfdiForm.BeginVerify | frontend/src/components/CFDI.js:27-35 | Verification is blocked iff the content is blank after `trim`, and a blocked state is unchanged. Otherwise loading turns on and the content is sent as typed. |
| CfdiForm.FinishVerify | frontend/src/components/CFDI.js:37-47 | Success shows the result. A failure keeps any earlier result on screen. Loading always ends off and the content stays. |
| CfdiForm.Verify | frontend/src/components/CFDI.js:27-48 | Blank content leaves the state unchanged. Other content ends with loading off and the content kept, with the result replaced on success and kept on failure. |
| CfdiForm.Clear | frontend/src/components/CFDI.js:55-58 | Clearing empties the content and the result and leaves loading alone. |
| CfdiForm.ButtonMatchesHandler | frontend/src/components/CFDI.js:130 | When nothing is loading, the verify button is disabled iff the handler would stop at the alert. After clearing, the clear button hides and verification is disabled. |
| CfdiForm.BlankContentClearable | frontend/src/components/CFDI.js:136 | Whitespace-only content shows the clear button while verification stays disabled and blocked. |
| CfdiForm.ServerGateImpliesBrowserGate | frontend/src/components/CFDI.js:30-33 | Every content the server's `<?xml` gate accepts is non-blank, so the browser sends it. |
| CfdiForm.BrowserGateIsWeaker | backend/server.py:274-275 | Any non-blank content shorter than `<?xml` gets past the browser's gate, and the server rejects it without storing anything. |
| Navbar.LeadingRun | frontend/src/components/Navbar.js:72 | The length of the leading run of non-whitespace characters: everything in it is non-whitespace, and the character after it is whitespace. |
| Navbar.MatchIsLeadingRun | frontend/src/components/Navbar.js:72 | A match of `^[^\s]+ ` is the leading run plus one space. |
| Navbar.LeadingMatchUnique | frontend/src/components/Navbar.js:72 | The pattern matches at most one prefix. |
| Navbar.DesktopLabel | frontend/src/components/Navbar.js:72 | The label is always a suffix of the name. If the pattern matches a prefix, the label is the rest of the name; if it matches nothing, the label is the whole name. The label is shorter iff there is a match. |
| Navbar.IconLabel | frontend/src/components/Navbar.js:71-72 | For a name that is a one-character non-space icon, a space and a text, the label is that text. |
| Navbar.LabelsFollowIcons | frontend/src/components/Navbar.js:9-16 | Each of the seven entries' names is its icon, a space and its desktop label. |
| Navbar.AtMostOneActive | frontend/src/components/Navbar.js:66 | The entries' targets are distinct, so for any path at most one link is highlighted. |
| Navbar.MenuStep | frontend/src/components/Navbar.js:87 | The menu button flips `isOpen`. Following a mobile link or sharing from the menu closes it (Navbar.js:108, 120-123). |
| Navbar.ToggleTwice | frontend/src/components/Navbar.js:87 | Pressing the menu button twice restores the menu's state. |

## Left out

- I/O and MongoDB: each collection is a sequence, and `insert_one` appends. Database failures and `to_list(1000)` on the listing routes are not modelled.
- The listing (GET) routes, the static guide and link dictionaries and `/`: they return constants or stored lists and state no rules.
- `POST /status` (server.py:171-176) stores a status-check document in `status_checks`, a collection not modelled; like the listing routes, it states no rules.
- Document ids (`uuid4`) and timestamps (`utcnow`) are inputs (`Server.Stamp`). Timestamps are opaque strings.
- Server.VerifyCfdi: the simulated verification result returned and stored is not modelled. Its contents are constants plus a clock reading.
- Server.VerifyCfdi: states only that the detail starts with "Error processing CFDI: ". The full text after the prefix, which comes from the framework's exception formatting, is left out.
- Pydantic type coercion and request validation (a missing field is a 422): requests are modelled as already-typed values.
- CfeForm.Payload: requires a well-typed form, the one the rendered inputs produce. Other JSON values the server would coerce or reject are not modelled.
- Text.Upper: upper-cases ASCII letters only. `toUpperCase` and `str.upper` also map non-ASCII letters, and those mappings (some of which change the length) are left out.
- Browser side effects: `alert`, clipboard sharing, `console.error`, the guide fetches in `useEffect`, and JSX rendering beyond the rendering conditions stated above.
- CfeForm.RunKeepsInv: assumes that successful replies are objects, which the server's `response_model=CFERequest` (server.py:184) guarantees; `CfeForm.Submit` itself also covers a falsy body.
- HTML `required` and `maxLength` attributes (CFE.js:211,226,241; EmailRecovery.js:224-310; IMSSemanas.js:220-295; Fiscal.js:157-158): the browser refuses to submit a form with an empty required field and limits what can be typed. `Send` and `Edit` events ignore these limits, so the model allows more inputs than the page and its properties hold for those too.
- Async interleaving: a submit is split into before and after the request. Overlapping submissions and unmounting during a request are not modelled.
- The `activeTab` state of the e-mail recovery and CFDI pages: it only chooses which panel renders.
- `register_download` and the `tramite_downloads` collection (server.py:321-329): the handler only records a download and echoes the document type, and its page (Tramites.js) is not part of this model.
- The e-mail recovery and IMSS posts: server.py defines request models for them (server.py:123-162) but no route, so their server side is not modelled; the pages' requests are modelled only by their outcome.
- The Contact, Certificates, Tramites, Home and Footer components and App.js routing are not part of this model. Their server-side counterparts for contact messages and certificates are modelled in Server.

## Findings

| source | as written | input that shows it | evidently intended | confidence | as-written member | corrected member |
|---|---|---|---|---|---|---|
| backend/server.py:238-243 | `re.match` with a pattern ending in `$` also matches just before a final newline, so the check accepts a valid CURP followed by `\n`, and the handler stores that 19-character value | curp = "ABCD123456HABCDE01\n" | accept only 18-character CURPs, as the browser's check (Fiscal.js:31-34) and its message "Debe tener 18 caracteres" do; e.g. `re.fullmatch` or `\Z` | not executed | Server.AsWrittenStoresNewline | Server.CreateFiscalRequest |
