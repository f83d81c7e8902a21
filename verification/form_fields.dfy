/** Controlled-form plumbing shared by the tax-status, e-mail recovery and
    IMSS weeks forms: the field map behind `formData`, the `handleChange`
    write that upper-cases the CURP field, the `errors` map that typing
    clears, and the outcome of a form's network request. */
module FormFields {
  import opened Text

  /** `formData`: field name to text. */
  type Fields = map<string, string>

  /** `errors`: field name (or `general`) to message. */
  type Errors = map<string, string>

  const CurpField := "curp"
  const GeneralError := "general"

  /** `formData[name]`, reading a missing field as the empty string (both are
      falsy in the browser). */
  function Get(f: Fields, name: string): string
  {
    if name in f then f[name] else ""
  }

  /** The form-data half of `handleChange`: the CURP field is stored
      upper-cased, any other field verbatim, and every other field keeps its
      value. */
  function ChangeField(f: Fields, name: string, value: string): (r: Fields)
    ensures r.Keys == f.Keys + {name}
    ensures name == CurpField ==> r[name] == Upper(value)
    ensures name != CurpField ==> r[name] == value
    ensures forall k :: k in f && k != name ==> r[k] == f[k]
  {
    f[name := if name == CurpField then Upper(value) else value]
  }

  /** The CURP field is present and upper-case. */
  predicate CurpIsUpper(f: Fields)
  {
    CurpField in f && IsUpper(f[CurpField])
  }

  /** No edit can leave a lower-case letter in the CURP field. */
  lemma ChangeKeepsCurpUpper(f: Fields, name: string, value: string)
    requires CurpIsUpper(f)
    ensures CurpIsUpper(ChangeField(f, name, value))
  {
  }

  /** Whether `errors[k]` is truthy: present and non-empty. */
  predicate Shows(e: Errors, k: string)
  {
    k in e && e[k] != ""
  }

  /** The errors half of `handleChange` in the e-mail recovery and IMSS
      forms: when the edited field's error or the general error shows, both
      are blanked and every other entry is kept; otherwise nothing changes. */
  function ClearOnEdit(e: Errors, name: string): (r: Errors)
    ensures Shows(e, name) || Shows(e, GeneralError) ==>
      && r.Keys == e.Keys + {name, GeneralError}
      && r[name] == "" && r[GeneralError] == ""
      && forall k :: k in e && k != name && k != GeneralError ==> r[k] == e[k]
    ensures !(Shows(e, name) || Shows(e, GeneralError)) ==> r == e
    ensures !Shows(r, name) && !Shows(r, GeneralError)
    ensures forall k :: k != name && k != GeneralError ==> (Shows(r, k) <==> Shows(e, k))
  {
    if Shows(e, name) || Shows(e, GeneralError) then e[name := ""][GeneralError := ""] else e
  }

  /** `response.data` of a successful request: a JSON object, kept opaque,
      or a falsy body (an empty string or `null`). */
  datatype Response = Body(fields: map<string, string>) | EmptyBody

  /** Whether `response.data` is truthy in the browser. */
  predicate HasBody(r: Response)
  {
    r.Body?
  }

  /** How a form's request ended: the server's data, or a failure with the
      `detail` of the error response when there is one. */
  datatype Outcome = Success(data: Response) | Failure(detail: Option<string>)

  /** `error.response?.data?.detail` is truthy. */
  predicate HasDetail(o: Outcome)
  {
    o.Failure? && o.detail.Some? && o.detail.value != ""
  }
}
