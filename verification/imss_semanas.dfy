/** The IMSS contribution-weeks page: the shared form state machine started
    from its five empty fields. */
module ImssSemanas {
  import opened Text
  import opened FormFields
  import RequestForm

  const InitialForm: Fields := map[
    "nss" := "",
    CurpField := "",
    "user_name" := "",
    "birth_date" := "",
    "phone" := ""
  ]

  function Initial(): RequestForm.State
  {
    RequestForm.Initial(InitialForm)
  }

  /** The form the page starts with, and returns to: five empty fields. */
  lemma InitialFormFields()
    ensures InitialForm.Keys == {"nss", CurpField, "user_name", "birth_date", "phone"}
    ensures forall k :: k in InitialForm ==> InitialForm[k] == ""
    ensures CurpIsUpper(InitialForm)
  {
  }

  /** "Nueva Consulta" after a successful request restores the initial state
      exactly. */
  lemma StartOverRestoresInitial(s: RequestForm.State, data: Response)
    ensures RequestForm.Reset(InitialForm, RequestForm.Submit(s, Success(data))) == Initial()
  {
    RequestForm.ResetAfterSuccess(InitialForm, s, data);
  }
}
