/** The e-mail recovery page: the shared form state machine started from its
    seven-field form, in which every field is empty except the provider,
    which starts as Gmail. */
module EmailRecovery {
  import opened Text
  import opened FormFields
  import RequestForm

  const Provider := "email_provider"

  const InitialForm: Fields := map[
    "email_to_recover" := "",
    "user_name" := "",
    "birth_date" := "",
    "phone" := "",
    CurpField := "",
    Provider := "Gmail",
    "additional_info" := ""
  ]

  function Initial(): RequestForm.State
  {
    RequestForm.Initial(InitialForm)
  }

  /** The form the page starts with, and returns to: seven fields, all empty
      except the provider. */
  lemma InitialFormFields()
    ensures |InitialForm.Keys| == 7 && Provider in InitialForm && InitialForm[Provider] == "Gmail"
    ensures forall k :: k in InitialForm && k != Provider ==> InitialForm[k] == ""
    ensures !Initial().loading && !Initial().submitted && Initial().submittedData.None?
    ensures Initial().errors == map[]
    ensures CurpIsUpper(InitialForm)
  {
    assert InitialForm.Keys == {"email_to_recover", "user_name", "birth_date", "phone",
                                CurpField, Provider, "additional_info"};
  }

  /** "Recuperar Otro Email" after a successful request restores the initial
      state exactly, provider included. */
  lemma StartOverRestoresInitial(s: RequestForm.State, data: Response)
    ensures RequestForm.Reset(InitialForm, RequestForm.Submit(s, Success(data))) == Initial()
    ensures RequestForm.Reset(InitialForm, s).form[Provider] == "Gmail"
  {
    RequestForm.ResetAfterSuccess(InitialForm, s, data);
  }
}
