/** The GitHub registry login form: one token input plus a submit item. */
module Registry {
  import opened Util

  datatype RegistryForm = RegistryForm(token: string, currentField: nat, editing: bool, errorMessage: string)

  function NewRegistryForm(): (r: RegistryForm)
    ensures r.token == "" && r.currentField == 0 && !r.editing && r.errorMessage == ""
  {
    RegistryForm("", 0, false, "")
  }

  /** The token field and the submit item. */
  function TotalItems(form: RegistryForm): nat {
    2
  }

  predicate IsInputField(index: nat) {
    index == 0
  }

  /** Exactly one of the form's items takes input, and it is the first. */
  lemma OneInputField(form: RegistryForm)
    ensures TotalItems(form) == 2
    ensures forall i: nat :: i < TotalItems(form) && IsInputField(i) <==> i == 0
  {
  }

  /** The token is edited whatever item is selected. */
  function CurrentValue(form: RegistryForm): string {
    form.token
  }

  function WithCurrentValue(form: RegistryForm, value: string): (r: RegistryForm)
    ensures CurrentValue(r) == value
    ensures r.(token := form.token) == form
  {
    form.(token := value)
  }

  const TokenRequiredMessage: string := "Personal access token is required"

  /** `validate`: a token with a non-whitespace character is accepted and
      the error cleared; otherwise the fixed message is set. Only the error
      message changes. */
  function Validate(form: RegistryForm): (r: (bool, RegistryForm))
    ensures r.1 == form.(errorMessage := r.1.errorMessage)
    ensures r.0 <==> !IsBlank(form.token)
    ensures r.0 ==> r.1.errorMessage == ""
    ensures !r.0 ==> r.1.errorMessage == TokenRequiredMessage
  {
    TrimEmptyIffBlank(form.token);
    if Trim(form.token) == [] then (false, form.(errorMessage := TokenRequiredMessage))
    else (true, form.(errorMessage := ""))
  }

  /** Validating twice gives the same answer and the same form. */
  lemma ValidateIdempotent(form: RegistryForm)
    ensures Validate(Validate(form).1) == Validate(form)
  {
  }
}
