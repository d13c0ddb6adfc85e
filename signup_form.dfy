/** The sign-up form component: field edits, per-field checks with at most one
    message each, and a submit that registers only when nothing was recorded. */
module SignupForm {
  import opened Api
  import opened Text
  import EmailPattern
  import LoginForm

  datatype SignUpErrors = SignUpErrors(name: Option<string>, email: Option<string>,
                                       password: Option<string>, confirmPassword: Option<string>)

  const NoErrors := SignUpErrors(None, None, None, None)

  /** The `name` attribute of the input that changed. */
  datatype FieldName = Name | Email | Password | ConfirmPassword

  /** `{ ...formData, [name]: value }`. */
  function WithField(d: AuthFormInputs, field: FieldName, value: string): (r: AuthFormInputs)
    ensures r.name == (if field == Name then value else d.name)
    ensures r.email == (if field == Email then value else d.email)
    ensures r.password == (if field == Password then value else d.password)
    ensures r.confirmPassword == (if field == ConfirmPassword then value else d.confirmPassword)
  {
    match field
    case Name => d.(name := value)
    case Email => d.(email := value)
    case Password => d.(password := value)
    case ConfirmPassword => d.(confirmPassword := value)
  }

  function NameError(name: string): (r: Option<string>)
    ensures r.Some? <==> AllSpace(name)
    ensures r.Some? ==> r.value == "Name is required"
  {
    TrimEmpty(name);
    if Trim(name) == "" then Some("Name is required") else None
  }

  function ConfirmError(password: string, confirm: string): (r: Option<string>)
    ensures r == Some("Please confirm your password") <==> confirm == ""
    ensures r == Some("Passwords do not match") <==> confirm != "" && confirm != password
    ensures r == None <==> confirm != "" && confirm == password
  {
    if confirm == "" then Some("Please confirm your password")
    else if password != confirm then Some("Passwords do not match")
    else None
  }

  function Validate(d: AuthFormInputs): SignUpErrors {
    SignUpErrors(NameError(d.name), LoginForm.EmailError(d.email),
                 LoginForm.PasswordError(d.password), ConfirmError(d.password, d.confirmPassword))
  }

  ghost predicate Valid(d: AuthFormInputs) {
    && !AllSpace(d.name)
    && d.email != "" && EmailPattern.Matches(d.email)
    && Length(d.password) >= 6
    && d.confirmPassword == d.password
  }

  /** The record is empty exactly for a form that meets every rule. */
  lemma ValidIff(d: AuthFormInputs)
    ensures Validate(d) == NoErrors <==> Valid(d)
  {
    if d.confirmPassword == d.password && Length(d.password) >= 6 {
      assert d.confirmPassword != "";
    }
  }

  class SignupForm {
    var formData: AuthFormInputs
    var errors: SignUpErrors

    constructor ()
      ensures formData == AuthFormInputs("", "", "", "") && errors == NoErrors
    {
      formData, errors := AuthFormInputs("", "", "", ""), NoErrors;
    }

    method HandleChange(field: FieldName, value: string)
      modifies this
      ensures formData == WithField(old(formData), field, value)
      ensures errors == old(errors)
    {
      formData := WithField(formData, field, value);
    }

    method ValidateForm() returns (ok: bool)
      modifies this
      ensures formData == old(formData)
      ensures errors == Validate(formData)
      ensures ok <==> errors == NoErrors
    {
      errors := Validate(formData);
      ok := errors == NoErrors;
    }

    /** `handleSubmit`: `signUp` is the `handleSignUp` call, made only for a valid form. */
    method HandleSubmit() returns (signUp: Option<AuthFormInputs>)
      modifies this
      ensures formData == old(formData)
      ensures errors == Validate(formData)
      ensures signUp.Some? <==> Valid(formData)
      ensures signUp.Some? ==> signUp.value == formData
    {
      var ok := ValidateForm();
      ValidIff(formData);
      signUp := if ok then Some(formData) else None;
    }
  }
}
