/** The login form component: per-field checks that record at most one message for
    each field, and a submit that logs in only when nothing was recorded. */
module LoginForm {
  import opened Api
  import opened Text
  import EmailPattern

  /** The component's `errors` record; `None` is an absent key. */
  datatype LoginErrors = LoginErrors(email: Option<string>, password: Option<string>)

  /** The e-mail check the login and sign-up forms share. */
  function EmailError(email: string): (r: Option<string>)
    ensures r == Some("Email is required") <==> email == ""
    ensures r == Some("Email is invalid") <==> email != "" && !EmailPattern.Matches(email)
    ensures r == None <==> email != "" && EmailPattern.Matches(email)
  {
    if email == "" then Some("Email is required")
    else if !EmailPattern.LooksLikeEmail(email) then Some("Email is invalid")
    else None
  }

  /** The password check the login and sign-up forms share; `length` counts UTF-16
      code units. */
  function PasswordError(password: string): (r: Option<string>)
    ensures r == Some("Password is required") <==> password == ""
    ensures r == Some("Password must be at least 6 characters") <==> password != "" && Length(password) < 6
    ensures r == None <==> Length(password) >= 6
  {
    if password == "" then Some("Password is required")
    else if Length(password) < 6 then Some("Password must be at least 6 characters")
    else None
  }

  function Validate(email: string, password: string): LoginErrors {
    LoginErrors(EmailError(email), PasswordError(password))
  }

  /** The form is valid exactly for a non-empty address matching the pattern and a
      password of at least six code units. */
  lemma ValidIff(email: string, password: string)
    ensures Validate(email, password) == LoginErrors(None, None) <==>
            email != "" && EmailPattern.Matches(email) && Length(password) >= 6
  {
  }

  class LoginForm {
    var email: string
    var password: string
    var errors: LoginErrors

    constructor ()
      ensures email == "" && password == "" && errors == LoginErrors(None, None)
    {
      email, password, errors := "", "", LoginErrors(None, None);
    }

    method ValidateForm() returns (ok: bool)
      modifies this
      ensures email == old(email) && password == old(password)
      ensures errors == Validate(email, password)
      ensures ok <==> errors == LoginErrors(None, None)
    {
      errors := Validate(email, password);
      ok := errors.email.None? && errors.password.None?;
    }

    /** `handleSubmit`: `login` is the `handleLogin` call and `closed` says whether
        `onLogin` ran; both happen only for a valid form. */
    method HandleSubmit() returns (login: Option<AuthLoginData>, closed: bool)
      modifies this
      ensures email == old(email) && password == old(password)
      ensures errors == Validate(email, password)
      ensures login.Some? <==> email != "" && EmailPattern.Matches(email) && Length(password) >= 6
      ensures login.Some? ==> login.value == AuthLoginData(email, password)
      ensures closed <==> login.Some?
    {
      var ok := ValidateForm();
      if ok {
        login, closed := Some(AuthLoginData(email, password)), true;
      } else {
        login, closed := None, false;
      }
    }
  }
}
