/** The login page: its own two-field schema and the submit handler that either
    signs in or turns the schema's issues into the page's error record. */
module LoginPage {
  import opened Api
  import opened Text
  import opened Zod

  /** The page's `loginSchema`. */
  function SchemaIssues(isEmail: string -> bool, email: string, password: string): (r: seq<Issue>)
    ensures r == [] <==> isEmail(email) && Length(password) >= 6
  {
    Check(isEmail(email), "email", "Please enter a valid email address")
    + Check(Length(password) >= 6, "password", "Password must be at least 6 characters")
  }

  /** Each field reports its own failing check and nothing else. */
  lemma SchemaShown(isEmail: string -> bool, email: string, password: string)
    ensures MessageFor(SchemaIssues(isEmail, email, password), "email") ==
      if isEmail(email) then None else Some("Please enter a valid email address")
    ensures MessageFor(SchemaIssues(isEmail, email, password), "password") ==
      if Length(password) >= 6 then None else Some("Password must be at least 6 characters")
  {
    var a := Check(isEmail(email), "email", "Please enter a valid email address");
    var b := Check(Length(password) >= 6, "password", "Password must be at least 6 characters");
    MessageForAppend(a, b, "email");
    MessageForAppend(a, b, "password");
  }

  class LoginPage {
    var email: string
    var password: string
    var errors: map<string, string>

    constructor ()
      ensures email == "" && password == "" && errors == map[]
    {
      email, password, errors := "", "", map[];
    }

    /** `handleSubmit`: `login` is the one `handleLogin` call it makes, if any. */
    method HandleSubmit(isEmail: string -> bool) returns (login: Option<AuthLoginData>)
      modifies this
      ensures email == old(email) && password == old(password)
      ensures isEmail(email) && Length(password) >= 6 ==>
        errors == map[] && login == Some(AuthLoginData(email, password))
      ensures !(isEmail(email) && Length(password) >= 6) ==>
        && login == None
        && IsErrorMap(SchemaIssues(isEmail, email, password), errors)
        && ("email" in errors <==> !isEmail(email))
        && ("email" in errors ==> errors["email"] == "Please enter a valid email address")
        && ("password" in errors <==> Length(password) < 6)
        && ("password" in errors ==> errors["password"] == "Password must be at least 6 characters")
    {
      var issues := SchemaIssues(isEmail, email, password);
      if issues == [] {
        errors := map[];
        login := Some(AuthLoginData(email, password));
      } else {
        var formatted := FormatErrors(issues);
        errors := formatted;
        login := None;
        SchemaShown(isEmail, email, password);
        ErrorMapMessages(issues, errors, "email");
        ErrorMapMessages(issues, errors, "password");
      }
    }
  }
}
