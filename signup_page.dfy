/** The sign-up page: its own four-field schema and the submit handler that either
    registers or turns the schema's issues into the page's error record. */
module SignupPage {
  import opened Api
  import opened Text
  import opened Zod

  /** `/[0-9]/.test(s)`: some ASCII digit anywhere. */
  predicate HasDigit(s: string) {
    exists i :: 0 <= i < |s| && IsDigit(s[i])
  }

  predicate SchemaValid(isEmail: string -> bool, d: AuthFormInputs) {
    && Length(d.name) >= 1
    && isEmail(d.email)
    && Length(d.password) >= 8 && HasDigit(d.password)
    && Length(d.confirmPassword) >= 1
    && d.password == d.confirmPassword
  }

  /** The page's `signupSchema`, the match refinement last. */
  function SchemaIssues(isEmail: string -> bool, d: AuthFormInputs): (r: seq<Issue>)
    ensures r == [] <==> SchemaValid(isEmail, d)
  {
    Check(Length(d.name) >= 1, "name", "Name is required")
    + Check(isEmail(d.email), "email", "Please enter a valid email address")
    + (Check(Length(d.password) >= 8, "password", "Password must be at least 8 characters")
       + Check(HasDigit(d.password), "password", "Password must contain at least one number"))
    + Check(Length(d.confirmPassword) >= 1, "confirmPassword", "Please confirm your password")
    + Check(d.password == d.confirmPassword, "confirmPassword", "Passwords do not match")
  }

  /** The schema's issues as five groups: name, email, password, confirmation, match. */
  lemma Groups(isEmail: string -> bool, d: AuthFormInputs, f: string)
    ensures MessageFor(SchemaIssues(isEmail, d), f) ==
      if f == "confirmPassword" && d.password != d.confirmPassword then Some("Passwords do not match")
      else if f == "confirmPassword" && d.confirmPassword == "" then Some("Please confirm your password")
      else if f == "password" && !HasDigit(d.password) then Some("Password must contain at least one number")
      else if f == "password" && Length(d.password) < 8 then Some("Password must be at least 8 characters")
      else if f == "email" && !isEmail(d.email) then Some("Please enter a valid email address")
      else if f == "name" && d.name == "" then Some("Name is required")
      else None
  {
    var n := Check(Length(d.name) >= 1, "name", "Name is required");
    var e := Check(isEmail(d.email), "email", "Please enter a valid email address");
    var p1 := Check(Length(d.password) >= 8, "password", "Password must be at least 8 characters");
    var p2 := Check(HasDigit(d.password), "password", "Password must contain at least one number");
    var c := Check(Length(d.confirmPassword) >= 1, "confirmPassword", "Please confirm your password");
    var m := Check(d.password == d.confirmPassword, "confirmPassword", "Passwords do not match");
    assert SchemaIssues(isEmail, d) == n + e + (p1 + p2) + c + m;
    MessageForCheck(Length(d.name) >= 1, "name", "Name is required", f);
    MessageForCheck(isEmail(d.email), "email", "Please enter a valid email address", f);
    MessageForCheck(Length(d.password) >= 8, "password", "Password must be at least 8 characters", f);
    MessageForCheck(HasDigit(d.password), "password", "Password must contain at least one number", f);
    MessageForCheck(Length(d.confirmPassword) >= 1, "confirmPassword", "Please confirm your password", f);
    MessageForCheck(d.password == d.confirmPassword, "confirmPassword", "Passwords do not match", f);
    MessageForAppend(p1, p2, f);
    MessageForGroups(n, e, p1 + p2, c, m, f);
  }

  /** A password without a digit reads "must contain at least one number" even when it
      is also short; a mismatch overrides the confirmation's own message. */
  lemma SchemaShown(isEmail: string -> bool, d: AuthFormInputs)
    ensures MessageFor(SchemaIssues(isEmail, d), "name") ==
      if d.name == "" then Some("Name is required") else None
    ensures MessageFor(SchemaIssues(isEmail, d), "email") ==
      if isEmail(d.email) then None else Some("Please enter a valid email address")
    ensures MessageFor(SchemaIssues(isEmail, d), "password") ==
      if !HasDigit(d.password) then Some("Password must contain at least one number")
      else if Length(d.password) < 8 then Some("Password must be at least 8 characters")
      else None
    ensures MessageFor(SchemaIssues(isEmail, d), "confirmPassword") ==
      if d.password != d.confirmPassword then Some("Passwords do not match")
      else if d.confirmPassword == "" then Some("Please confirm your password")
      else None
  {
    Groups(isEmail, d, "name");
    Groups(isEmail, d, "email");
    Groups(isEmail, d, "password");
    Groups(isEmail, d, "confirmPassword");
  }

  class SignupPage {
    var name: string
    var email: string
    var password: string
    var confirmPassword: string
    var errors: map<string, string>

    constructor ()
      ensures name == "" && email == "" && password == "" && confirmPassword == "" && errors == map[]
    {
      name, email, password, confirmPassword, errors := "", "", "", "", map[];
    }

    function Data(): AuthFormInputs
      reads this
    {
      AuthFormInputs(name, email, password, confirmPassword)
    }

    /** `handleSubmit`: `signUp` is the one `handleSignUp` call it makes, if any. */
    method HandleSubmit(isEmail: string -> bool) returns (signUp: Option<AuthFormInputs>)
      modifies this
      ensures Data() == old(Data())
      ensures SchemaValid(isEmail, Data()) ==> errors == map[] && signUp == Some(Data())
      ensures !SchemaValid(isEmail, Data()) ==>
        && signUp == None
        && IsErrorMap(SchemaIssues(isEmail, Data()), errors)
        && forall f :: (f in errors <==> MessageFor(SchemaIssues(isEmail, Data()), f).Some?)
                       && (f in errors ==> errors[f] == MessageFor(SchemaIssues(isEmail, Data()), f).value)
    {
      var issues := SchemaIssues(isEmail, Data());
      if issues == [] {
        errors := map[];
        signUp := Some(Data());
      } else {
        var formatted := FormatErrors(issues);
        errors := formatted;
        signUp := None;
        forall f
          ensures f in errors <==> MessageFor(issues, f).Some?
          ensures f in errors ==> errors[f] == MessageFor(issues, f).value
        {
          ErrorMapMessages(issues, errors, f);
        }
      }
    }
  }
}
