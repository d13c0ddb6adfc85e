/** The shared zod schemas for registration, login, e-mail only and new-password
    forms. A schema's issues come out field by field in declaration order, each
    field's checks in the order they are chained, and a `.refine` last. The `...Shown`
    lemmas state the last issue raised on each path (`MessageFor`), the message the
    pages' error loops would keep; no page in the client parses these schemas. */
module UserRegistration {
  import opened Api
  import opened Text
  import opened Zod

  datatype FormData = FormData(name: string, email: string, password: string, confirmPassword: string)
  datatype LoginData = LoginData(email: string, password: string)
  datatype EmailData = EmailData(email: string)
  datatype PasswordData = PasswordData(password: string, confirmPassword: string)

  /** `z.string().min(min, minMsg).max(max, maxMsg).nonempty(requiredMsg)` on `path`. */
  function BoundedIssues(path: string, s: string, min: nat, minMsg: string, max: nat, maxMsg: string,
                         requiredMsg: string): seq<Issue>
  {
    Check(Length(s) >= min, path, minMsg) + Check(Length(s) <= max, path, maxMsg) + Check(Length(s) >= 1, path, requiredMsg)
  }

  /** The last issue such a field raises: for an empty value the "required" message
      whatever else fails, then for an over-long value the maximum message, then for a
      short one the minimum message; no other path gets an issue. */
  lemma BoundedShown(path: string, s: string, min: nat, minMsg: string, max: nat, maxMsg: string,
                     requiredMsg: string, q: string)
    requires 1 <= min <= max
    ensures MessageFor(BoundedIssues(path, s, min, minMsg, max, maxMsg, requiredMsg), path) ==
      if s == "" then Some(requiredMsg)
      else if Length(s) > max then Some(maxMsg)
      else if Length(s) < min then Some(minMsg)
      else None
    ensures q != path ==> MessageFor(BoundedIssues(path, s, min, minMsg, max, maxMsg, requiredMsg), q) == None
  {
    var a := Check(Length(s) >= min, path, minMsg);
    var b := Check(Length(s) <= max, path, maxMsg);
    var c := Check(Length(s) >= 1, path, requiredMsg);
    MessageForAppend(a + b, c, path);
    MessageForAppend(a, b, path);
    MessageForAppend(a + b, c, q);
    MessageForAppend(a, b, q);
  }

  /** `z.string().email(...).nonempty("Email is required")`. */
  function EmailIssues(isEmail: string -> bool, s: string): seq<Issue> {
    Check(isEmail(s), "email", "Enter a valid email address") + Check(Length(s) >= 1, "email", "Email is required")
  }

  /** The last issue the e-mail chain raises: "required" for an empty value, else the
      format message when the format check fails. */
  lemma EmailShown(isEmail: string -> bool, s: string, q: string)
    ensures MessageFor(EmailIssues(isEmail, s), "email") ==
      if s == "" then Some("Email is required")
      else if !isEmail(s) then Some("Enter a valid email address")
      else None
    ensures q != "email" ==> MessageFor(EmailIssues(isEmail, s), q) == None
  {
    var a := Check(isEmail(s), "email", "Enter a valid email address");
    var b := Check(Length(s) >= 1, "email", "Email is required");
    MessageForAppend(a, b, "email");
    MessageForAppend(a, b, q);
  }

  /** The password bound the registration and new-password schemas enforce. */
  predicate PasswordLengthOk(s: string) {
    6 <= Length(s) <= 30
  }

  predicate RegisterValid(isEmail: string -> bool, d: FormData) {
    && 3 <= Length(d.name) <= 30
    && d.email != "" && isEmail(d.email)
    && PasswordLengthOk(d.password) && PasswordLengthOk(d.confirmPassword)
    && d.password == d.confirmPassword
  }

  /** `userRegisterSchema`. */
  function RegisterIssues(isEmail: string -> bool, d: FormData): (r: seq<Issue>)
    ensures r == [] <==> RegisterValid(isEmail, d)
  {
    BoundedIssues("name", d.name, 3, "Name must be at least 3 characters long",
                  30, "Name cannot exceed 30 characters", "Name is required")
    + EmailIssues(isEmail, d.email)
    + BoundedIssues("password", d.password, 6, "Password must be at least 6 characters long",
                    30, "Password cannot exceed 25 characters", "Password is required")
    + BoundedIssues("confirmPassword", d.confirmPassword, 6, "Confirm Password must be at least 6 characters long",
                    30, "Confirm Password cannot exceed 25 characters", "Confirm Password is required")
    + Check(d.password == d.confirmPassword, "confirmPassword", "Passwords do not match")
  }

  /** The last issue raised on each registration path. The password bound is 30
      although its message names 25, and the mismatch issue, raised last under
      `confirmPassword`, comes after that field's own issues. */
  lemma RegisterShown(isEmail: string -> bool, d: FormData)
    ensures MessageFor(RegisterIssues(isEmail, d), "name") ==
      if d.name == "" then Some("Name is required")
      else if Length(d.name) > 30 then Some("Name cannot exceed 30 characters")
      else if Length(d.name) < 3 then Some("Name must be at least 3 characters long")
      else None
    ensures MessageFor(RegisterIssues(isEmail, d), "email") ==
      if d.email == "" then Some("Email is required")
      else if !isEmail(d.email) then Some("Enter a valid email address")
      else None
    ensures MessageFor(RegisterIssues(isEmail, d), "password") ==
      if d.password == "" then Some("Password is required")
      else if Length(d.password) > 30 then Some("Password cannot exceed 25 characters")
      else if Length(d.password) < 6 then Some("Password must be at least 6 characters long")
      else None
    ensures MessageFor(RegisterIssues(isEmail, d), "confirmPassword") ==
      if d.password != d.confirmPassword then Some("Passwords do not match")
      else if d.confirmPassword == "" then Some("Confirm Password is required")
      else if Length(d.confirmPassword) > 30 then Some("Confirm Password cannot exceed 25 characters")
      else if Length(d.confirmPassword) < 6 then Some("Confirm Password must be at least 6 characters long")
      else None
  {
    var n := BoundedIssues("name", d.name, 3, "Name must be at least 3 characters long",
                           30, "Name cannot exceed 30 characters", "Name is required");
    var e := EmailIssues(isEmail, d.email);
    var p := BoundedIssues("password", d.password, 6, "Password must be at least 6 characters long",
                           30, "Password cannot exceed 25 characters", "Password is required");
    var c := BoundedIssues("confirmPassword", d.confirmPassword, 6, "Confirm Password must be at least 6 characters long",
                           30, "Confirm Password cannot exceed 25 characters", "Confirm Password is required");
    var m := Check(d.password == d.confirmPassword, "confirmPassword", "Passwords do not match");
    MessageForGroups(n, e, p, c, m, "name");
    MessageForGroups(n, e, p, c, m, "email");
    MessageForGroups(n, e, p, c, m, "password");
    MessageForGroups(n, e, p, c, m, "confirmPassword");
    BoundedShown("name", d.name, 3, "Name must be at least 3 characters long",
                 30, "Name cannot exceed 30 characters", "Name is required", "name");
    BoundedShown("name", d.name, 3, "Name must be at least 3 characters long",
                 30, "Name cannot exceed 30 characters", "Name is required", "email");
    BoundedShown("name", d.name, 3, "Name must be at least 3 characters long",
                 30, "Name cannot exceed 30 characters", "Name is required", "password");
    BoundedShown("name", d.name, 3, "Name must be at least 3 characters long",
                 30, "Name cannot exceed 30 characters", "Name is required", "confirmPassword");
    EmailShown(isEmail, d.email, "name");
    EmailShown(isEmail, d.email, "password");
    EmailShown(isEmail, d.email, "confirmPassword");
    BoundedShown("password", d.password, 6, "Password must be at least 6 characters long",
                 30, "Password cannot exceed 25 characters", "Password is required", "name");
    BoundedShown("password", d.password, 6, "Password must be at least 6 characters long",
                 30, "Password cannot exceed 25 characters", "Password is required", "email");
    BoundedShown("password", d.password, 6, "Password must be at least 6 characters long",
                 30, "Password cannot exceed 25 characters", "Password is required", "confirmPassword");
    BoundedShown("confirmPassword", d.confirmPassword, 6, "Confirm Password must be at least 6 characters long",
                 30, "Confirm Password cannot exceed 25 characters", "Confirm Password is required", "name");
    BoundedShown("confirmPassword", d.confirmPassword, 6, "Confirm Password must be at least 6 characters long",
                 30, "Confirm Password cannot exceed 25 characters", "Confirm Password is required", "email");
    BoundedShown("confirmPassword", d.confirmPassword, 6, "Confirm Password must be at least 6 characters long",
                 30, "Confirm Password cannot exceed 25 characters", "Confirm Password is required", "password");
  }

  /** `loginSchema`. */
  function LoginIssues(isEmail: string -> bool, d: LoginData): (r: seq<Issue>)
    ensures r == [] <==> d.email != "" && isEmail(d.email) && PasswordLengthOk(d.password)
  {
    EmailIssues(isEmail, d.email)
    + BoundedIssues("password", d.password, 6, "Password must be at least 6 characters long",
                    30, "Password cannot exceed 30 characters", "Password is required")
  }

  /** The last issue raised on each login path. */
  lemma LoginShown(isEmail: string -> bool, d: LoginData)
    ensures MessageFor(LoginIssues(isEmail, d), "email") ==
      if d.email == "" then Some("Email is required")
      else if !isEmail(d.email) then Some("Enter a valid email address")
      else None
    ensures MessageFor(LoginIssues(isEmail, d), "password") ==
      if d.password == "" then Some("Password is required")
      else if Length(d.password) > 30 then Some("Password cannot exceed 30 characters")
      else if Length(d.password) < 6 then Some("Password must be at least 6 characters long")
      else None
  {
    var e := EmailIssues(isEmail, d.email);
    var p := BoundedIssues("password", d.password, 6, "Password must be at least 6 characters long",
                           30, "Password cannot exceed 30 characters", "Password is required");
    MessageForAppend(e, p, "email");
    MessageForAppend(e, p, "password");
    EmailShown(isEmail, d.email, "password");
    BoundedShown("password", d.password, 6, "Password must be at least 6 characters long",
                 30, "Password cannot exceed 30 characters", "Password is required", "email");
  }

  /** `emailScheme`: only the e-mail field is constrained, so only it can be reported. */
  function EmailSchemeIssues(isEmail: string -> bool, d: EmailData): (r: seq<Issue>)
    ensures r == [] <==> d.email != "" && isEmail(d.email)
    ensures forall i :: 0 <= i < |r| ==> r[i].path == "email"
  {
    EmailIssues(isEmail, d.email)
  }

  /** `setNewPasswordSchema`. */
  function SetNewPasswordIssues(d: PasswordData): (r: seq<Issue>)
    ensures r == [] <==> PasswordLengthOk(d.password) && PasswordLengthOk(d.confirmPassword) && d.password == d.confirmPassword
  {
    BoundedIssues("password", d.password, 6, "Password must be at least 6 characters long",
                  30, "Password cannot exceed 30 characters", "Password is required")
    + BoundedIssues("confirmPassword", d.confirmPassword, 6, "Confirm Password must be at least 6 characters long",
                    30, "Confirm Password cannot exceed 30 characters", "Confirm Password is required")
    + Check(d.password == d.confirmPassword, "confirmPassword", "Passwords do not match")
  }

  /** The last issue raised on each new-password path: the mismatch issue comes
      after `confirmPassword`'s own issues; `password` gets only its own checks. */
  lemma SetNewPasswordShown(d: PasswordData)
    ensures MessageFor(SetNewPasswordIssues(d), "password") ==
      if d.password == "" then Some("Password is required")
      else if Length(d.password) > 30 then Some("Password cannot exceed 30 characters")
      else if Length(d.password) < 6 then Some("Password must be at least 6 characters long")
      else None
    ensures MessageFor(SetNewPasswordIssues(d), "confirmPassword") ==
      if d.password != d.confirmPassword then Some("Passwords do not match")
      else if d.confirmPassword == "" then Some("Confirm Password is required")
      else if Length(d.confirmPassword) > 30 then Some("Confirm Password cannot exceed 30 characters")
      else if Length(d.confirmPassword) < 6 then Some("Confirm Password must be at least 6 characters long")
      else None
  {
    var p := BoundedIssues("password", d.password, 6, "Password must be at least 6 characters long",
                           30, "Password cannot exceed 30 characters", "Password is required");
    var c := BoundedIssues("confirmPassword", d.confirmPassword, 6, "Confirm Password must be at least 6 characters long",
                           30, "Confirm Password cannot exceed 30 characters", "Confirm Password is required");
    var m := Check(d.password == d.confirmPassword, "confirmPassword", "Passwords do not match");
    MessageForAppend(p + c, m, "password");
    MessageForAppend(p, c, "password");
    MessageForAppend(p + c, m, "confirmPassword");
    MessageForAppend(p, c, "confirmPassword");
    BoundedShown("password", d.password, 6, "Password must be at least 6 characters long",
                 30, "Password cannot exceed 30 characters", "Password is required", "confirmPassword");
    BoundedShown("confirmPassword", d.confirmPassword, 6, "Confirm Password must be at least 6 characters long",
                 30, "Confirm Password cannot exceed 30 characters", "Confirm Password is required", "password");
  }
}
