/** The OTP form component: a single code field, checked for presence and length. */
module OtpForm {
  import opened Api
  import opened Text

  /** The error `validateForm` sets; `None` when it clears it. Only the length is
      checked, in UTF-16 code units: non-digits pass. */
  function OtpError(otp: string): (r: Option<string>)
    ensures r == Some("OTP code is required") <==> otp == ""
    ensures r == Some("OTP must be 6 digits") <==> otp != "" && Length(otp) != 6
    ensures r == None <==> Length(otp) == 6
  {
    if otp == "" then Some("OTP code is required")
    else if Length(otp) != 6 then Some("OTP must be 6 digits")
    else None
  }

  /** Six letters pass the check: digits are never tested. */
  lemma LettersPass()
    ensures OtpError("abcdef") == None
  {
    assert Length("abcdef") == 1 + Length("bcdef");
  }

  class OtpForm {
    var otp: string
    var errors: Option<string>

    constructor ()
      ensures otp == "" && errors == None
    {
      otp, errors := "", None;
    }

    method ValidateForm() returns (ok: bool)
      modifies this
      ensures otp == old(otp)
      ensures errors == OtpError(otp)
      ensures ok <==> errors == None
    {
      errors := OtpError(otp);
      ok := errors.None?;
    }

    /** `handleSubmit`: `verify` is the code sent to verification, only when valid. */
    method HandleSubmit() returns (verify: Option<string>)
      modifies this
      ensures otp == old(otp)
      ensures errors == OtpError(otp)
      ensures verify.Some? <==> Length(otp) == 6
      ensures verify.Some? ==> verify.value == otp
    {
      var ok := ValidateForm();
      verify := if ok then Some(otp) else None;
    }
  }
}
