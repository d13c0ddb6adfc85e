/** The password-change form on the profile page. */
module ProfilePage {
  import opened Api

  /** The body of the password update: `{ newPassword, oldPassword }`. */
  datatype PasswordUpdate = PasswordUpdate(newPassword: string, oldPassword: string)

  /** The error `handlePasswordChange` leaves; missing fields are reported before a
      mismatch. */
  function PasswordChangeError(current: string, newPassword: string, confirm: string): (r: Option<string>)
    ensures r == Some("All fields are required") <==> current == "" || newPassword == "" || confirm == ""
    ensures r == Some("New passwords do not match") <==>
              current != "" && newPassword != "" && confirm != "" && newPassword != confirm
    ensures r == None <==> current != "" && newPassword != "" && newPassword == confirm
  {
    if current == "" || newPassword == "" || confirm == "" then Some("All fields are required")
    else if newPassword != confirm then Some("New passwords do not match")
    else None
  }

  class ProfilePage {
    var currentPassword: string
    var newPassword: string
    var confirmPassword: string
    var error: Option<string>

    constructor ()
      ensures currentPassword == "" && newPassword == "" && confirmPassword == "" && error == None
    {
      currentPassword, newPassword, confirmPassword, error := "", "", "", None;
    }

    /** `handlePasswordChange`: clears the previous error, then either sets a new one
        or makes the update call. */
    method HandlePasswordChange() returns (update: Option<PasswordUpdate>)
      modifies this
      ensures currentPassword == old(currentPassword) && newPassword == old(newPassword)
      ensures confirmPassword == old(confirmPassword)
      ensures error == PasswordChangeError(currentPassword, newPassword, confirmPassword)
      ensures update.Some? <==> error == None
      ensures update.Some? ==> update.value == PasswordUpdate(newPassword, currentPassword)
    {
      error := None;
      update := None;
      if currentPassword == "" || newPassword == "" || confirmPassword == "" {
        error := Some("All fields are required");
        return;
      }
      if newPassword != confirmPassword {
        error := Some("New passwords do not match");
        return;
      }
      update := Some(PasswordUpdate(newPassword, currentPassword));
    }
  }
}
