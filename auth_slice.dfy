/** The `auth` slice of the Redux store: who is signed in, whether the session
    counts as logged in, and whether the OTP modal is open. Its reducers update the
    slice in place. */
module AuthSlice {
  import opened Api

  /** `Auth_User`. */
  datatype AuthUser = AuthUser(id: string, name: string, email: string, profilePicture: string, accessToken: string)

  class AuthState {
    var currentUser: Option<AuthUser>
    var isLoggedIn: bool
    var isSetOtpModelOpen: bool

    /** The slice's `initialState`. */
    predicate IsInitial()
      reads this
    {
      currentUser == None && !isLoggedIn && !isSetOtpModelOpen
    }

    /** Kept by every reducer use in the app: a logged-in session has a user. */
    predicate LoggedInHasUser()
      reads this
    {
      isLoggedIn ==> currentUser.Some?
    }

    constructor ()
      ensures IsInitial()
    {
      currentUser := None;
      isLoggedIn := false;
      isSetOtpModelOpen := false;
    }

    /** `setCredentials(user)`: replaces the current user, nothing else. */
    method SetCredentials(user: AuthUser)
      modifies this
      ensures currentUser == Some(user)
      ensures isLoggedIn == old(isLoggedIn) && isSetOtpModelOpen == old(isSetOtpModelOpen)
    {
      currentUser := Some(user);
    }

    /** `setUserLoggeIn(flag)`: sets the logged-in flag, nothing else. */
    method SetUserLoggedIn(flag: bool)
      modifies this
      ensures isLoggedIn == flag
      ensures currentUser == old(currentUser) && isSetOtpModelOpen == old(isSetOtpModelOpen)
    {
      isLoggedIn := flag;
    }

    /** `setIsSetOtpModelOpen(flag)`: sets the OTP-modal flag, nothing else. */
    method SetIsSetOtpModelOpen(flag: bool)
      modifies this
      ensures isSetOtpModelOpen == flag
      ensures currentUser == old(currentUser) && isLoggedIn == old(isLoggedIn)
    {
      isSetOtpModelOpen := flag;
    }

    /** `setLogout()`: back to the initial state from any state, so applying it
        twice is the same as applying it once. */
    method SetLogout()
      modifies this
      ensures IsInitial()
    {
      currentUser := None;
      isLoggedIn := false;
      isSetOtpModelOpen := false;
    }

    /** `setProfilePicture(url)`: with a user, changes only that user's picture;
        without one, changes nothing. */
    method SetProfilePicture(url: string)
      modifies this
      ensures old(currentUser).None? ==> currentUser == None
      ensures old(currentUser).Some? ==> currentUser == Some(old(currentUser).value.(profilePicture := url))
      ensures isLoggedIn == old(isLoggedIn) && isSetOtpModelOpen == old(isSetOtpModelOpen)
      ensures old(LoggedInHasUser()) ==> LoggedInHasUser()
    {
      if currentUser.Some? {
        currentUser := Some(currentUser.value.(profilePicture := url));
      }
    }
  }
}
