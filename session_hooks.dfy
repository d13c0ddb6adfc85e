/** `handleLogin`: on success, signs the user in and stores their access token. */
module LoginHook {
  import opened Api
  import opened AuthSlice
  import Browser
  import EntryApi

  /** The login endpoint's answer: `{ message, response }`. */
  datatype LoginResponse = LoginResponse(message: string, response: AuthUser)

  method HandleLogin(auth: AuthState, storage: Browser.LocalStorage, reply: Reply<LoginResponse>)
    returns (toast: Option<Toast>, navigateTo: Option<string>, completion: Completion)
    modifies auth, storage
    ensures reply.Ok? ==>
      && auth.currentUser == Some(reply.value.response)
      && auth.isLoggedIn
      && auth.isSetOtpModelOpen == old(auth.isSetOtpModelOpen)
      && storage.items == old(storage.items)[EntryApi.TokenKey := reply.value.response.accessToken]
      && toast == Some(SuccessToast(if reply.value.message != "" then reply.value.message else "Login successfull"))
      && navigateTo == Some("/")
      && completion == Normal
    ensures reply.Failed? ==>
      && unchanged(auth) && unchanged(storage)
      && navigateTo == None
      && (toast, completion) == CatchMessage(reply.error)
    ensures old(auth.LoggedInHasUser()) ==> auth.LoggedInHasUser()
  {
    match reply
    case Ok(response) =>
      auth.SetCredentials(response.response);
      auth.SetUserLoggedIn(true);
      storage.SetItem(EntryApi.TokenKey, response.response.accessToken);
      toast := Some(SuccessToast(if response.message != "" then response.message else "Login successfull"));
      navigateTo := Some("/");
      completion := Normal;
    case Failed(err) =>
      navigateTo := None;
      var failure := CatchMessage(err);
      toast, completion := failure.0, failure.1;
  }
}

/** `handleLogout`: on success, clears the auth slice and the stored token. */
module LogoutHook {
  import opened Api
  import opened AuthSlice
  import Browser
  import EntryApi

  method HandleLogout(auth: AuthState, storage: Browser.LocalStorage, reply: Reply<()>)
    returns (toast: Option<Toast>, completion: Completion)
    modifies auth, storage
    ensures reply.Ok? ==>
      && auth.IsInitial()
      && storage.items == old(storage.items) - {EntryApi.TokenKey}
      && toast == None && completion == Normal
    ensures reply.Failed? ==>
      && unchanged(auth) && unchanged(storage)
      && (toast, completion) == CatchMessageOrGeneric(reply.error)
    ensures old(auth.LoggedInHasUser()) ==> auth.LoggedInHasUser()
  {
    if reply.Ok? {
      auth.SetLogout();
      storage.RemoveItem(EntryApi.TokenKey);
      toast, completion := None, Normal;
    } else {
      var failure := CatchMessageOrGeneric(reply.error);
      toast, completion := failure.0, failure.1;
    }
  }

  const LogoutEndpoint := "/logout"

  /** `handleLogout` with its request sent through the re-authenticating base query:
      the hook sees the wrapper's final answer, and any token the wrapper stored on
      the way stays stored when that answer is a failure. */
  method LogoutThroughWrapper(auth: AuthState, client: EntryApi.ApiClient)
    returns (toast: Option<Toast>, completion: Completion)
    modifies auth, client, client.storage
    ensures var run := EntryApi.Reauth(LogoutEndpoint, old(client.storage.items), client.server, |old(client.sent)|);
      && client.sent == old(client.sent) + run.requests
      && (run.result.Data? ==>
            auth.IsInitial() && client.storage.items == run.items - {EntryApi.TokenKey}
            && toast == None && completion == Normal)
      && (run.result.Error? ==>
            unchanged(auth) && client.storage.items == run.items
            && (toast, completion) == CatchMessageOrGeneric(run.result.error))
  {
    var result := client.BaseQueryWithReauth(LogoutEndpoint);
    var reply: Reply<()> := if result.Data? then Ok(()) else Failed(result.error);
    toast, completion := HandleLogout(auth, client.storage, reply);
  }

  /** A logged-in user whose token has expired logs out; `/refresh` succeeds and the
      retried `/logout` fails with a 500. The user stays logged in, and the store now
      holds the refreshed token. */
  method FailedLogoutKeepsRefreshedToken() returns (stored: Option<string>, loggedIn: bool)
    ensures stored == Some("fresh") && loggedIn
  {
    var auth := new AuthState();
    auth.SetCredentials(AuthUser("u1", "Ann", "ann@example.com", "", "expired"));
    auth.SetUserLoggedIn(true);
    var storage := new Browser.LocalStorage(map[EntryApi.TokenKey := "expired"]);
    var server := (k: nat) =>
      if k == 0 then EntryApi.Error(ApiError(Http(401), Some(ErrorBody(None, Some("InvalidAccessToken")))))
      else if k == 1 then EntryApi.Data(Some(map[EntryApi.TokenKey := "fresh"]))
      else EntryApi.Error(ApiError(Http(500), Some(ErrorBody(None, None))));
    var client := new EntryApi.ApiClient(storage, server);
    var toast, completion := LogoutThroughWrapper(auth, client);
    stored := storage.GetItem(EntryApi.TokenKey);
    loggedIn := auth.isLoggedIn;
  }
}

/** `handleSignUp`: on success, keeps a snapshot of the new user for OTP
    confirmation. It has no access to the auth slice. */
module SignUpHook {
  import opened Api
  import opened AuthSlice
  import Browser
  import Json

  const UserKey := "user"

  /** The registration endpoint's answer: `{ message, response }`. */
  datatype SignUpResponse = SignUpResponse(message: string, response: AuthUser)

  method HandleSignUp(storage: Browser.LocalStorage, reply: Reply<SignUpResponse>)
    returns (toast: Option<Toast>, navigateTo: Option<string>, completion: Completion)
    modifies storage
    ensures reply.Ok? ==>
      && storage.items == old(storage.items)[UserKey := Json.EncodeUser(reply.value.response)]
      && toast == Some(SuccessToast(reply.value.message))
      && navigateTo == Some("/otp")
      && completion == Normal
    ensures reply.Failed? ==>
      && unchanged(storage)
      && navigateTo == None
      && (toast, completion) == CatchMessageOrGeneric(reply.error)
  {
    match reply
    case Ok(response) =>
      toast := Some(SuccessToast(response.message));
      storage.SetItem(UserKey, Json.EncodeUser(response.response));
      navigateTo := Some("/otp");
      completion := Normal;
    case Failed(err) =>
      navigateTo := None;
      var failure := CatchMessageOrGeneric(err);
      toast, completion := failure.0, failure.1;
  }
}

/** `handleOtpVerification`: reads the sign-up snapshot, sends the code with the
    snapshot's `_id`, and on success signs that user in. */
module OtpHook {
  import opened Api
  import opened AuthSlice
  import Browser
  import Json
  import SignUpHook
  import EntryApi

  const MissingUser := "User information is missing. Please login again."

  /** The body sent to `/otp-verification`. */
  datatype OtpRequest = OtpRequest(code: string, userId: string)

  /** The snapshot the handler would send for: `None` when "user" is absent or empty. */
  function StoredUser(items: map<string, string>): Option<string> {
    if SignUpHook.UserKey in items && items[SignUpHook.UserKey] != "" then Some(items[SignUpHook.UserKey]) else None
  }

  method HandleOtpVerification(auth: AuthState, storage: Browser.LocalStorage, code: string, reply: Reply<string>)
    returns (request: Option<OtpRequest>, toast: Option<Toast>, navigateTo: Option<string>, completion: Completion)
    modifies auth
    ensures unchanged(storage)
    ensures StoredUser(storage.items).None? ==>
      && unchanged(auth) && request == None && navigateTo == None
      && toast == Some(ErrorToast(MissingUser)) && completion == Normal
    ensures StoredUser(storage.items).Some? && Json.DecodeUser(StoredUser(storage.items).value).None? ==>
      && unchanged(auth) && request == None && navigateTo == None && toast == None && completion == Threw
    ensures StoredUser(storage.items).Some? && Json.DecodeUser(StoredUser(storage.items).value).Some? ==>
      var user := Json.DecodeUser(StoredUser(storage.items).value).value;
      && request == Some(OtpRequest(code, user.id))
      && completion == Normal
      && (reply.Ok? ==>
            && auth.currentUser == Some(user) && auth.isLoggedIn
            && auth.isSetOtpModelOpen == old(auth.isSetOtpModelOpen)
            && toast == Some(SuccessToast(reply.value)) && navigateTo == Some("/"))
      && (reply.Failed? ==>
            && unchanged(auth) && navigateTo == None
            && toast == (if ServerMessage(reply.error).Some? then Some(ErrorToast(ServerMessage(reply.error).value)) else None))
    ensures old(auth.LoggedInHasUser()) ==> auth.LoggedInHasUser()
  {
    request, toast, navigateTo, completion := None, None, None, Normal;
    var userString := storage.GetItem(SignUpHook.UserKey);
    if userString.None? || userString.value == "" {
      toast := Some(ErrorToast(MissingUser));
      return;
    }
    var parsed := Json.DecodeUser(userString.value);
    if parsed.None? {
      // `JSON.parse` throws outside the `try`.
      completion := Threw;
      return;
    }
    var user := parsed.value;
    request := Some(OtpRequest(code, user.id));
    match reply
    case Ok(message) =>
      auth.SetCredentials(user);
      auth.SetUserLoggedIn(true);
      toast := Some(SuccessToast(message));
      navigateTo := Some("/");
    case Failed(err) =>
      var m := ServerMessage(err);
      if m.Some? {
        toast := Some(ErrorToast(m.value));
      }
  }

  /** Registering and then confirming the code signs in exactly the user the server
      registered, without storing an access token on the way. */
  method SignUpThenConfirm(auth: AuthState, storage: Browser.LocalStorage, signUp: SignUpHook.SignUpResponse,
                           code: string, confirm: Reply<string>)
    returns (request: Option<OtpRequest>)
    modifies auth, storage
    ensures request == Some(OtpRequest(code, signUp.response.id))
    ensures confirm.Ok? ==> auth.currentUser == Some(signUp.response) && auth.isLoggedIn
    ensures confirm.Failed? ==> unchanged(auth)
    ensures storage.items == old(storage.items)[SignUpHook.UserKey := Json.EncodeUser(signUp.response)]
  {
    var toast, navigateTo, completion := SignUpHook.HandleSignUp(storage, Ok(signUp));
    Json.DecodeEncode(signUp.response);
    assert StoredUser(storage.items) == Some(Json.EncodeUser(signUp.response));
    request, toast, navigateTo, completion := HandleOtpVerification(auth, storage, code, confirm);
  }
}
