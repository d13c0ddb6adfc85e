/** What a server call can come back with, as the hooks see it after `unwrap()`,
    and the notifications the hooks raise. */
module Api {

  datatype Option<+T> = None | Some(value: T)

  /** The JSON error body the back end sends: `{ message, errorCode }`, either field
      possibly missing. */
  datatype ErrorBody = ErrorBody(message: Option<string>, errorCode: Option<string>)

  /** `FetchBaseQueryError.status`: an HTTP status, or one of the library's
      non-HTTP failure kinds (no response, unparsable body, timeout, custom). */
  datatype Status = Http(code: int) | FetchError | ParsingError | TimeoutError | CustomError

  /** The rejected value of `unwrap()`: a status and, for HTTP failures, the body. */
  datatype ApiError = ApiError(status: Status, data: Option<ErrorBody>)

  /** The settled outcome of one awaited call. */
  datatype Reply<+T> = Ok(value: T) | Failed(error: ApiError)

  /** A JavaScript string value is truthy iff it is present and non-empty. */
  predicate Truthy(s: Option<string>) {
    s.Some? && s.value != ""
  }

  /** `err.data?.message` used as a condition: the server's message when there is one. */
  function ServerMessage(e: ApiError): (m: Option<string>)
    ensures m.Some? <==> e.data.Some? && Truthy(e.data.value.message)
    ensures m.Some? ==> m.value != "" && Some(m.value) == e.data.value.message
  {
    if e.data.Some? && Truthy(e.data.value.message) then e.data.value.message else None
  }

  /** The bodies of the login and registration requests. */
  datatype AuthLoginData = AuthLoginData(email: string, password: string)
  datatype AuthFormInputs = AuthFormInputs(name: string, email: string, password: string, confirmPassword: string)

  /** `toast.success(...)` / `toast.error(...)`. */
  datatype Toast = SuccessToast(text: string) | ErrorToast(text: string)

  /** How an async handler ended: normally, or by throwing out of its `catch`
      block (a `TypeError` from reading `err.data.message` when `data` is absent). */
  datatype Completion = Normal | Threw

  const GenericError := "Something unexpected error happened. Please try it again."

  /** A `catch` block that reads `err.data.message` without `?.` and toasts it when
      truthy: a `TypeError` (`Threw`) when the error has no body. */
  function CatchMessage(e: ApiError): (r: (Option<Toast>, Completion))
    ensures e.data.None? ==> r == (None, Threw)
    ensures e.data.Some? ==> r.1 == Normal
    ensures e.data.Some? ==> (r.0.Some? <==> Truthy(e.data.value.message))
    ensures r.0.Some? ==> r.0 == Some(ErrorToast(e.data.value.message.value))
  {
    if e.data.None? then (None, Threw)
    else if Truthy(e.data.value.message) then (Some(ErrorToast(e.data.value.message.value)), Normal)
    else (None, Normal)
  }

  /** The same, falling back to the generic text when the body has no message. */
  function CatchMessageOrGeneric(e: ApiError): (r: (Option<Toast>, Completion))
    ensures e.data.None? ==> r == (None, Threw)
    ensures e.data.Some? && Truthy(e.data.value.message) ==> r == (Some(ErrorToast(e.data.value.message.value)), Normal)
    ensures e.data.Some? && !Truthy(e.data.value.message) ==> r == (Some(ErrorToast(GenericError)), Normal)
  {
    if e.data.None? then (None, Threw)
    else if Truthy(e.data.value.message) then (Some(ErrorToast(e.data.value.message.value)), Normal)
    else (Some(ErrorToast(GenericError)), Normal)
  }
}
