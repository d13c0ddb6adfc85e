/** The base query every API endpoint goes through: it attaches the stored access
    token as a bearer header, and when a call fails because that token is no longer
    valid it asks `/refresh` once for a new token and, if one comes back, stores it
    and repeats the call once. */
module EntryApi {
  import opened Api
  import Browser

  const TokenKey := "accessToken"
  const RefreshEndpoint := "/refresh"

  /** One request handed to the transport: the endpoint (or fetch arguments) and
      the `authorization` header it carries, if any. */
  datatype Request = Request(args: string, authorization: Option<string>)

  /** The settled result of one base query: `{ data }` or `{ error }`. A `data` that
      is `null` (an empty response body) is `Data(None)`. */
  datatype QueryResult = Data(body: Option<map<string, string>>) | Error(error: ApiError)

  /** `refreshResult.data` is truthy: a result that carries a response object. */
  predicate HasData(r: QueryResult) {
    r.Data? && r.body.Some?
  }

  /** `prepareHeaders`: a header is attached iff a non-empty token is stored,
      and it then carries exactly that token. */
  function AuthHeader(items: map<string, string>): (h: Option<string>)
    ensures h.Some? <==> TokenKey in items && items[TokenKey] != ""
    ensures h.Some? ==> h.value == "Bearer " + items[TokenKey]
  {
    if TokenKey in items && items[TokenKey] != "" then Some("Bearer " + items[TokenKey]) else None
  }

  predicate HasCode(r: QueryResult, code: string) {
    && r.Error?
    && r.error.status == Http(401)
    && r.error.data.Some?
    && r.error.data.value.errorCode == Some(code)
  }

  /** The one failure that starts a refresh: 401 with code `InvalidAccessToken`. */
  predicate NeedsRefresh(r: QueryResult) {
    HasCode(r, "InvalidAccessToken")
  }

  /** A 401 for a suspended account; handling it is an unimplemented TODO. */
  predicate IsSuspended(r: QueryResult) {
    HasCode(r, "AccountSuspended")
  }

  /** `refreshResult.data.accessToken`, stored through `setItem`, which turns a
      missing field into the text "undefined". */
  function NewToken(body: map<string, string>): string {
    if TokenKey in body then body[TokenKey] else "undefined"
  }

  /** What one call of the wrapper did: its result, the token store afterwards and
      the base queries it issued, in order. */
  datatype Run = Run(result: QueryResult, items: map<string, string>, requests: seq<Request>)

  /** The wrapper's decision procedure, for a store `items` and a transport that
      answers the k-th request with `server(k)`, `n` requests having gone before. */
  function Reauth(args: string, items: map<string, string>, server: nat -> QueryResult, n: nat): Run
  {
    var first := server(n);
    var call := Request(args, AuthHeader(items));
    if !NeedsRefresh(first) then
      Run(first, items, [call])
    else
      var refresh := Request(RefreshEndpoint, AuthHeader(items));
      var refreshed := server(n + 1);
      if HasData(refreshed) then
        var items' := items[TokenKey := NewToken(refreshed.body.value)];
        Run(server(n + 2), items', [call, refresh, Request(args, AuthHeader(items'))])
      else
        Run(first, items, [call, refresh])
  }

  /** The API client: the token store it shares with the rest of the app, a scripted
      transport, and the log of base queries issued so far. */
  class ApiClient {
    const storage: Browser.LocalStorage
    const server: nat -> QueryResult
    var sent: seq<Request>

    constructor (storage: Browser.LocalStorage, server: nat -> QueryResult)
      ensures this.storage == storage && this.server == server && sent == []
    {
      this.storage := storage;
      this.server := server;
      sent := [];
    }

    /** `baseQuery(args)`: headers prepared from the current store, one request sent. */
    method BaseQuery(args: string) returns (r: QueryResult)
      modifies this
      ensures sent == old(sent) + [Request(args, AuthHeader(storage.items))]
      ensures r == server(|old(sent)|)
    {
      r := server(|sent|);
      sent := sent + [Request(args, AuthHeader(storage.items))];
    }

    /** `baseQueryWithReauth(args)`. */
    method BaseQueryWithReauth(args: string) returns (result: QueryResult)
      modifies this, storage
      ensures var run := Reauth(args, old(storage.items), server, |old(sent)|);
              result == run.result && storage.items == run.items && sent == old(sent) + run.requests
    {
      result := BaseQuery(args);
      var error := result;
      if NeedsRefresh(error) {
        var refreshResult := BaseQuery(RefreshEndpoint);
        if HasData(refreshResult) {
          storage.SetItem(TokenKey, NewToken(refreshResult.body.value));
          result := BaseQuery(args);
        } else {
          // The upstream logout on a failed refresh is a TODO: nothing happens.
        }
      }
      if IsSuspended(error) {
        // The upstream logout for a suspended account is a TODO: nothing happens.
      }
    }
  }

  /** A refresh is attempted iff the first result is a 401 `InvalidAccessToken`;
      the refresh goes out with the same header as the first request. */
  lemma RefreshIffInvalidToken(args: string, items: map<string, string>, server: nat -> QueryResult, n: nat)
    ensures var run := Reauth(args, items, server, n);
            (|run.requests| > 1 <==> NeedsRefresh(server(n)))
            && (|run.requests| > 1 ==> run.requests[1] == Request(RefreshEndpoint, AuthHeader(items)))
  {
  }

  /** At most three base queries per call: the original, one refresh and one retry
      of the same arguments; never a second retry. */
  lemma AtMostThreeRequests(args: string, items: map<string, string>, server: nat -> QueryResult, n: nat)
    ensures var run := Reauth(args, items, server, n);
            1 <= |run.requests| <= 3
            && run.requests[0] == Request(args, AuthHeader(items))
            && (|run.requests| == 3 ==> run.requests[2].args == args)
  {
  }

  /** A first result that is a success, or any failure other than an expired token,
      is returned unchanged after exactly one request, with the store untouched. */
  lemma PassThrough(args: string, items: map<string, string>, server: nat -> QueryResult, n: nat)
    requires !NeedsRefresh(server(n))
    ensures Reauth(args, items, server, n) == Run(server(n), items, [Request(args, AuthHeader(items))])
  {
  }

  /** After a successful refresh the stored token is the refreshed one, the retry
      carries it, and the retry's result is returned, whatever it is. */
  lemma RefreshSuccessRetriesWithNewToken(args: string, items: map<string, string>, server: nat -> QueryResult, n: nat)
    requires NeedsRefresh(server(n)) && HasData(server(n + 1))
    ensures var run := Reauth(args, items, server, n);
            var token := NewToken(server(n + 1).body.value);
            && run.items == items[TokenKey := token]
            && run.result == server(n + 2)
            && |run.requests| == 3
            && run.requests[2].authorization == (if token == "" then None else Some("Bearer " + token))
  {
  }

  /** A refresh that fails, or succeeds with a `null` body, returns the original
      failure and leaves the store alone. */
  lemma RefreshFailureKeepsOriginal(args: string, items: map<string, string>, server: nat -> QueryResult, n: nat)
    requires NeedsRefresh(server(n)) && !HasData(server(n + 1))
    ensures var run := Reauth(args, items, server, n);
            run.result == server(n) && run.items == items && |run.requests| == 2
  {
  }

  /** A suspended account's 401 starts no refresh and changes nothing. */
  lemma SuspendedBypassesRefresh(args: string, items: map<string, string>, server: nat -> QueryResult, n: nat)
    requires IsSuspended(server(n))
    ensures var run := Reauth(args, items, server, n);
            run.result == server(n) && run.items == items && |run.requests| == 1
  {
  }
}
