/** What a failed zod `parse` reports, and the loop every form runs over it to
    build its error record: `formattedErrors[err.path[0]] = err.message`. */
module Zod {
  import opened Api

  /** One zod issue: the first element of its path and its message. */
  datatype Issue = Issue(path: string, message: string)

  /** `[]` when the check passes, else the one issue it raises. */
  function Check(ok: bool, path: string, message: string): (r: seq<Issue>)
    ensures r == [] <==> ok
  {
    if ok then [] else [Issue(path, message)]
  }

  /** No issue after index `i` has the same path as issue `i`. */
  predicate LastForPath(issues: seq<Issue>, i: int)
    requires 0 <= i < |issues|
  {
    forall j :: i < j < |issues| ==> issues[j].path != issues[i].path
  }

  /** `errors` is the record the loop builds: one key per path, holding the message
      of the last issue with that path. */
  predicate IsErrorMap(issues: seq<Issue>, errors: map<string, string>) {
    && errors.Keys == (set i | 0 <= i < |issues| :: issues[i].path)
    && forall i :: 0 <= i < |issues| && LastForPath(issues, i) ==> errors[issues[i].path] == issues[i].message
  }

  method FormatErrors(issues: seq<Issue>) returns (errors: map<string, string>)
    ensures IsErrorMap(issues, errors)
  {
    errors := map[];
    for n := 0 to |issues|
      invariant errors.Keys == (set i | 0 <= i < n :: issues[i].path)
      invariant forall i :: 0 <= i < n && (forall j :: i < j < n ==> issues[j].path != issues[i].path)
                  ==> errors[issues[i].path] == issues[i].message
    {
      errors := errors[issues[n].path := issues[n].message];
    }
  }

  /** The record is determined by the issues: there is only one. */
  lemma {:induction false} ErrorMapUnique(issues: seq<Issue>, e1: map<string, string>, e2: map<string, string>)
    requires IsErrorMap(issues, e1) && IsErrorMap(issues, e2)
    ensures e1 == e2
  {
    forall k | k in e1
      ensures e1[k] == e2[k]
    {
      var i := LastIndexOf(issues, k);
    }
  }

  /** The index of the last issue whose path is `k`, for a `k` that some issue has. */
  lemma {:induction false} LastIndexOf(issues: seq<Issue>, k: string) returns (i: int)
    requires k in (set i | 0 <= i < |issues| :: issues[i].path)
    ensures 0 <= i < |issues| && issues[i].path == k && LastForPath(issues, i)
  {
    var n := |issues| - 1;
    if issues[n].path == k {
      i := n;
    } else {
      var w :| 0 <= w < |issues| && issues[w].path == k;
      assert issues[..n][w].path == k;
      i := LastIndexOf(issues[..n], k);
      assert issues[..n][i] == issues[i];
    }
  }

  /** An empty issue list gives an empty record, and only it does. */
  lemma NoIssuesNoErrors(issues: seq<Issue>, errors: map<string, string>)
    requires IsErrorMap(issues, errors)
    ensures errors == map[] <==> issues == []
  {
    if issues != [] {
      assert issues[0].path in errors.Keys;
    }
  }

  /** The message a form shows for `p`: that of the last issue on `p`, if any. */
  function MessageFor(issues: seq<Issue>, p: string): Option<string>
    decreases |issues|
  {
    if issues == [] then None
    else if issues[|issues| - 1].path == p then Some(issues[|issues| - 1].message)
    else MessageFor(issues[..|issues| - 1], p)
  }

  /** Issues raised later override earlier ones on the same path. */
  lemma {:induction false} MessageForAppend(a: seq<Issue>, b: seq<Issue>, p: string)
    ensures MessageFor(a + b, p) == if MessageFor(b, p).Some? then MessageFor(b, p) else MessageFor(a, p)
    decreases |b|
  {
    if b == [] {
      assert a + b == a;
    } else {
      var n := |b| - 1;
      assert (a + b)[..|a + b| - 1] == a + b[..n];
      if b[n].path != p {
        MessageForAppend(a, b[..n], p);
      }
    }
  }

  lemma {:induction false} MessageForSome(issues: seq<Issue>, p: string)
    requires MessageFor(issues, p).Some?
    ensures p in (set i | 0 <= i < |issues| :: issues[i].path)
    decreases |issues|
  {
    var n := |issues| - 1;
    if issues[n].path != p {
      MessageForSome(issues[..n], p);
      var w :| 0 <= w < n && issues[..n][w].path == p;
      assert issues[w].path == p;
    }
  }

  lemma {:induction false} MessageForLast(issues: seq<Issue>, i: int)
    requires 0 <= i < |issues| && LastForPath(issues, i)
    ensures MessageFor(issues, issues[i].path) == Some(issues[i].message)
    decreases |issues|
  {
    var n := |issues| - 1;
    if i != n {
      assert issues[..n][i] == issues[i];
      MessageForLast(issues[..n], i);
    }
  }

  /** The record the loop builds shows, for each path, exactly `MessageFor`. */
  lemma ErrorMapMessages(issues: seq<Issue>, errors: map<string, string>, p: string)
    requires IsErrorMap(issues, errors)
    ensures p in errors <==> MessageFor(issues, p).Some?
    ensures p in errors ==> errors[p] == MessageFor(issues, p).value
  {
    if p in errors {
      var i := LastIndexOf(issues, p);
      MessageForLast(issues, i);
    } else if MessageFor(issues, p).Some? {
      MessageForSome(issues, p);
    }
  }

  /** `MessageForAppend` across the groups of a schema with up to five fields or
      refinements, the latest group with a message for `p` winning. */
  lemma MessageForGroups(a: seq<Issue>, b: seq<Issue>, c: seq<Issue>, d: seq<Issue>, e: seq<Issue>, p: string)
    ensures MessageFor(a + b + c + d + e, p) ==
      if MessageFor(e, p).Some? then MessageFor(e, p)
      else if MessageFor(d, p).Some? then MessageFor(d, p)
      else if MessageFor(c, p).Some? then MessageFor(c, p)
      else if MessageFor(b, p).Some? then MessageFor(b, p)
      else MessageFor(a, p)
  {
    MessageForAppend(a + b + c + d, e, p);
    MessageForAppend(a + b + c, d, p);
    MessageForAppend(a + b, c, p);
    MessageForAppend(a, b, p);
  }

  lemma MessageForCheck(ok: bool, q: string, m: string, p: string)
    ensures MessageFor(Check(ok, q, m), p) == if !ok && p == q then Some(m) else None
  {
  }
}
