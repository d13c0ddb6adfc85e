/** The regular expression `/\S+@\S+\.\S+/` that the form components test email
    addresses against. It is not anchored: a match anywhere in the text passes. */
module EmailPattern {
  import opened Text

  /** The pattern matches with its `@` at `at` and its `.` at `dot`: one non-space
      character before the `@`, a non-empty non-space run between `@` and `.`, and a
      non-space character after the `.` (a longer `\S+` only adds more of the same). */
  predicate MatchesAt(s: string, at: int, dot: int) {
    && 0 < at && at + 1 < dot && dot + 1 < |s|
    && s[at] == '@' && s[dot] == '.'
    && !IsSpace(s[at - 1]) && !IsSpace(s[dot + 1])
    && forall m :: at < m < dot ==> !IsSpace(s[m])
  }

  /** `/\S+@\S+\.\S+/.test(s)`. */
  ghost predicate Matches(s: string) {
    exists at, dot :: MatchesAt(s, at, dot)
  }

  /** Scans the non-space run after the `@` at `at`, from `k` on, for a `.` that the
      pattern can use. */
  function DotFrom(s: string, at: int, k: int): (b: bool)
    requires 0 < at < k <= |s| && s[at] == '@' && !IsSpace(s[at - 1])
    requires forall m :: at < m < k ==> !IsSpace(s[m])
    ensures b <==> exists dot :: k <= dot && MatchesAt(s, at, dot)
    decreases |s| - k
  {
    if k == |s| || IsSpace(s[k]) then
      false
    else if s[k] == '.' && at + 1 < k && k + 1 < |s| && !IsSpace(s[k + 1]) then
      assert MatchesAt(s, at, k);
      true
    else
      DotFrom(s, at, k + 1)
  }

  /** Tries each `@` from position `i` on. */
  function AtFrom(s: string, i: nat): (b: bool)
    requires i <= |s|
    ensures b <==> exists at, dot :: i <= at && MatchesAt(s, at, dot)
    decreases |s| - i
  {
    if i == |s| then false
    else
      (s[i] == '@' && 0 < i && !IsSpace(s[i - 1]) && i + 1 <= |s| && DotFrom(s, i, i + 1))
      || AtFrom(s, i + 1)
  }

  /** Decides the pattern. */
  function LooksLikeEmail(s: string): (b: bool)
    ensures b <==> Matches(s)
  {
    AtFrom(s, 0)
  }
}
