/** The three Python string builtins the configuration endpoint relies on:
    `str.strip()`, `str.rstrip("/")` and `str.startswith(prefix)`. */
module StringOps {

  /** The characters Python's `str.isspace` accepts, which are exactly the
      characters `str.strip()` with no argument removes. */
  predicate IsWhitespace(c: char) {
    c == ' ' || ('\t' <= c <= '\r') || ('\U{1c}' <= c <= '\U{1f}') ||
    c == '\U{85}' || c == '\U{a0}' || c == '\U{1680}' ||
    ('\U{2000}' <= c <= '\U{200a}') || c == '\U{2028}' || c == '\U{2029}' ||
    c == '\U{202f}' || c == '\U{205f}' || c == '\U{3000}'
  }

  predicate AllWhitespace(s: string) {
    forall k :: 0 <= k < |s| ==> IsWhitespace(s[k])
  }

  predicate StartsWith(s: string, prefix: string) {
    |prefix| <= |s| && s[..|prefix|] == prefix
  }

  /** The first index at or after `i` whose character is not whitespace, or
      |s| when there is none. */
  function SkipWhitespace(s: string, i: nat): (r: nat)
    requires i <= |s|
    ensures i <= r <= |s|
    ensures forall k :: i <= k < r ==> IsWhitespace(s[k])
    ensures r < |s| ==> !IsWhitespace(s[r])
    decreases |s| - i
  {
    if i < |s| && IsWhitespace(s[i]) then SkipWhitespace(s, i + 1) else i
  }

  /** Scanning down from `j` but not below `lo`: the index just past the last
      character that is not whitespace, or `lo` when there is none. */
  function SkipWhitespaceBack(s: string, lo: nat, j: nat): (r: nat)
    requires lo <= j <= |s|
    ensures lo <= r <= j
    ensures forall k :: r <= k < j ==> IsWhitespace(s[k])
    ensures lo < r ==> !IsWhitespace(s[r - 1])
    decreases j
  {
    if lo < j && IsWhitespace(s[j - 1]) then SkipWhitespaceBack(s, lo, j - 1) else j
  }

  /** Where the stripped text starts in `s`. */
  function StripOffset(s: string): (i: nat)
    ensures i <= |s|
  {
    SkipWhitespace(s, 0)
  }

  /** `s.strip()`: the slice of `s` left once the whitespace on both sides is
      gone. Everything outside the slice is whitespace, the slice neither
      starts nor ends with whitespace, and it is empty exactly when `s` holds
      nothing but whitespace. */
  function Strip(s: string): (r: string)
    ensures StripOffset(s) + |r| <= |s| && r == s[StripOffset(s)..StripOffset(s) + |r|]
    ensures forall k :: 0 <= k < StripOffset(s) ==> IsWhitespace(s[k])
    ensures forall k :: StripOffset(s) + |r| <= k < |s| ==> IsWhitespace(s[k])
    ensures r != [] ==> !IsWhitespace(r[0]) && !IsWhitespace(r[|r| - 1])
    ensures r == [] <==> AllWhitespace(s)
  {
    var i := SkipWhitespace(s, 0);
    s[i..SkipWhitespaceBack(s, i, |s|)]
  }

  /** The forward scan stops exactly at the first non-whitespace character. */
  lemma {:induction false} SkipWhitespaceAt(s: string, i0: nat, i: nat)
    requires i0 <= i <= |s|
    requires forall k :: i0 <= k < i ==> IsWhitespace(s[k])
    requires i < |s| ==> !IsWhitespace(s[i])
    ensures SkipWhitespace(s, i0) == i
    decreases i - i0
  {
    if i0 < i {
      SkipWhitespaceAt(s, i0 + 1, i);
    }
  }

  /** The backward scan stops exactly after the last non-whitespace character. */
  lemma {:induction false} SkipWhitespaceBackAt(s: string, lo: nat, j0: nat, j: nat)
    requires lo <= j <= j0 <= |s|
    requires forall k :: j <= k < j0 ==> IsWhitespace(s[k])
    requires lo < j ==> !IsWhitespace(s[j - 1])
    ensures SkipWhitespaceBack(s, lo, j0) == j
    decreases j0
  {
    if j < j0 {
      SkipWhitespaceBackAt(s, lo, j0 - 1, j);
    }
  }

  /** Strip is the only way to cut a whitespace-only prefix and suffix off `s`
      so that what remains neither starts nor ends with whitespace. */
  lemma StripUnique(s: string, i: nat, j: nat)
    requires i <= j <= |s|
    requires forall k :: 0 <= k < i ==> IsWhitespace(s[k])
    requires forall k :: j <= k < |s| ==> IsWhitespace(s[k])
    requires i < j ==> !IsWhitespace(s[i]) && !IsWhitespace(s[j - 1])
    ensures Strip(s) == s[i..j]
  {
    if i == j {
      SkipWhitespaceAt(s, 0, |s|);
      SkipWhitespaceBackAt(s, |s|, |s|, |s|);
    } else {
      SkipWhitespaceAt(s, 0, i);
      SkipWhitespaceBackAt(s, i, |s|, j);
    }
  }

  /** `s.rstrip("/")`: drops every trailing '/' and nothing else. */
  function TrimTrailingSlashes(s: string): (r: string)
    ensures |r| <= |s| && r == s[..|r|]
    ensures forall k :: |r| <= k < |s| ==> s[k] == '/'
    ensures r == [] || r[|r| - 1] != '/'
  {
    if s != [] && s[|s| - 1] == '/' then TrimTrailingSlashes(s[..|s| - 1]) else s
  }

  /** Removing trailing slashes never reaches back past a character that is
      not '/': everything up to and including it survives. */
  lemma {:induction false} TrimTrailingSlashesKeeps(s: string, n: nat)
    requires 0 < n <= |s| && s[n - 1] != '/'
    ensures n <= |TrimTrailingSlashes(s)| && TrimTrailingSlashes(s)[..n] == s[..n]
  {
    if |s| > n && s[|s| - 1] == '/' {
      TrimTrailingSlashesKeeps(s[..|s| - 1], n);
    }
  }
}
