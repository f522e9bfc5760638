/** The pieces of Python's `str` that the composer uses: `isspace`, `strip`,
    `"sep".join(...)` and `c * n`. */
module Text {

  /** The characters for which Python's `str.isspace()` holds; `str.strip()`
      with no argument removes exactly these from both ends. */
  predicate IsSpace(c: char) {
    || c == ' '
    || ('\t' <= c <= '\r')
    || ('\U{1C}' <= c <= '\U{1F}')
    || c == '\U{85}' || c == '\U{A0}' || c == '\U{1680}'
    || ('\U{2000}' <= c <= '\U{200A}')
    || c == '\U{2028}' || c == '\U{2029}' || c == '\U{202F}' || c == '\U{205F}'
    || c == '\U{3000}'
  }

  /** Every character of `s` is whitespace (the empty string included). */
  predicate AllSpace(s: string) {
    forall k :: 0 <= k < |s| ==> IsSpace(s[k])
  }

  /** Every character of `s` at an index in `[i, j)` is whitespace. */
  predicate SpaceBetween(s: string, i: nat, j: nat)
    requires i <= j <= |s|
  {
    forall k :: i <= k < j ==> IsSpace(s[k])
  }

  /** Two adjacent all-whitespace ranges form one. */
  lemma SpaceSplice(s: string, i: nat, m: nat, j: nat)
    requires i <= m <= j <= |s|
    requires SpaceBetween(s, i, m) && SpaceBetween(s, m, j)
    ensures SpaceBetween(s, i, j)
  {
  }

  /** The left scan of `str.strip()`: from index `i`, the first index whose
      character is not whitespace, or `|s|` when there is none. */
  function SkipLeft(s: string, i: nat): (j: nat)
    requires i <= |s|
    ensures i <= j <= |s| && SpaceBetween(s, i, j)
    ensures j == |s| || !IsSpace(s[j])
    decreases |s| - i
  {
    if i == |s| || !IsSpace(s[i]) then i else SkipLeft(s, i + 1)
  }

  /** The right scan of `str.strip()`: going down from index `j`, but not
      below `lo`, the index just after the last character that is not
      whitespace, or `lo` when there is none. */
  function SkipRight(s: string, lo: nat, j: nat): (i: nat)
    requires lo <= j <= |s|
    ensures lo <= i <= j && SpaceBetween(s, i, j)
    ensures i == lo || !IsSpace(s[i - 1])
    decreases j
  {
    if j == lo || !IsSpace(s[j - 1]) then j else SkipRight(s, lo, j - 1)
  }

  /** Where `Strip(s)` starts inside `s`. */
  function StripStart(s: string): (i: nat)
    ensures i <= |s|
  {
    SkipLeft(s, 0)
  }

  /** Where `Strip(s)` ends inside `s`. */
  function StripEnd(s: string): (j: nat)
    ensures StripStart(s) <= j <= |s|
  {
    SkipRight(s, StripStart(s), |s|)
  }

  /** `s.strip()`: the slice of `s` between two all-whitespace margins. It
      neither starts nor ends with whitespace, and it is empty exactly when `s`
      is all whitespace (so `if s.strip():` tests that `s` has a
      non-whitespace character). */
  function Strip(s: string): (r: string)
    ensures SpaceBetween(s, 0, StripStart(s)) && SpaceBetween(s, StripEnd(s), |s|)
    ensures r == [] || (!IsSpace(r[0]) && !IsSpace(r[|r| - 1]))
    ensures r == [] <==> AllSpace(s)
    ensures r == s[StripStart(s)..StripEnd(s)]
  {
    var i, j := StripStart(s), StripEnd(s);
    assert i < j ==> s[i..j][0] == s[i] && s[i..j][j - i - 1] == s[j - 1];
    assert i == j ==> SpaceBetween(s, 0, |s|) by {
      if i == j {
        SpaceSplice(s, 0, i, |s|);
      }
    }
    s[i..j]
  }

  /** Strip is pinned down by its contract: any slice of `s` with all-whitespace
      margins that is empty or starts and ends with a non-whitespace character is
      `Strip(s)`. */
  lemma StripUnique(s: string, i: nat, j: nat)
    requires i <= j <= |s|
    requires SpaceBetween(s, 0, i) && SpaceBetween(s, j, |s|)
    requires i == j || (!IsSpace(s[i]) && !IsSpace(s[j - 1]))
    ensures Strip(s) == s[i..j]
  {
    if i == j {
      SpaceSplice(s, 0, i, |s|);
    } else {
      assert StripStart(s) == i;
      assert StripEnd(s) == j;
    }
  }

  /** Strip keeps every non-whitespace character of `s`. */
  lemma StripKeeps(s: string, k: nat)
    requires k < |s| && !IsSpace(s[k])
    ensures StripStart(s) <= k < StripEnd(s)
    ensures Strip(s)[k - StripStart(s)] == s[k]
  {
  }

  /** Stripping twice strips no more than stripping once. */
  lemma StripIdempotent(s: string)
    ensures Strip(Strip(s)) == Strip(s)
  {
    var r := Strip(s);
    StripUnique(r, 0, |r|);
  }

  /** `sep.join(lines)`. */
  function Join(lines: seq<string>, sep: string): string
  {
    if |lines| == 0 then ""
    else if |lines| == 1 then lines[0]
    else lines[0] + sep + Join(lines[1..], sep)
  }

  /** Joining two non-empty lists puts one separator between their joins. */
  lemma {:induction false} JoinAppend(a: seq<string>, b: seq<string>, sep: string)
    requires a != [] && b != []
    ensures Join(a + b, sep) == Join(a, sep) + sep + Join(b, sep)
  {
    if |a| == 1 {
      assert (a + b)[1..] == b;
    } else {
      assert (a + b)[1..] == a[1..] + b;
      JoinAppend(a[1..], b, sep);
    }
  }

  /** `[c] * n` as a string, Python's `c * n`: empty when `n <= 0`. */
  function Repeat(c: char, n: int): (r: string)
    ensures |r| == if n <= 0 then 0 else n
    ensures forall k :: 0 <= k < |r| ==> r[k] == c
  {
    if n <= 0 then "" else [c] + Repeat(c, n - 1)
  }
}
