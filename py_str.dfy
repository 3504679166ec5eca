/** The two Python `str` methods the export toggle relies on: `strip()` and
    `lower()`, over strings as sequences of Unicode scalar values. */
module PyStr {

  /** Python's `str.isspace` for one character: the 29 code points whose
      bidirectional class is WS, B or S, or whose category is Zs. */
  predicate IsSpace(c: char)
  {
    ('\t' <= c <= '\r') || ('\U{1C}' <= c <= ' ') ||
    c == '\U{85}' || c == '\U{A0}' || c == '\U{1680}' ||
    ('\U{2000}' <= c <= '\U{200A}') ||
    c == '\U{2028}' || c == '\U{2029}' || c == '\U{202F}' || c == '\U{205F}' ||
    c == '\U{3000}'
  }

  /** Every character of `s` is whitespace. */
  predicate AllSpace(s: string)
  {
    forall i | 0 <= i < |s| :: IsSpace(s[i])
  }

  /** Every character of `s` at an index in [lo, hi) is whitespace. */
  predicate SpaceBetween(s: string, lo: int, hi: int)
    requires 0 <= lo && hi <= |s|
  {
    forall i | lo <= i < hi :: IsSpace(s[i])
  }

  /** The first index at or after `i` that does not hold whitespace, or |s|. */
  function SkipForward(s: string, i: nat): (j: nat)
    requires i <= |s|
    ensures i <= j <= |s| && SpaceBetween(s, i, j)
    ensures j < |s| ==> !IsSpace(s[j])
    decreases |s| - i
  {
    if i < |s| && IsSpace(s[i]) then SkipForward(s, i + 1) else i
  }

  /** Walking back from `j` but not below `lo`, the end of the last
      character that does not hold whitespace, or `lo`. */
  function SkipBackward(s: string, lo: nat, j: nat): (k: nat)
    requires lo <= j <= |s|
    ensures lo <= k <= j && SpaceBetween(s, k, j)
    ensures k > lo ==> !IsSpace(s[k - 1])
    decreases j
  {
    if j > lo && IsSpace(s[j - 1]) then SkipBackward(s, lo, j - 1) else j
  }

  /** Where the stripped text starts. */
  function StripStart(s: string): (i: nat)
    ensures i <= |s|
  {
    SkipForward(s, 0)
  }

  /** Where the stripped text ends. */
  function StripEnd(s: string): (j: nat)
    ensures StripStart(s) <= j <= |s|
  {
    SkipBackward(s, StripStart(s), |s|)
  }

  /** Python's `str.strip()` with no argument: everything before and after
      the result is whitespace, and the result neither starts nor ends with
      whitespace. */
  function Strip(s: string): (r: string)
    ensures r == s[StripStart(s)..StripEnd(s)]
    ensures SpaceBetween(s, 0, StripStart(s)) && SpaceBetween(s, StripEnd(s), |s|)
    ensures r != [] ==> !IsSpace(r[0]) && !IsSpace(r[|r| - 1])
  {
    s[StripStart(s)..StripEnd(s)]
  }

  lemma {:induction false} SkipForwardOverPadding(s: string, i: nat, n: nat)
    requires i <= n <= |s|
    requires SpaceBetween(s, i, n)
    requires n < |s| ==> !IsSpace(s[n])
    ensures SkipForward(s, i) == n
    decreases n - i
  {
    if i < n {
      SkipForwardOverPadding(s, i + 1, n);
    }
  }

  lemma {:induction false} SkipBackwardOverPadding(s: string, lo: nat, j: nat, n: nat)
    requires lo <= n <= j <= |s|
    requires SpaceBetween(s, n, j)
    requires n > lo ==> !IsSpace(s[n - 1])
    ensures SkipBackward(s, lo, j) == n
    decreases j
  {
    if n < j {
      SkipBackwardOverPadding(s, lo, j - 1, n);
    }
  }

  /** Stripping recovers the text between any whitespace padding, provided
      that text neither starts nor ends with whitespace. */
  lemma StripOfPadded(a: string, c: string, b: string)
    requires AllSpace(a) && AllSpace(b)
    requires c != [] && !IsSpace(c[0]) && !IsSpace(c[|c| - 1])
    ensures Strip(a + c + b) == c
  {
    var s := a + c + b;
    assert SpaceBetween(s, 0, |a|) by {
      forall k | 0 <= k < |a| ensures IsSpace(s[k]) { assert s[k] == a[k]; }
    }
    assert SpaceBetween(s, |a| + |c|, |s|) by {
      forall k | |a| + |c| <= k < |s| ensures IsSpace(s[k]) { assert s[k] == b[k - |a| - |c|]; }
    }
    assert s[|a|] == c[0] && s[|a| + |c| - 1] == c[|c| - 1];
    SkipForwardOverPadding(s, 0, |a|);
    SkipBackwardOverPadding(s, |a|, |s|, |a| + |c|);
    assert s[|a|..|a| + |c|] == c;
  }

  /** Python's `str.lower()` on one character, for the ASCII letters. */
  function LowerChar(c: char): (l: char)
  {
    if 'A' <= c <= 'Z' then (c as int + 32) as char else c
  }

  /** Python's `str.upper()` on one character, for the ASCII letters. */
  function UpperChar(c: char): (u: char)
  {
    if 'a' <= c <= 'z' then (c as int - 32) as char else c
  }

  /** Python's `str.lower()`: maps every character, keeps the length. */
  function Lower(s: string): (r: string)
    ensures |r| == |s|
    ensures forall i | 0 <= i < |s| :: r[i] == LowerChar(s[i])
  {
    if s == [] then [] else [LowerChar(s[0])] + Lower(s[1..])
  }

  /** `c` spells the lower-case word `w`, each letter in either case. */
  predicate SpelledAs(c: string, w: string)
  {
    |c| == |w| && forall i | 0 <= i < |w| :: c[i] == w[i] || c[i] == UpperChar(w[i])
  }

  /** Lowering gives `w` exactly when the string spells `w` in any mix of
      cases. */
  lemma LowerIsSpelling(c: string, w: string)
    requires forall i | 0 <= i < |w| :: 'a' <= w[i] <= 'z' || '0' <= w[i] <= '9'
    ensures Lower(c) == w <==> SpelledAs(c, w)
  {
  }
}
