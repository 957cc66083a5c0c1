/** The string operations the script applies to raw values: Python's
    `str.strip()`, `str.replace(",", ".")` and `str.split("T", 1)[0]`. */
module Text {

  /** Python's `str.isspace()` for one character: the characters whose
      bidirectional class is WS, B or S, or whose category is Zs. */
  predicate IsSpace(c: char) {
    ('\t' <= c <= '\r') || ('\U{1C}' <= c <= ' ')
    || c == '\U{85}' || c == '\U{A0}' || c == '\U{1680}'
    || ('\U{2000}' <= c <= '\U{200A}') || c == '\U{2028}' || c == '\U{2029}'
    || c == '\U{202F}' || c == '\U{205F}' || c == '\U{3000}'
  }

  predicate AllSpace(s: string) {
    forall c :: c in s ==> IsSpace(c)
  }

  /** `s.lstrip()`: drops the leading whitespace and nothing else. */
  function StripLeft(s: string): (r: string)
    ensures |r| <= |s| && r == s[|s| - |r|..]
    ensures AllSpace(s[..|s| - |r|])
    ensures r == [] || !IsSpace(r[0])
  {
    if |s| > 0 && IsSpace(s[0]) then StripLeft(s[1..]) else s
  }

  /** `s.rstrip()`: drops the trailing whitespace and nothing else. */
  function StripRight(s: string): (r: string)
    ensures |r| <= |s| && r == s[..|r|]
    ensures AllSpace(s[|r|..])
    ensures r == [] || !IsSpace(r[|r| - 1])
  {
    if |s| > 0 && IsSpace(s[|s| - 1]) then StripRight(s[..|s| - 1]) else s
  }

  /** `s.strip()`: the middle of `s` once the whitespace at both ends is gone. */
  function Strip(s: string): (r: string)
    ensures exists i, j :: 0 <= i <= j <= |s| && r == s[i..j] && AllSpace(s[..i]) && AllSpace(s[j..])
    ensures r == [] || (!IsSpace(r[0]) && !IsSpace(r[|r| - 1]))
  {
    var t := StripRight(s);
    var r := StripLeft(t);
    assert r == s[|t| - |r|..|t|];
    assert s[..|t| - |r|] == t[..|t| - |r|];
    r
  }

  lemma {:induction false} StripLeftSpaces(w: string, x: string)
    requires AllSpace(w)
    ensures StripLeft(w + x) == StripLeft(x)
  {
    if w != [] {
      assert IsSpace((w + x)[0]);
      assert (w + x)[1..] == w[1..] + x;
      assert AllSpace(w[1..]);
      StripLeftSpaces(w[1..], x);
    } else {
      assert w + x == x;
    }
  }

  lemma {:induction false} StripRightSpaces(x: string, w: string)
    requires AllSpace(w)
    ensures StripRight(x + w) == StripRight(x)
  {
    if w != [] {
      assert IsSpace((x + w)[|x + w| - 1]);
      assert (x + w)[..|x + w| - 1] == x + w[..|w| - 1];
      assert AllSpace(w[..|w| - 1]);
      StripRightSpaces(x, w[..|w| - 1]);
    } else {
      assert x + w == x;
    }
  }

  lemma {:induction false} StripRightPrefix(p: string, s: string)
    requires StripRight(s) != []
    ensures StripRight(p + s) == p + StripRight(s)
  {
    if IsSpace(s[|s| - 1]) {
      assert (p + s)[..|p + s| - 1] == p + s[..|s| - 1];
      StripRightPrefix(p, s[..|s| - 1]);
    }
  }

  /** Stripping leaves nothing exactly when the string is all whitespace. */
  lemma StripEmpty(s: string)
    ensures Strip(s) == [] <==> AllSpace(s)
  {
    var t := StripRight(s);
    if Strip(s) == [] {
      assert t[..|t|] == t;
      assert s == t + s[|t|..];
    }
  }

  /** Whitespace around a string does not change what `strip()` returns. */
  lemma StripPadded(w1: string, s: string, w2: string)
    requires AllSpace(w1) && AllSpace(w2)
    ensures Strip(w1 + s + w2) == Strip(s)
  {
    StripRightSpaces(w1 + s, w2);
    if StripRight(s) == [] {
      assert s == s[..0] + s[0..];
      assert AllSpace(w1 + s);
      StripEmpty(w1 + s);
      StripEmpty(s);
    } else {
      StripRightPrefix(w1, s);
      StripLeftSpaces(w1, StripRight(s));
    }
  }

  /** `s.replace(",", ".")`: every comma becomes a full stop, nothing else moves. */
  function ReplaceCommas(s: string): (r: string)
    ensures |r| == |s|
    ensures forall i :: 0 <= i < |s| ==> r[i] == (if s[i] == ',' then '.' else s[i])
  {
    if s == [] then []
    else [if s[0] == ',' then '.' else s[0]] + ReplaceCommas(s[1..])
  }

  /** `s.split(c, 1)[0]`: everything before the first `c`, or all of `s`. */
  function BeforeFirst(s: string, c: char): (r: string)
    ensures r <= s
    ensures c !in r
    ensures |r| < |s| <==> c in s
    ensures |r| < |s| ==> s[|r|] == c
  {
    if s == [] then []
    else if s[0] == c then []
    else [s[0]] + BeforeFirst(s[1..], c)
  }
}
