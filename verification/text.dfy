/**
 * The handful of Python string operations the symbol normalisers and the
 * line parsers use, restricted to ASCII: `strip`, `upper`, `isdigit`,
 * `startswith`, `endswith`, `in`, `split(sep, 1)` and `zfill`.
 */
module Text {

  /** The ASCII characters Python's `str.strip()` removes. */
  predicate IsSpace(c: char) {
    c == ' ' || c == '\t' || c == '\n' || c == '\r' || c == '\U{0B}' || c == '\U{0C}'
  }

  predicate IsDigit(c: char) {
    '0' <= c <= '9'
  }

  /** `s.isdigit()`: non-empty and every character a decimal digit. */
  predicate IsDigits(s: string) {
    |s| > 0 && forall i :: 0 <= i < |s| ==> IsDigit(s[i])
  }

  predicate StartsWith(s: string, p: string) {
    |p| <= |s| && s[..|p|] == p
  }

  predicate EndsWith(s: string, p: string) {
    |p| <= |s| && s[|s| - |p|..] == p
  }

  /** `p in s` for a substring `p`. */
  predicate Contains(s: string, p: string) {
    StartsWith(s, p) || (s != [] && Contains(s[1..], p))
  }

  /** Neither end of `s` is whitespace. */
  predicate Trimmed(s: string) {
    s == [] || (!IsSpace(s[0]) && !IsSpace(s[|s| - 1]))
  }

  function StripLeft(s: string): (r: string)
    ensures |r| <= |s| && r == s[|s| - |r|..]
    ensures r == [] || !IsSpace(r[0])
    ensures forall i :: 0 <= i < |s| - |r| ==> IsSpace(s[i])
  {
    if s != [] && IsSpace(s[0]) then StripLeft(s[1..]) else s
  }

  function StripRight(s: string): (r: string)
    ensures |r| <= |s| && r == s[..|r|]
    ensures r == [] || !IsSpace(r[|r| - 1])
    ensures forall i :: |r| <= i < |s| ==> IsSpace(s[i])
  {
    if s != [] && IsSpace(s[|s| - 1]) then StripRight(s[..|s| - 1]) else s
  }

  /** `s.strip()`: the slice of `s` between its leading and trailing whitespace. */
  function Strip(s: string): (r: string)
    ensures Trimmed(r)
    ensures |r| <= |s|
    ensures (forall i :: 0 <= i < |s| ==> IsSpace(s[i])) <==> r == []
  {
    StripRight(StripLeft(s))
  }

  lemma StripTrimmed(s: string)
    requires Trimmed(s)
    ensures Strip(s) == s
  {
  }

  function UpperChar(c: char): char {
    if 'a' <= c <= 'z' then (c as int - 'a' as int + 'A' as int) as char else c
  }

  /** `s.upper()` on ASCII letters. */
  function Upper(s: string): (r: string)
    ensures |r| == |s|
    ensures forall i :: 0 <= i < |s| ==> r[i] == UpperChar(s[i])
  {
    if s == [] then [] else [UpperChar(s[0])] + Upper(s[1..])
  }

  function LowerChar(c: char): char {
    if 'A' <= c <= 'Z' then (c as int - 'A' as int + 'a' as int) as char else c
  }

  /** `s.lower()` on ASCII letters. */
  function Lower(s: string): (r: string)
    ensures |r| == |s|
    ensures forall i :: 0 <= i < |s| ==> r[i] == LowerChar(s[i])
  {
    if s == [] then [] else [LowerChar(s[0])] + Lower(s[1..])
  }

  lemma UpperIdempotent(s: string)
    ensures Upper(Upper(s)) == Upper(s)
  {
    assert forall i :: 0 <= i < |s| ==> UpperChar(UpperChar(s[i])) == UpperChar(s[i]);
  }

  lemma UpperKeepsTrimmed(s: string)
    requires Trimmed(s)
    ensures Trimmed(Upper(s))
  {
  }

  /** `str(x).strip().upper()`: the canonical form every normaliser starts from. */
  function Canon(s: string): (r: string)
    ensures Trimmed(r)
    ensures Upper(r) == r
  {
    var t := Strip(s);
    UpperKeepsTrimmed(t);
    UpperIdempotent(t);
    Upper(t)
  }

  /** Without surrounding whitespace, the canonical form is just the upper-cased string. */
  lemma CanonOfTrimmed(s: string)
    requires Trimmed(s)
    ensures Canon(s) == Upper(s)
  {
    StripTrimmed(s);
  }

  /** No ASCII lower-case letter occurs in `s`. */
  predicate NoLower(s: string) {
    forall i :: 0 <= i < |s| ==> !('a' <= s[i] <= 'z')
  }

  lemma NoLowerUpper(s: string)
    requires NoLower(s)
    ensures Upper(s) == s
  {
  }

  /** Characters a canonical stock code is made of. */
  predicate IsCodeChar(c: char) {
    IsDigit(c) || ('A' <= c <= 'Z') || c == '.'
  }

  predicate IsCodeText(s: string) {
    forall i :: 0 <= i < |s| ==> IsCodeChar(s[i])
  }

  lemma CodeTextCanon(s: string)
    requires IsCodeText(s)
    ensures Canon(s) == s
  {
    assert NoLower(s);
    NoLowerUpper(s);
    assert Trimmed(s) by {
      if s != [] {
        assert IsCodeChar(s[0]) && IsCodeChar(s[|s| - 1]);
      }
    }
    CanonOfCanon(s);
  }

  lemma CodeTextConcat(a: string, b: string)
    requires IsCodeText(a) && IsCodeText(b)
    ensures IsCodeText(a + b)
  {
    forall i | 0 <= i < |a + b| ensures IsCodeChar((a + b)[i]) {
      if i < |a| { assert (a + b)[i] == a[i]; } else { assert (a + b)[i] == b[i - |a|]; }
    }
  }

  lemma DigitsCodeText(d: string)
    requires IsDigits(d)
    ensures IsCodeText(d)
  {
    forall i | 0 <= i < |d| ensures IsCodeChar(d[i]) { assert IsDigit(d[i]); }
  }

  /** A string already in canonical form. */
  predicate IsCanon(s: string) {
    Trimmed(s) && Upper(s) == s
  }

  lemma CanonOfCanon(s: string)
    requires IsCanon(s)
    ensures Canon(s) == s
  {
    StripTrimmed(s);
  }

  /** The index of the first occurrence of `c` in `s`, if any. */
  function IndexOf(s: string, c: char): (r: int)
    ensures -1 <= r < |s|
    ensures r == -1 <==> c !in s
    ensures r >= 0 ==> s[r] == c && c !in s[..r]
  {
    if s == [] then -1
    else if s[0] == c then 0
    else
      var k := IndexOf(s[1..], c);
      if k == -1 then -1
      else
        assert s[..k + 1] == [s[0]] + s[1..][..k];
        k + 1
  }

  /** `s.split(c, 1)` when `c in s`: the part before and after the first `c`. */
  function SplitFirst(s: string, c: char): (r: (string, string))
    requires c in s
    ensures s == r.0 + [c] + r.1
    ensures c !in r.0
  {
    var i := IndexOf(s, c);
    assert s == s[..i] + [c] + s[i + 1..];
    (s[..i], s[i + 1..])
  }

  lemma IndexOfConcat(a: string, c: char, b: string)
    requires c !in a
    ensures IndexOf(a + [c] + b, c) == |a|
  {
    if a != [] {
      assert (a + [c] + b)[1..] == a[1..] + [c] + b;
      IndexOfConcat(a[1..], c, b);
    }
  }

  /** Splitting at the first `c` recovers the parts around it. */
  lemma SplitFirstConcat(a: string, c: char, b: string)
    requires c !in a
    ensures c in a + [c] + b
    ensures SplitFirst(a + [c] + b, c) == (a, b)
  {
    var s := a + [c] + b;
    assert s[|a|] == c;
    IndexOfConcat(a, c, b);
    assert s[..|a|] == a && s[|a| + 1..] == b;
  }

  /** `s.zfill(width)` for a string without a sign: left-pad with '0'. */
  function ZFill(s: string, width: nat): (r: string)
    ensures |r| == if |s| >= width then |s| else width
    ensures EndsWith(r, s)
    ensures forall i :: 0 <= i < |r| - |s| ==> r[i] == '0'
  {
    if |s| >= width then s
    else
      var r := Zeros(width - |s|) + s;
      assert r[|r| - |s|..] == s;
      r
  }

  function Zeros(n: nat): (r: string)
    ensures |r| == n
    ensures forall i :: 0 <= i < n ==> r[i] == '0'
  {
    if n == 0 then [] else ['0'] + Zeros(n - 1)
  }

  lemma ZFillDigits(s: string, width: nat)
    requires IsDigits(s)
    ensures IsDigits(ZFill(s, width))
  {
    var r := ZFill(s, width);
    forall i | 0 <= i < |r|
      ensures IsDigit(r[i])
    {
      if i >= |r| - |s| {
        assert r[i] == r[|r| - |s|..][i - (|r| - |s|)];
      }
    }
  }
}
