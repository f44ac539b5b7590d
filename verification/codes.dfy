/**
 * Stock-symbol normalisers on both sides of the file handshake.
 *
 * The generator reads positions with one normaliser and quotes with
 * another; the venue scripts (both the handshake one and the plain batch
 * one) share a third. Qualified codes come in two spellings: prefixed
 * ("SH600000") and suffixed ("600000.SH").
 */
module Codes {
  import opened Common
  import opened Text

  /** Exchange prefixes and suffixes. */
  predicate IsMarket(m: string) {
    m == "SH" || m == "SZ"
  }

  /** Six ASCII digits: a bare A-share code. */
  predicate IsBareCode(d: string) {
    |d| == 6 && IsDigits(d)
  }

  // ---------------------------------------------------------------------
  // Positions normaliser of the generator
  // ---------------------------------------------------------------------

  /** Step 1: drop a trailing ".0" (a code read back as a float). */
  function DropDotZero(s: string): string {
    if EndsWith(s, ".0") then s[..|s| - 2] else s
  }

  /** Step 2: "digits.digits" or "digits." collapses to its left part. */
  function CollapseNumeric(s: string): string {
    if '.' in s then
      var parts := SplitFirst(s, '.');
      if IsDigits(parts.0) && (parts.1 == [] || IsDigits(parts.1)) then parts.0 else s
    else s
  }

  /** Step 3: numeric strings shorter than six are zero-padded to six. */
  function PadShort(s: string): string {
    if IsDigits(s) && 0 < |s| < 6 then ZFill(s, 6) else s
  }

  /** Step 4: qualify a bare code by its leading digit. */
  function QualifyPos(s: string): string {
    if EndsWith(s, ".SH") || EndsWith(s, ".SZ") then s
    else if StartsWith(s, "SH") || StartsWith(s, "SZ") then s
    else if IsBareCode(s) then
      if s[0] in {'6', '5', '9'} then "SH" + s
      else if s[0] in {'0', '3'} then "SZ" + s
      else s
    else s
  }

  /**
   * The positions-file normaliser. `None` is a missing cell; any other
   * cell arrives as its `str()` text.
   */
  function NormalizePosCode(code: Option<string>): (r: string)
    ensures code.None? ==> r == ""
    ensures code.Some? && Canon(code.value) == [] ==> r == ""
  {
    if code.None? then ""
    else
      var s := Canon(code.value);
      if s == [] then ""
      else QualifyPos(PadShort(CollapseNumeric(DropDotZero(s))))
  }

  lemma DigitsNoDot(d: string)
    requires IsDigits(d)
    ensures '.' !in d
  {
    forall i | 0 <= i < |d| ensures d[i] != '.' { assert IsDigit(d[i]); }
  }

  lemma DigitsCanon(d: string)
    requires IsDigits(d)
    ensures Canon(d) == d
  {
    DigitsCodeText(d);
    CodeTextCanon(d);
  }

  /** A digit string passes the first two steps untouched. */
  lemma DigitsEarlySteps(d: string)
    requires IsDigits(d)
    ensures Canon(d) == d
    ensures CollapseNumeric(DropDotZero(d)) == d
  {
    DigitsCanon(d);
    DigitsNoDot(d);
    assert !EndsWith(d, ".0") by { if |d| >= 2 { assert IsDigit(d[|d| - 2]); } }
  }

  /** The last step on a six-digit code. */
  lemma QualifyBare(d: string)
    requires IsBareCode(d)
    ensures d[0] in {'6', '5', '9'} ==> QualifyPos(d) == "SH" + d
    ensures d[0] in {'0', '3'} ==> QualifyPos(d) == "SZ" + d
    ensures !(d[0] in {'6', '5', '9', '0', '3'}) ==> QualifyPos(d) == d
  {
    assert !EndsWith(d, ".SH") && !EndsWith(d, ".SZ") by { assert IsDigit(d[|d| - 1]); }
    assert !StartsWith(d, "SH") && !StartsWith(d, "SZ") by { assert IsDigit(d[0]); }
  }

  /** A six-digit code gets the market its leading digit names. */
  lemma PosCodeBare(d: string)
    requires IsBareCode(d)
    ensures d[0] in {'6', '5', '9'} ==> NormalizePosCode(Some(d)) == "SH" + d
    ensures d[0] in {'0', '3'} ==> NormalizePosCode(Some(d)) == "SZ" + d
    ensures !(d[0] in {'6', '5', '9', '0', '3'}) ==> NormalizePosCode(Some(d)) == d
  {
    DigitsEarlySteps(d);
    assert PadShort(d) == d;
    QualifyBare(d);
  }

  /** A numeric code shorter than six digits is zero-padded and lands on Shenzhen. */
  lemma PosCodeShort(d: string)
    requires IsDigits(d) && |d| < 6
    ensures NormalizePosCode(Some(d)) == "SZ" + ZFill(d, 6)
  {
    var z := ZFill(d, 6);
    assert NormalizePosCode(Some(d)) == QualifyPos(PadShort(d)) by {
      DigitsEarlySteps(d);
    }
    assert QualifyPos(PadShort(d)) == "SZ" + z by {
      PadShortDigits(d);
      QualifyBare(z);
    }
  }

  lemma PadShortDigits(d: string)
    requires IsDigits(d) && |d| < 6
    ensures PadShort(d) == ZFill(d, 6)
    ensures IsBareCode(ZFill(d, 6)) && ZFill(d, 6)[0] == '0'
  {
    ZFillDigits(d, 6);
  }

  /**
   * "digits.digits" and "digits." normalise like their integer part: a
   * code read back as a float ("600000.0") or with a fractional tail.
   */
  lemma PosCodeDecimal(d: string, e: string)
    requires IsDigits(d)
    requires e == [] || IsDigits(e)
    ensures NormalizePosCode(Some(d + "." + e)) == NormalizePosCode(Some(d))
  {
    var s := d + "." + e;
    assert NormalizePosCode(Some(s)) == QualifyPos(PadShort(d)) by {
      DecimalCanon(d, e);
      PosCodeSteps(s);
      DecimalEarlySteps(d, e);
    }
    assert NormalizePosCode(Some(d)) == QualifyPos(PadShort(d)) by {
      DigitsEarlySteps(d);
      PosCodeSteps(d);
    }
  }

  /** On a non-blank canonical string the normaliser is its four steps. */
  lemma PosCodeSteps(s: string)
    requires Canon(s) == s && s != []
    ensures NormalizePosCode(Some(s)) == QualifyPos(PadShort(CollapseNumeric(DropDotZero(s))))
  {
  }

  lemma DecimalCanon(d: string, e: string)
    requires IsDigits(d)
    requires e == [] || IsDigits(e)
    ensures Canon(d + "." + e) == d + "." + e
  {
    DigitsCodeText(d);
    if e != [] { DigitsCodeText(e); }
    assert IsCodeText(".");
    CodeTextConcat(d, ".");
    CodeTextConcat(d + ".", e);
    CodeTextCanon(d + "." + e);
  }

  lemma DecimalEarlySteps(d: string, e: string)
    requires IsDigits(d)
    requires e == [] || IsDigits(e)
    ensures CollapseNumeric(DropDotZero(d + "." + e)) == d
  {
    var s := d + "." + e;
    DigitsNoDot(d);
    if e == "0" {
      assert DropDotZero(s) == d;
    } else {
      assert !EndsWith(s, ".0") by {
        if e == [] {
          assert s[|s| - 1] == '.';
        } else if |e| == 1 {
          assert e != ['0'];
          assert s[|s| - 1] == e[0];
        } else {
          assert s[|s| - 2] == e[|e| - 2] && IsDigit(e[|e| - 2]);
        }
      }
      assert DropDotZero(s) == s;
      SplitFirstConcat(d, '.', e);
    }
  }

  /** "cash.0" is not "CASH" once stripped and upper-cased, but normalises to it. */
  lemma PosCodeCashDotZero()
    ensures Canon("cash.0") == "CASH.0"
    ensures NormalizePosCode(Some("cash.0")) == "CASH"
  {
    CanonCashDotZero();
    var c := "CASH";
    var u := Canon("cash.0");
    assert u == c + ".0";
    assert DropDotZero(u) == c;
    assert CollapseNumeric(c) == c by { assert '.' !in c; }
    assert PadShort(c) == c by { assert !IsDigit(c[0]); }
    assert QualifyPos(c) == c by {
      assert c[|c| - 3] != '.' && c[0] != 'S';
      assert !IsDigit(c[0]);
    }
    assert NormalizePosCode(Some("cash.0")) == QualifyPos(PadShort(CollapseNumeric(DropDotZero(u))));
  }

  lemma CanonCashDotZero()
    ensures Canon("cash.0") == "CASH.0"
  {
    var s := "cash.0";
    assert Trimmed(s) by { assert s[0] == 'c' && s[|s| - 1] == '0'; }
    CanonOfTrimmed(s);
    UpperCashDotZero();
  }

  lemma UpperCashDotZero()
    ensures Upper("cash.0") == "CASH.0"
  {
    var u := Upper("cash.0");
    assert u[0] == 'C' && u[1] == 'A' && u[2] == 'S' && u[3] == 'H' && u[4] == '.' && u[5] == '0';
  }

  /** A canonical code already qualified by a suffix is returned unchanged. */
  lemma PosCodeSuffixKept(s: string)
    requires IsCanon(s)
    requires EndsWith(s, ".SH") || EndsWith(s, ".SZ")
    ensures NormalizePosCode(Some(s)) == s
  {
    CanonOfCanon(s);
    assert s[|s| - 1] == 'H' || s[|s| - 1] == 'Z';
    assert !EndsWith(s, ".0");
    assert s[|s| - 3] == '.';
    assert '.' in s;
    var parts := SplitFirst(s, '.');
    assert parts.1 != [] && parts.1[|parts.1| - 1] == s[|s| - 1];
    assert !IsDigits(parts.1);
    assert CollapseNumeric(s) == s;
    assert !IsDigits(s);
  }

  /** A canonical code already qualified by a prefix (and not ending ".0") is returned unchanged. */
  lemma PosCodePrefixKept(s: string)
    requires IsCanon(s)
    requires StartsWith(s, "SH") || StartsWith(s, "SZ")
    requires !EndsWith(s, ".0")
    ensures NormalizePosCode(Some(s)) == s
  {
    CanonOfCanon(s);
    assert s[0] == 'S';
    if '.' in s {
      var parts := SplitFirst(s, '.');
      assert parts.0 != [] by { assert s[0] != '.'; }
      assert parts.0[0] == 'S';
      assert !IsDigits(parts.0);
    }
    assert !IsDigits(s);
  }

  // ---------------------------------------------------------------------
  // Quotes normaliser of the generator
  // ---------------------------------------------------------------------

  /** The quotes-file normaliser: "######.SH" becomes "SH######". */
  function NormalizeQuoteCode(code: Option<string>): (r: string)
    ensures code.None? ==> r == ""
    ensures code.Some? && Canon(code.value) == [] ==> r == ""
  {
    if code.None? then ""
    else
      var s := Canon(code.value);
      if s == [] then ""
      else if '.' in s then
        var parts := SplitFirst(s, '.');
        if IsBareCode(parts.0) && IsMarket(parts.1) then parts.1 + parts.0 else s
      else s
  }

  lemma SuffixedCanon(d: string, m: string)
    requires IsBareCode(d) && IsMarket(m)
    ensures Canon(d + "." + m) == d + "." + m
    ensures Canon(m + d) == m + d
  {
    DigitsCodeText(d);
    assert IsCodeText(".") && IsCodeText(m);
    CodeTextConcat(d, ".");
    CodeTextConcat(d + ".", m);
    CodeTextConcat(m, d);
    CodeTextCanon(d + "." + m);
    CodeTextCanon(m + d);
  }

  /** "######.SH" / "######.SZ" becomes "SH######" / "SZ######". */
  lemma QuoteSuffixToPrefix(d: string, m: string)
    requires IsBareCode(d) && IsMarket(m)
    ensures NormalizeQuoteCode(Some(d + "." + m)) == m + d
  {
    SuffixedCanon(d, m);
    var s := d + "." + m;
    assert s[6] == '.';
    DigitsNoDot(d);
    assert '.' !in m;
    SplitFirstConcat(d, '.', m);
  }

  /** A canonical code with no dot is left unchanged (prefixed and bare codes alike). */
  lemma QuoteNoDotKept(s: string)
    requires IsCanon(s) && '.' !in s
    ensures NormalizeQuoteCode(Some(s)) == s
  {
    CanonOfCanon(s);
  }

  /** A code whose canonical form is non-empty and has no dot normalises to that form. */
  lemma QuoteCanonNoDot(t: string)
    requires Canon(t) != [] && '.' !in Canon(t)
    ensures NormalizeQuoteCode(Some(t)) == Canon(t)
  {
  }

  /** A prefixed code and a bare six-digit code are fixed points. */
  lemma QuotePrefixedKept(d: string, m: string)
    requires IsBareCode(d) && IsMarket(m)
    ensures NormalizeQuoteCode(Some(m + d)) == m + d
    ensures NormalizeQuoteCode(Some(d)) == d
  {
    SuffixedCanon(d, m);
    DigitsCanon(d);
    DigitsNoDot(d);
    assert '.' !in m + d;
  }

  /** Normalising a normalised quote code changes nothing. */
  lemma QuoteIdempotent(code: Option<string>)
    ensures NormalizeQuoteCode(Some(NormalizeQuoteCode(code))) == NormalizeQuoteCode(code)
  {
    if code.None? || Canon(code.value) == [] {
      QuoteOfEmpty();
    } else {
      var s := Canon(code.value);
      QuoteViaCanon(code.value);
      QuoteCanonFixed(s);
    }
  }

  lemma QuoteOfEmpty()
    ensures NormalizeQuoteCode(Some("")) == ""
  {
    CanonOfCanon("");
  }

  /** The quote normaliser only sees the canonical form of its input. */
  lemma QuoteViaCanon(t: string)
    ensures NormalizeQuoteCode(Some(t)) == NormalizeQuoteCode(Some(Canon(t)))
  {
    CanonOfCanon(Canon(t));
  }

  /** On a canonical code the quote normaliser reaches a fixed point in one step. */
  lemma QuoteCanonFixed(s: string)
    requires IsCanon(s) && s != []
    ensures NormalizeQuoteCode(Some(NormalizeQuoteCode(Some(s)))) == NormalizeQuoteCode(Some(s))
  {
    CanonOfCanon(s);
    var r := NormalizeQuoteCode(Some(s));
    if r != s {
      var parts := SplitFirst(s, '.');
      assert IsBareCode(parts.0) && IsMarket(parts.1) && r == parts.1 + parts.0;
      QuotePrefixedKept(parts.0, parts.1);
    }
  }

  // ---------------------------------------------------------------------
  // Venue normaliser (both venue scripts define it identically)
  // ---------------------------------------------------------------------

  /** The venue normaliser: "SH######" becomes "######.SH". NaN is `None`. */
  function NormalizeVenueCode(code: Option<string>): (r: string)
    ensures code.None? ==> r == ""
  {
    if code.None? then ""
    else
      var s := Canon(code.value);
      if EndsWith(s, ".SH") || EndsWith(s, ".SZ") then s
      else if StartsWith(s, "SH") && |s| == 8 && IsDigits(s[2..]) then s[2..] + ".SH"
      else if StartsWith(s, "SZ") && |s| == 8 && IsDigits(s[2..]) then s[2..] + ".SZ"
      else s
  }

  /** "SH######" / "SZ######" becomes "######.SH" / "######.SZ". */
  lemma VenuePrefixToSuffix(d: string, m: string)
    requires IsBareCode(d) && IsMarket(m)
    ensures NormalizeVenueCode(Some(m + d)) == d + "." + m
  {
    SuffixedCanon(d, m);
    var t := m + d;
    assert t[2..] == d && t[..2] == m;
    assert !EndsWith(t, ".SH") && !EndsWith(t, ".SZ") by { assert t[|t| - 1] == d[5] && IsDigit(d[5]); }
    if m == "SZ" {
      assert !StartsWith(t, "SH") by { assert t[1] == 'Z'; }
    }
  }

  /** Suffixed codes and bare six-digit codes are returned unchanged. */
  lemma VenueSuffixKept(d: string, m: string)
    requires IsBareCode(d) && IsMarket(m)
    ensures NormalizeVenueCode(Some(d + "." + m)) == d + "." + m
    ensures NormalizeVenueCode(Some(d)) == d
  {
    SuffixedCanon(d, m);
    var s := d + "." + m;
    assert s[|s| - 3..] == "." + m;
    DigitsCanon(d);
    assert !EndsWith(d, ".SH") && !EndsWith(d, ".SZ") by { assert IsDigit(d[5]); }
    assert !StartsWith(d, "SH") && !StartsWith(d, "SZ") by { assert IsDigit(d[0]); }
  }

  /** Quote normaliser after venue normaliser gives back the prefixed code. */
  lemma VenueThenQuoteRoundTrip(d: string, m: string)
    requires IsBareCode(d) && IsMarket(m)
    ensures NormalizeQuoteCode(Some(NormalizeVenueCode(Some(m + d)))) == m + d
  {
    VenuePrefixToSuffix(d, m);
    QuoteSuffixToPrefix(d, m);
  }

  /** Venue normaliser after quote normaliser gives back the suffixed code. */
  lemma QuoteThenVenueRoundTrip(d: string, m: string)
    requires IsBareCode(d) && IsMarket(m)
    ensures NormalizeVenueCode(Some(NormalizeQuoteCode(Some(d + "." + m)))) == d + "." + m
  {
    QuoteSuffixToPrefix(d, m);
    VenuePrefixToSuffix(d, m);
  }

  /**
   * The positions file the venue writes holds suffixed codes, and the
   * positions normaliser keeps them suffixed, whereas the quotes
   * normaliser and the model's instruments use the prefixed spelling.
   */
  lemma VenuePositionsStaySuffixed(d: string, m: string)
    requires IsBareCode(d) && IsMarket(m)
    ensures NormalizePosCode(Some(NormalizeVenueCode(Some(m + d)))) == d + "." + m
    ensures NormalizeQuoteCode(Some(NormalizeVenueCode(Some(m + d)))) == m + d
    ensures d + "." + m != m + d
  {
    VenuePrefixToSuffix(d, m);
    SuffixedCanon(d, m);
    var s := d + "." + m;
    assert IsCanon(s);
    assert s[|s| - 3..] == "." + m;
    PosCodeSuffixKept(s);
    QuoteSuffixToPrefix(d, m);
    assert (d + "." + m)[0] != (m + d)[0] by { assert IsDigit(d[0]); }
  }
}
