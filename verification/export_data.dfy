/**
 * The iQuant history-export script (`export_iquant_data.py`): it reads
 * the stock list the generator wrote, collects one close price per stock
 * on every bar, and saves the collection as a CSV. The same script also
 * carries a parser for the many shapes a close price comes back in, and a
 * per-day download cache. API calls are parameters. A bar's date is given
 * as its already formatted text.
 */
module ExportData {
  import opened Common
  import opened Text

  // ---------------------------------------------------------------------
  // Python's str.split with a separator
  // ---------------------------------------------------------------------

  /** `s.split(sep)`: the pieces between the non-overlapping occurrences of `sep`, left to right. */
  function SplitOn(s: string, sep: string): (r: seq<string>)
    requires sep != []
    ensures |r| >= 1
    decreases |s|
  {
    if StartsWith(s, sep) then [""] + SplitOn(s[|sep|..], sep)
    else if s == [] then [""]
    else
      var rest := SplitOn(s[1..], sep);
      [[s[0]] + rest[0]] + rest[1..]
  }

  /** `sep.join(parts)`. */
  function Join(parts: seq<string>, sep: string): string
    requires |parts| >= 1
    decreases |parts|
  {
    if |parts| == 1 then parts[0] else parts[0] + sep + Join(parts[1..], sep)
  }

  /** Putting a character in front of the first piece puts it in front of the joined text. */
  lemma JoinConsFirst(c: char, parts: seq<string>, sep: string)
    requires |parts| >= 1
    ensures Join([[c] + parts[0]] + parts[1..], sep) == [c] + Join(parts, sep)
  {
    var parts' := [[c] + parts[0]] + parts[1..];
    if |parts| > 1 {
      assert parts'[1..] == parts[1..];
    }
  }

  /** Joining the pieces of a split with the separator gives back the text. */
  lemma {:induction false} SplitJoin(s: string, sep: string)
    requires sep != []
    ensures Join(SplitOn(s, sep), sep) == s
    decreases |s|
  {
    if StartsWith(s, sep) {
      var t := s[|sep|..];
      var rest := SplitOn(t, sep);
      assert SplitOn(s, sep) == [""] + rest;
      SplitJoin(t, sep);
      JoinConsEmpty(rest, sep);
      assert s == sep + t;
    } else if s != [] {
      var rest := SplitOn(s[1..], sep);
      assert SplitOn(s, sep) == [[s[0]] + rest[0]] + rest[1..];
      SplitJoin(s[1..], sep);
      JoinConsFirst(s[0], rest, sep);
      assert s == [s[0]] + s[1..];
    }
  }

  /** An empty first piece leaves the separator at the front of the joined text. */
  lemma JoinConsEmpty(parts: seq<string>, sep: string)
    requires |parts| >= 1
    ensures Join([""] + parts, sep) == sep + Join(parts, sep)
  {
    assert ([""] + parts)[1..] == parts;
    assert "" + sep == sep;
  }

  /** Splitting on a character the pieces do not contain gives the pieces back. */
  lemma {:induction false} JoinSplitChar(parts: seq<string>, c: char)
    requires |parts| >= 1
    requires forall k :: 0 <= k < |parts| ==> c !in parts[k]
    ensures SplitOn(Join(parts, [c]), [c]) == parts
    decreases |parts|, |parts[0]|
  {
    var p := parts[0];
    if p == [] {
      if |parts| > 1 {
        var tail := Join(parts[1..], [c]);
        assert parts == [""] + parts[1..];
        JoinConsEmpty(parts[1..], [c]);
        SplitLeadingSep([c], tail);
        JoinSplitChar(parts[1..], c);
      }
    } else {
      var parts' := [p[1..]] + parts[1..];
      assert parts'[0] == p[1..] && parts'[1..] == parts[1..];
      assert c !in p[1..] by { assert forall x :: x in p[1..] ==> x in p; }
      JoinSplitChar(parts', c);
      assert [[p[0]] + parts'[0]] + parts'[1..] == parts by { assert p == [p[0]] + p[1..]; }
      JoinConsFirst(p[0], parts', [c]);
      assert p[0] != c by { assert p[0] in p; }
      SplitConsChar(p[0], Join(parts', [c]), c);
    }
  }

  /** A text that starts with a character other than the separator puts it in front of its first piece. */
  lemma SplitConsChar(x: char, t: string, c: char)
    requires x != c
    ensures SplitOn([x] + t, [c]) == [[x] + SplitOn(t, [c])[0]] + SplitOn(t, [c])[1..]
  {
    var s := [x] + t;
    assert !StartsWith(s, [c]) by { assert s[0] == x; }
    assert s[1..] == t;
  }

  // ---------------------------------------------------------------------
  // The stock list file
  // ---------------------------------------------------------------------

  /** The label of the date-range line, and the word between its two dates. */
  const RangeMarker: string := "\U{65E5}\U{671F}\U{8303}\U{56F4}:"
  const RangeSep: char := '\U{81F3}'

  /**
   * The dates a stripped line names: the text after the label, up to any
   * repeat of it, split on the word between the dates; only a split into
   * exactly two pieces counts.
   */
  function DateRangeOf(line: string): (r: Option<(string, string)>)
    ensures r.Some? ==> Contains(line, RangeMarker)
  {
    if !Contains(line, RangeMarker) then None
    else
      var parts := SplitOn(line, RangeMarker);
      if |parts| <= 1 then None else DatesOf(parts[1])
  }

  /** The two dates of the text after the label: split on the word between them, both stripped. */
  function DatesOf(piece: string): Option<(string, string)> {
    var dates := SplitOn(Strip(piece), [RangeSep]);
    if |dates| == 2 then Some((Strip(dates[0]), Strip(dates[1]))) else None
  }

  /** A text that does not hold the label splits into itself alone. */
  lemma {:induction false} SplitWithoutSep(s: string, sep: string)
    requires sep != [] && !Contains(s, sep)
    ensures SplitOn(s, sep) == [s]
    decreases |s|
  {
    if s != [] {
      SplitWithoutSep(s[1..], sep);
      assert s == [s[0]] + s[1..];
    }
  }

  /** A text that starts with the separator splits into an empty piece and the pieces of the rest. */
  lemma SplitLeadingSep(sep: string, body: string)
    requires sep != []
    ensures SplitOn(sep + body, sep) == [""] + SplitOn(body, sep)
  {
    var s := sep + body;
    assert s[..|sep|] == sep && s[|sep|..] == body;
  }

  /** Two trimmed non-empty texts joined by a character that is not a space are left alone by stripping. */
  lemma JoinedTrimmed(a: string, c: char, b: string)
    requires a != [] && b != [] && Trimmed(a) && Trimmed(b) && !IsSpace(c)
    ensures Strip(a + [c] + b) == a + [c] + b
  {
    var body := a + [c] + b;
    assert body[0] == a[0] && body[|body| - 1] == b[|b| - 1];
    StripTrimmed(body);
  }

  /** Two dates joined by the word between them split back into the two dates. */
  lemma DatesSplit(a: string, b: string)
    requires RangeSep !in a && RangeSep !in b
    ensures SplitOn(a + [RangeSep] + b, [RangeSep]) == [a, b]
  {
    var parts := [a, b];
    assert parts[1..] == [b];
    assert Join(parts, [RangeSep]) == a + [RangeSep] + b;
    JoinSplitChar(parts, RangeSep);
  }

  /** The label followed by two trimmed dates joined by the word between them names those two dates. */
  lemma DateRangeLine(a: string, b: string)
    requires a != [] && b != [] && Trimmed(a) && Trimmed(b)
    requires RangeSep !in a && RangeSep !in b
    requires !Contains(a + [RangeSep] + b, RangeMarker)
    ensures DateRangeOf(RangeMarker + a + [RangeSep] + b) == Some((a, b))
  {
    var body := a + [RangeSep] + b;
    assert RangeMarker + a + [RangeSep] + b == RangeMarker + body;
    LabelledLine(body);
    DatesOfJoined(a, b);
  }

  /** A line made of the label and a text without it names the dates of that text. */
  lemma LabelledLine(body: string)
    requires !Contains(body, RangeMarker)
    ensures DateRangeOf(RangeMarker + body) == DatesOf(body)
  {
    var line := RangeMarker + body;
    assert Contains(line, RangeMarker) by {
      assert line[..|RangeMarker|] == RangeMarker;
    }
    var parts := SplitOn(line, RangeMarker);
    assert parts == ["", body] by {
      SplitLeadingSep(RangeMarker, body);
      SplitWithoutSep(body, RangeMarker);
    }
    assert |parts| == 2 && parts[1] == body;
  }

  /** Two trimmed dates joined by the word between them are read back as those dates. */
  lemma DatesOfJoined(a: string, b: string)
    requires a != [] && b != [] && Trimmed(a) && Trimmed(b)
    requires RangeSep !in a && RangeSep !in b
    ensures DatesOf(a + [RangeSep] + b) == Some((a, b))
  {
    var body := a + [RangeSep] + b;
    JoinedTrimmed(a, RangeSep, b);
    DatesSplit(a, b);
    StripTrimmed(a);
    StripTrimmed(b);
  }

  /** A stripped line that lists a stock: not blank and not a comment. */
  predicate IsStockLine(line: string) {
    line != "" && line[0] != '#'
  }

  /** Every line of the file, stripped. */
  function StripAll(lines: seq<string>): (r: seq<string>)
    ensures |r| == |lines|
  {
    if lines == [] then [] else StripAll(lines[..|lines| - 1]) + [Strip(lines[|lines| - 1])]
  }

  /** The stock lines among the stripped lines, in file order. */
  function Listed(ls: seq<string>): (r: seq<string>)
    ensures |r| <= |ls|
  {
    if ls == [] then []
    else
      var line := ls[|ls| - 1];
      Listed(ls[..|ls| - 1]) + if IsStockLine(line) then [line] else []
  }

  /** The list holds exactly the stock lines. */
  lemma {:induction false} ListedLines(ls: seq<string>)
    ensures forall s :: s in Listed(ls) <==> s in ls && IsStockLine(s)
  {
    if ls != [] {
      var init := ls[..|ls| - 1];
      ListedLines(init);
      assert ls == init + [ls[|ls| - 1]];
    }
  }

  /** The range each stripped line names, if any. */
  function RangesOf(ls: seq<string>): (r: seq<Option<(string, string)>>)
    ensures |r| == |ls|
  {
    if ls == [] then [] else RangesOf(ls[..|ls| - 1]) + [DateRangeOf(ls[|ls| - 1])]
  }

  /** The last present value: a later one overrides an earlier one. */
  function LastSome<T>(xs: seq<Option<T>>): Option<T> {
    if xs == [] then None
    else if xs[|xs| - 1].Some? then xs[|xs| - 1]
    else LastSome(xs[..|xs| - 1])
  }

  /** The dates of the last stripped line that names a range. */
  function LastRange(ls: seq<string>): Option<(string, string)> {
    LastSome(RangesOf(ls))
  }

  /**
   * The value found is the last present one, and none is found only when
   * none is present.
   */
  lemma LastSomeIsLast<T>(xs: seq<Option<T>>)
    ensures LastSome(xs).None? <==> forall i :: 0 <= i < |xs| ==> xs[i].None?
    ensures LastSome(xs).Some? ==>
      exists i :: 0 <= i < |xs| && xs[i] == LastSome(xs) && (forall j :: i < j < |xs| ==> xs[j].None?)
  {
    LastSomeNone(xs);
    if LastSome(xs).Some? {
      LastSomeAt(xs);
    }
  }

  lemma {:induction false} LastSomeNone<T>(xs: seq<Option<T>>)
    ensures LastSome(xs).None? <==> forall i :: 0 <= i < |xs| ==> xs[i].None?
  {
    if xs != [] {
      var init := xs[..|xs| - 1];
      LastSomeNone(init);
      assert forall i :: 0 <= i < |init| ==> init[i] == xs[i];
    }
  }

  lemma {:induction false} LastSomeAt<T>(xs: seq<Option<T>>)
    requires LastSome(xs).Some?
    ensures exists i :: 0 <= i < |xs| && xs[i] == LastSome(xs) && (forall j :: i < j < |xs| ==> xs[j].None?)
  {
    var n := |xs| - 1;
    if xs[n].Some? {
      assert xs[n] == LastSome(xs);
    } else {
      var init := xs[..n];
      assert LastSome(xs) == LastSome(init);
      LastSomeAt(init);
      var i :| 0 <= i < |init| && init[i] == LastSome(init) && (forall j :: i < j < |init| ==> init[j].None?);
      assert xs[i] == LastSome(xs);
      assert forall j :: i < j < |xs| ==> xs[j].None? by {
        assert forall j :: i < j < n ==> xs[j] == init[j];
      }
    }
  }

  /** One more line of the file. */
  lemma ParseStep(lines: seq<string>, i: int)
    requires 0 <= i < |lines|
    ensures StripAll(lines[..i + 1]) == StripAll(lines[..i]) + [Strip(lines[i])]
    ensures Listed(StripAll(lines[..i + 1])) == Listed(StripAll(lines[..i])) + (if IsStockLine(Strip(lines[i])) then [Strip(lines[i])] else [])
    ensures RangesOf(StripAll(lines[..i + 1])) == RangesOf(StripAll(lines[..i])) + [DateRangeOf(Strip(lines[i]))]
  {
    assert lines[..i + 1][..i] == lines[..i];
    var ls := StripAll(lines[..i + 1]);
    assert ls[..|ls| - 1] == StripAll(lines[..i]);
  }

  /**
   * `_parse_stock_list`: the stock lines and the start and end dates. A
   * missing file gives no stocks and no dates.
   */
  method ParseStockList(file: Option<seq<string>>) returns (stocks: seq<string>, start: Option<string>, end: Option<string>)
    ensures file.None? ==> stocks == [] && start.None? && end.None?
    ensures file.Some? ==> stocks == Listed(StripAll(file.value))
    ensures file.Some? ==> (start.Some? <==> LastRange(StripAll(file.value)).Some?)
    ensures end.Some? <==> start.Some?
    ensures start.Some? ==> Some((start.value, end.value)) == LastRange(StripAll(file.value))
  {
    if file.None? {
      return [], None, None;
    }
    var lines := file.value;
    stocks := [];
    var range: Option<(string, string)> := None;
    var i := 0;
    while i < |lines|
      invariant 0 <= i <= |lines|
      invariant stocks == Listed(StripAll(lines[..i]))
      invariant range == LastSome(RangesOf(StripAll(lines[..i])))
    {
      ParseStep(lines, i);
      var line := Strip(lines[i]);
      var found := DateRangeOf(line);
      ghost var xs := RangesOf(StripAll(lines[..i])) + [found];
      assert xs[..|xs| - 1] == RangesOf(StripAll(lines[..i]));
      if found.Some? {
        range := found;
      }
      if IsStockLine(line) {
        stocks := stocks + [line];
      } else {
        assert stocks + [] == stocks;
      }
      i := i + 1;
    }
    assert lines[..|lines|] == lines;
    if range.Some? {
      start, end := Some(range.value.0), Some(range.value.1);
    } else {
      start, end := None, None;
    }
  }

  // ---------------------------------------------------------------------
  // Close prices in the shapes the API returns them
  // ---------------------------------------------------------------------

  /**
   * A value an API call returns: None, a number (possibly NaN), a text, a
   * DataFrame (only its close column matters), a dict (its entries in
   * insertion order, keys distinct), or a list or tuple.
   */
  datatype Payload =
    | PNone
    | PNum(x: Float)
    | PText(s: string)
    | PFrame(close: Option<seq<Float>>)
    | PDict(entries: seq<(string, Payload)>)
    | PList(items: seq<Payload>)

  /** `float(x)`: a number, or a text that parses; `None` is the exception. */
  function FloatOf(p: Payload, parse: string -> Option<real>): Option<Float> {
    match p
    case PNum(x) => Some(x)
    case PText(s) => if parse(s).Some? then Some(Some(parse(s).value)) else None
    case _ => None
  }

  /** The index of the entry with key `k`. */
  function KeyIndex(es: seq<(string, Payload)>, k: string): (r: Option<nat>)
    ensures r.Some? ==> r.value < |es| && es[r.value].0 == k
    ensures r.None? ==> forall i :: 0 <= i < |es| ==> es[i].0 != k
  {
    if es == [] then None
    else if es[|es| - 1].0 == k then Some(|es| - 1)
    else KeyIndex(es[..|es| - 1], k)
  }

  /** The keys looked into, in order, for a nested close. */
  const NestedKeys: seq<string> := ["data", "values", "items", "records"]

  /**
   * `_extract_close_value`, without its reason text: the close of a
   * payload, or `None`. A frame gives its last close; a dict its "close"
   * entry, else the first nested key that gives one, else its only value;
   * a list the first dict entry that gives one or the second element of
   * the first pair.
   */
  function ExtractClose(p: Payload, parse: string -> Option<real>): (r: Option<Float>)
    ensures p.PNone? ==> r.None?
    ensures p.PList? && p.items == [] ==> r.None?
    ensures p.PDict? && KeyIndex(p.entries, "close").Some? ==>
      r == FloatOf(p.entries[KeyIndex(p.entries, "close").value].1, parse)
    decreases p, 2
  {
    match p
    case PNone => None
    case PNum(_) => None
    case PText(_) => None
    case PFrame(c) => if c.Some? && |c.value| > 0 then Some(c.value[|c.value| - 1]) else None
    case PDict(es) =>
      var ci := KeyIndex(es, "close");
      if ci.Some? then FloatOf(es[ci.value].1, parse)
      else
        var nested := FromKeys(es, 0, parse);
        if nested.Some? then nested
        else if |es| == 1 then ExtractClose(es[0].1, parse)
        else None
    case PList(items) => if items == [] then None else FromItems(items, 0, parse)
  }

  /** The nested keys from the `k`-th on: the first present one whose value gives a close. */
  function FromKeys(es: seq<(string, Payload)>, k: nat, parse: string -> Option<real>): Option<Float>
    decreases PDict(es), 1, |NestedKeys| - k
  {
    if k >= |NestedKeys| then None
    else
      var i := KeyIndex(es, NestedKeys[k]);
      var r := if i.Some? then ExtractClose(es[i.value].1, parse) else None;
      if r.Some? then r else FromKeys(es, k + 1, parse)
  }

  /** The list entries from the `i`-th on: a dict that gives a close, or the second element of a pair. */
  function FromItems(items: seq<Payload>, i: nat, parse: string -> Option<real>): Option<Float>
    decreases PList(items), 1, |items| - i
  {
    if i >= |items| then None
    else
      var e := items[i];
      if e.PDict? then
        var r := ExtractClose(e, parse);
        if r.Some? then r else FromItems(items, i + 1, parse)
      else if e.PList? && |e.items| >= 2 && e.items[1] != PNone then FloatOf(e.items[1], parse)
      else FromItems(items, i + 1, parse)
  }

  /**
   * `v` occurs in `p` where the parser looks for closes: the last close
   * of a frame, a "close" entry of a dict, or the second element of a
   * pair inside a list, at any depth of dicts and lists.
   */
  predicate Supplies(p: Payload, v: Float, parse: string -> Option<real>)
    decreases p
  {
    match p
    case PFrame(c) => c.Some? && |c.value| > 0 && c.value[|c.value| - 1] == v
    case PDict(es) =>
      exists i :: 0 <= i < |es| && ((es[i].0 == "close" && FloatOf(es[i].1, parse) == Some(v)) || Supplies(es[i].1, v, parse))
    case PList(items) =>
      exists i :: 0 <= i < |items| &&
        (Supplies(items[i], v, parse) ||
         (items[i].PList? && |items[i].items| >= 2 && FloatOf(items[i].items[1], parse) == Some(v)))
    case _ => false
  }

  /** Every close the parser returns was found in a place it looks for one. */
  lemma {:induction false} ExtractSound(p: Payload, parse: string -> Option<real>)
    ensures ExtractClose(p, parse).Some? ==> Supplies(p, ExtractClose(p, parse).value, parse)
    decreases p, 2
  {
    match p {
      case PDict(es) =>
        var ci := KeyIndex(es, "close");
        if ci.Some? {
        } else if FromKeys(es, 0, parse).Some? {
          FromKeysSound(es, 0, parse);
        } else if |es| == 1 {
          ExtractSound(es[0].1, parse);
          if ExtractClose(es[0].1, parse).Some? {
            assert Supplies(es[0].1, ExtractClose(p, parse).value, parse);
          }
        }
      case PList(items) =>
        if items != [] {
          FromItemsSound(items, 0, parse);
        }
      case _ =>
    }
  }

  lemma {:induction false} FromKeysSound(es: seq<(string, Payload)>, k: nat, parse: string -> Option<real>)
    ensures FromKeys(es, k, parse).Some? ==> Supplies(PDict(es), FromKeys(es, k, parse).value, parse)
    decreases PDict(es), 1, |NestedKeys| - k
  {
    if k < |NestedKeys| {
      var i := KeyIndex(es, NestedKeys[k]);
      if i.Some? && ExtractClose(es[i.value].1, parse).Some? {
        ExtractSound(es[i.value].1, parse);
        assert Supplies(es[i.value].1, FromKeys(es, k, parse).value, parse);
      } else {
        FromKeysSound(es, k + 1, parse);
      }
    }
  }

  lemma {:induction false} FromItemsSound(items: seq<Payload>, i: nat, parse: string -> Option<real>)
    ensures FromItems(items, i, parse).Some? ==> Supplies(PList(items), FromItems(items, i, parse).value, parse)
    decreases PList(items), 1, |items| - i
  {
    if i < |items| {
      var e := items[i];
      if e.PDict? && ExtractClose(e, parse).Some? {
        ExtractSound(e, parse);
        assert Supplies(items[i], FromItems(items, i, parse).value, parse);
      } else if !e.PDict? && e.PList? && |e.items| >= 2 && e.items[1] != PNone {
        if FloatOf(e.items[1], parse).Some? {
          assert items[i].PList? && |items[i].items| >= 2 && FloatOf(items[i].items[1], parse) == Some(FromItems(items, i, parse).value);
        }
      } else {
        FromItemsSound(items, i + 1, parse);
      }
    }
  }

  /** What the `k`-th nested key gives on its own: the close of its value, or nothing when it is absent. */
  function KeyYield(es: seq<(string, Payload)>, k: nat, parse: string -> Option<real>): Option<Float>
    requires k < |NestedKeys|
  {
    var i := KeyIndex(es, NestedKeys[k]);
    if i.Some? then ExtractClose(es[i.value].1, parse) else None
  }

  /** One nested key: it decides when it gives a close, otherwise the later keys do. */
  lemma FromKeysUnfold(es: seq<(string, Payload)>, k: nat, parse: string -> Option<real>)
    requires k < |NestedKeys|
    ensures FromKeys(es, k, parse) == if KeyYield(es, k, parse).Some? then KeyYield(es, k, parse) else FromKeys(es, k + 1, parse)
  {
  }

  /**
   * The nested keys are tried in the order "data", "values", "items",
   * "records": the first key that gives a close decides, and none gives
   * nothing.
   */
  lemma {:induction false} FromKeysFirstMatch(es: seq<(string, Payload)>, k: nat, parse: string -> Option<real>)
    ensures (forall m :: k <= m < |NestedKeys| ==> KeyYield(es, m, parse).None?) ==> FromKeys(es, k, parse).None?
    ensures forall j :: (k <= j < |NestedKeys| && KeyYield(es, j, parse).Some? && forall m :: k <= m < j ==> KeyYield(es, m, parse).None?) ==>
      FromKeys(es, k, parse) == KeyYield(es, j, parse)
    decreases |NestedKeys| - k
  {
    if k < |NestedKeys| {
      FromKeysFirstMatch(es, k + 1, parse);
      FromKeysUnfold(es, k, parse);
      forall j | k <= j < |NestedKeys| && KeyYield(es, j, parse).Some? && forall m :: k <= m < j ==> KeyYield(es, m, parse).None?
        ensures FromKeys(es, k, parse) == KeyYield(es, j, parse)
      {
        if j > k {
          assert KeyYield(es, k, parse).None?;
        }
      }
    }
  }

  /** Whether the parser moves past a list entry: a dict without a close, or anything but a pair with a second element. */
  predicate PassesOver(e: Payload, parse: string -> Option<real>) {
    if e.PDict? then ExtractClose(e, parse).None?
    else !(e.PList? && |e.items| >= 2 && e.items[1] != PNone)
  }

  /** What a list entry the parser stops at gives: a dict's close, or the conversion of a pair's second element. */
  function EntryClose(e: Payload, parse: string -> Option<real>): Option<Float> {
    if e.PDict? then ExtractClose(e, parse)
    else if e.PList? && |e.items| >= 2 then FloatOf(e.items[1], parse)
    else None
  }

  /** One list entry: the parser either moves past it or returns what it gives. */
  lemma FromItemsUnfold(items: seq<Payload>, i: nat, parse: string -> Option<real>)
    requires i < |items|
    ensures FromItems(items, i, parse) == if PassesOver(items[i], parse) then FromItems(items, i + 1, parse) else EntryClose(items[i], parse)
  {
  }

  /**
   * List entries are tried in order: the first entry the parser does not
   * move past decides, even when its pair's second element fails to
   * convert; when it moves past every entry there is no close.
   */
  lemma FromItemsFirstMatch(items: seq<Payload>, i: nat, parse: string -> Option<real>)
    requires i <= |items|
    ensures (forall m :: i <= m < |items| ==> PassesOver(items[m], parse)) ==> FromItems(items, i, parse).None?
    ensures forall j :: (i <= j < |items| && !PassesOver(items[j], parse) && forall m :: i <= m < j ==> PassesOver(items[m], parse)) ==>
      FromItems(items, i, parse) == EntryClose(items[j], parse)
  {
    var n := |items|;
    var pass := seq(n, m requires 0 <= m < n => PassesOver(items[m], parse));
    var give := seq(n, m requires 0 <= m < n => EntryClose(items[m], parse));
    var res := seq(n + 1, m requires 0 <= m <= n => FromItems(items, m, parse));
    forall m | 0 <= m < n ensures res[m] == if pass[m] then res[m + 1] else give[m] {
      FromItemsUnfold(items, m, parse);
    }
    assert res[n] == None;
    FirstDecides(pass, give, res, i);
    forall j | i <= j < n && !PassesOver(items[j], parse) && forall m :: i <= m < j ==> PassesOver(items[m], parse)
      ensures FromItems(items, i, parse) == EntryClose(items[j], parse)
    {
      assert !pass[j] && forall m :: i <= m < j ==> pass[m];
    }
  }

  /**
   * A scan that moves past the entries `pass` marks and otherwise stops
   * with what `give` says ends with the first entry it stops at, and with
   * nothing when it stops at none.
   */
  lemma {:induction false} FirstDecides(pass: seq<bool>, give: seq<Option<Float>>, res: seq<Option<Float>>, i: nat)
    requires |give| == |pass| && |res| == |pass| + 1 && i <= |pass|
    requires res[|pass|] == None
    requires forall m :: 0 <= m < |pass| && pass[m] ==> res[m] == res[m + 1]
    requires forall m :: 0 <= m < |pass| && !pass[m] ==> res[m] == give[m]
    ensures (forall m :: i <= m < |pass| ==> pass[m]) ==> res[i] == None
    ensures forall j :: (i <= j < |pass| && !pass[j] && forall m :: i <= m < j ==> pass[m]) ==> res[i] == give[j]
    decreases |pass| - i
  {
    if i < |pass| {
      FirstDecides(pass, give, res, i + 1);
    }
  }

  /** A dict without a "close" entry unfolds to its nested keys, then its single value. */
  lemma DictUnfold(es: seq<(string, Payload)>, parse: string -> Option<real>)
    requires KeyIndex(es, "close").None?
    ensures ExtractClose(PDict(es), parse) ==
      if FromKeys(es, 0, parse).Some? then FromKeys(es, 0, parse) else if |es| == 1 then ExtractClose(es[0].1, parse) else None
  {
  }

  /**
   * A dict without a "close" entry: the first nested key that gives a
   * close decides; when none does, a one-entry dict gives its value's
   * close and any other dict nothing.
   */
  lemma DictPriority(es: seq<(string, Payload)>, parse: string -> Option<real>)
    requires KeyIndex(es, "close").None?
    ensures forall j :: (0 <= j < |NestedKeys| && KeyYield(es, j, parse).Some? && forall m :: 0 <= m < j ==> KeyYield(es, m, parse).None?) ==>
      ExtractClose(PDict(es), parse) == KeyYield(es, j, parse)
    ensures (forall m :: 0 <= m < |NestedKeys| ==> KeyYield(es, m, parse).None?) ==>
      ExtractClose(PDict(es), parse) == if |es| == 1 then ExtractClose(es[0].1, parse) else None
  {
    FromKeysFirstMatch(es, 0, parse);
    DictUnfold(es, parse);
  }

  /** A list: the first entry the parser stops at decides, and a list it passes over gives nothing. */
  lemma ListPriority(items: seq<Payload>, parse: string -> Option<real>)
    ensures forall j :: (0 <= j < |items| && !PassesOver(items[j], parse) && forall m :: 0 <= m < j ==> PassesOver(items[m], parse)) ==>
      ExtractClose(PList(items), parse) == EntryClose(items[j], parse)
    ensures (forall m :: 0 <= m < |items| ==> PassesOver(items[m], parse)) ==> ExtractClose(PList(items), parse).None?
  {
    FromItemsFirstMatch(items, 0, parse);
  }

  /** The nested keys of a one-entry dict give the close of its value or nothing. */
  lemma {:induction false} FromKeysSingle(k: string, p: Payload, n: nat, parse: string -> Option<real>)
    ensures FromKeys([(k, p)], n, parse).Some? ==> FromKeys([(k, p)], n, parse) == ExtractClose(p, parse)
    decreases |NestedKeys| - n
  {
    if n < |NestedKeys| {
      FromKeysSingle(k, p, n + 1, parse);
    }
  }

  /** A dict with a single entry other than "close" gives exactly the close of its value. */
  lemma SingleEntryTransparent(k: string, p: Payload, parse: string -> Option<real>)
    requires k != "close"
    ensures ExtractClose(PDict([(k, p)]), parse) == ExtractClose(p, parse)
  {
    assert KeyIndex([(k, p)], "close") == None;
    FromKeysSingle(k, p, 0, parse);
  }

  // ---------------------------------------------------------------------
  // The script's context attributes and hooks
  // ---------------------------------------------------------------------

  /** One collected row of the export. */
  datatype Record = Record(date: string, stock: string, close: Float)

  /** What `get_history_data` gave: a dict from code to close data, something else, or an exception. */
  datatype HistoryReply = HistoryDict(closes: map<string, Payload>) | NotADict | CallRaised

  /** How one stock's close data reads: a close, nothing usable, or a conversion that raises. */
  datatype Pick = Close(v: Float) | Unusable | Raises

  /** A non-empty list or tuple gives its last element as a float; a number gives itself. */
  function PickClose(p: Payload, parse: string -> Option<real>): Pick {
    match p
    case PList(items) =>
      if items == [] then Unusable
      else
        var f := FloatOf(items[|items| - 1], parse);
        if f.Some? then Close(f.value) else Raises
    case PNum(x) => Close(x)
    case _ => Unusable
  }

  /**
   * The rows a bar collects, in stock-list order: one per listed stock the
   * dict has a usable close for. A conversion that raises ends the bar's
   * collection, keeping the rows collected before it.
   */
  function BarRecords(stocks: seq<string>, closes: map<string, Payload>, date: string, parse: string -> Option<real>): (r: seq<Record>)
    ensures |r| <= |stocks|
    ensures forall x :: x in r ==> x.date == date && x.stock in stocks && x.stock in closes
    decreases |stocks|
  {
    if stocks == [] then []
    else
      var s := stocks[0];
      var rest := BarRecords(stocks[1..], closes, date, parse);
      assert forall t :: t in stocks[1..] ==> t in stocks;
      if s !in closes then rest
      else
        match PickClose(closes[s], parse)
        case Close(v) => [Record(date, s, v)] + rest
        case Unusable => rest
        case Raises => []
  }

  /** `is_last or len(collected) >= 40`. */
  predicate ShouldSave(isLast: bool, collected: nat) {
    isLast || collected >= 40
  }

  /** The five codes the script falls back to when the list file gives none. */
  const FallbackStocks: seq<string> := ["002594.SZ", "000002.SZ", "000001.SZ", "600519.SH", "600036.SH"]

  /** `stock|date`: the download cache key. */
  function CacheKey(stock: string, date: string): string {
    stock + "|" + date
  }

  class ExportSession {
    /** `ContextInfo._stocks`. */
    var stocks: seq<string>
    /** `ContextInfo._start_date` / `_end_date`. */
    var startDate: Option<string>
    var endDate: Option<string>
    /** `ContextInfo._history_preloaded`. */
    var preloaded: bool
    /** `download_history_data` exists on the context. */
    const canDownload: bool
    /** `ContextInfo._history_cache`. */
    var cache: set<string>
    /** Every per-day download started, as its cache key, in order. */
    var downloads: seq<string>
    /** `ContextInfo._collected_data`. */
    var collected: seq<Record>
    /** `ContextInfo._bar_count`. */
    var barCount: nat
    /** The rows of the last CSV written. */
    var saved: Option<seq<Record>>

    /** Only keys whose download went through are cached. */
    predicate Valid()
      reads this
    {
      forall k :: k in cache ==> k in downloads
    }

    /**
     * `init`: read the list (or fall back to five codes), keep its dates,
     * and preload history only when both dates are present and the context
     * can download; `preloadOk` says whether any of the preload's download
     * calls went through.
     */
    constructor (listFile: Option<seq<string>>, canDownload: bool, preloadOk: bool)
      ensures Valid()
      ensures listFile.Some? && Listed(StripAll(listFile.value)) != [] ==> stocks == Listed(StripAll(listFile.value))
      ensures listFile.None? || Listed(StripAll(listFile.value)) == [] ==> stocks == FallbackStocks
      ensures stocks != []
      ensures endDate.Some? <==> startDate.Some?
      ensures startDate.Some? ==> listFile.Some? && Some((startDate.value, endDate.value)) == LastRange(StripAll(listFile.value))
      ensures preloaded <==> canDownload && preloadOk && startDate.Some? && startDate.value != "" && endDate.value != ""
      ensures this.canDownload == canDownload && cache == {} && downloads == [] && collected == [] && barCount == 0 && saved.None?
    {
      var s, a, b := ParseStockList(listFile);
      stocks := if s != [] then s else FallbackStocks;
      startDate, endDate := a, b;
      preloaded := a.Some? && a.value != "" && b.value != "" && canDownload && preloadOk;
      this.canDownload := canDownload;
      cache := {};
      downloads := [];
      collected := [];
      barCount := 0;
      saved := None;
    }

    /**
     * `_ensure_history_for_date`: nothing to do once history is preloaded
     * or the day is cached; otherwise download the day, and cache it if
     * the download went through (`download` says whether it did).
     */
    method EnsureHistory(stock: string, date: string, download: (string, string) -> bool) returns (ok: bool)
      requires Valid()
      modifies this`cache, this`downloads
      ensures Valid()
      ensures preloaded ==> ok && unchanged(this`cache, this`downloads)
      ensures !preloaded && !canDownload ==> !ok && unchanged(this`cache, this`downloads)
      ensures !preloaded && canDownload && CacheKey(stock, date) in old(cache) ==> ok && unchanged(this`cache, this`downloads)
      ensures !preloaded && canDownload && CacheKey(stock, date) !in old(cache) ==>
        downloads == old(downloads) + [CacheKey(stock, date)] && ok == download(stock, date) &&
        (ok ==> cache == old(cache) + {CacheKey(stock, date)}) && (!ok ==> cache == old(cache))
    {
      if preloaded {
        return true;
      }
      if !canDownload {
        return false;
      }
      var key := CacheKey(stock, date);
      if key in cache {
        return true;
      }
      downloads := downloads + [key];
      ok := download(stock, date);
      if ok {
        cache := cache + {key};
      }
    }

    /** The collection loop of one bar. */
    method CollectBar(closes: map<string, Payload>, date: string, parse: string -> Option<real>)
      modifies this`collected
      ensures collected == old(collected) + BarRecords(stocks, closes, date, parse)
    {
      var i := 0;
      while i < |stocks|
        invariant 0 <= i <= |stocks|
        invariant old(collected) + BarRecords(stocks, closes, date, parse) == collected + BarRecords(stocks[i..], closes, date, parse)
      {
        var s := stocks[i];
        assert stocks[i..][0] == s && stocks[i..][1..] == stocks[i + 1..];
        ghost var rest := BarRecords(stocks[i + 1..], closes, date, parse);
        if s in closes {
          var pick := PickClose(closes[s], parse);
          if pick.Raises? {
            assert BarRecords(stocks[i..], closes, date, parse) == [];
            assert collected + [] == collected;
            return;
          }
          if pick.Close? {
            var x := Record(date, s, pick.v);
            assert BarRecords(stocks[i..], closes, date, parse) == [x] + rest;
            AppendAssoc(collected, [x], rest);
            collected := collected + [x];
          }
        }
        i := i + 1;
      }
      assert collected + [] == collected;
    }

    /**
     * `handlebar`: count the bar; with a stock list and a date, collect
     * the bar's closes; then save everything collected so far on the last
     * bar or once 40 rows are in.
     */
    method Handlebar(date: Option<string>, reply: HistoryReply, isLast: bool, parse: string -> Option<real>)
      modifies this`barCount, this`collected, this`saved
      ensures barCount == old(barCount) + 1
      ensures stocks == [] || date.None? ==> collected == old(collected) && saved == old(saved)
      ensures stocks != [] && date.Some? && reply.HistoryDict? ==>
        collected == old(collected) + BarRecords(stocks, reply.closes, date.value, parse)
      ensures stocks != [] && date.Some? && !reply.HistoryDict? ==> collected == old(collected)
      ensures stocks != [] && date.Some? && ShouldSave(isLast, |collected|) && collected != [] ==> saved == Some(collected)
      ensures !(stocks != [] && date.Some? && ShouldSave(isLast, |collected|) && collected != []) ==> saved == old(saved)
    {
      barCount := barCount + 1;
      if stocks == [] || date.None? {
        return;
      }
      if reply.HistoryDict? {
        CollectBar(reply.closes, date.value, parse);
      }
      if ShouldSave(isLast, |collected|) && collected != [] {
        saved := Some(collected);
      }
    }
  }
}
