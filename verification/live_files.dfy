/**
 * The two CSV files the venue hands to the generator during the handshake:
 * the positions file (`_read_positions`) and the live quotes file
 * (`_read_quotes`). Each is read row by row into a map in which a later row
 * for the same code replaces an earlier one. Whether the file exists and
 * Python's `float()` on a cell's text are parameters; a table is given as
 * pandas has read it, with its column names already lower-cased.
 *
 * The readers take their code rules as a `Reader` value, so that their
 * contracts hold for any normaliser; `PositionsReader` and `QuotesReader`
 * hold the ones the two functions use (`Codes.NormalizePosCode` and
 * `Codes.NormalizeQuoteCode`).
 */
module LiveFiles {
  import opened Common
  import opened Text
  import opened Codes
  import opened LiveExchange

  /** A CSV cell: empty or NaN, or the `str()` text of its value. */
  datatype Cell = Blank | Value(text: string)

  /** A table after `read_csv(...).rename(columns=str.lower)`. */
  datatype Table = Table(columns: set<string>, rows: seq<map<string, Cell>>)

  /** The cell of a row under a column; a row lacking the column reads as NaN. */
  function At(row: map<string, Cell>, col: string): Cell {
    if col in row then row[col] else Blank
  }

  /** `str(x)` of a cell: a NaN cell prints as "nan". */
  function CellText(c: Cell): string {
    if c.Blank? then "nan" else c.text
  }

  /** `float(x)` of a cell: NaN stays NaN; `None` is the ValueError of an unparsable text. */
  function CellFloat(c: Cell, parse: string -> Option<real>): Option<Float> {
    if c.Blank? then Some(NaN)
    else if parse(c.text).Some? then Some(Some(parse(c.text).value))
    else None
  }

  const FileNotFound := "FileNotFoundError: file not found"
  const MissingColumn := "ValueError: required column missing"
  const NotAFloat := "ValueError: could not convert string to float"

  // ---------------------------------------------------------------------
  // Keyed loads: the dictionary-filling loop both readers share
  // ---------------------------------------------------------------------

  /** What one row contributes to a keyed load: nothing, a keyed value, or a conversion failure. */
  datatype Entry<V> = Skip | Put(key: string, value: V) | Fail

  /**
   * The rows' entries folded into a dictionary in order: a later key
   * replaces an earlier one, and a failure aborts the whole load.
   */
  function Collect<V>(es: seq<Entry<V>>): Option<map<string, V>> {
    if es == [] then Some(map[])
    else
      var before := Collect(es[..|es| - 1]);
      var e := es[|es| - 1];
      if before.None? || e.Fail? then None
      else if e.Put? then Some(before.value[e.key := e.value])
      else before
  }

  /** The keys the entries put. */
  function PutKeys<V>(es: seq<Entry<V>>): set<string> {
    set i | 0 <= i < |es| && es[i].Put? :: es[i].key
  }

  /** `es[i]` puts `k`, and no later entry puts `k` again. */
  predicate LastFor<V>(es: seq<Entry<V>>, i: int, k: string) {
    0 <= i < |es| && es[i].Put? && es[i].key == k &&
    forall j :: i < j < |es| ==> !(es[j].Put? && es[j].key == k)
  }

  /** The load fails exactly when some entry fails. */
  lemma {:induction false} CollectSucceeds<V>(es: seq<Entry<V>>)
    ensures Collect(es).Some? <==> forall i :: 0 <= i < |es| ==> !es[i].Fail?
  {
    if es != [] {
      var init := es[..|es| - 1];
      CollectSucceeds(init);
      assert forall i :: 0 <= i < |init| ==> init[i] == es[i];
    }
  }

  /**
   * A successful load holds exactly the keys the entries put, each with
   * the value of the last entry that put it.
   */
  lemma {:induction false} CollectLastWins<V>(es: seq<Entry<V>>)
    requires Collect(es).Some?
    ensures Collect(es).value.Keys == PutKeys(es)
    ensures forall k :: k in Collect(es).value ==>
      exists i :: LastFor(es, i, k) && es[i].value == Collect(es).value[k]
  {
    if es != [] {
      var init := es[..|es| - 1];
      var e := es[|es| - 1];
      var m := Collect(es).value;
      CollectLastWins(init);
      assert forall i :: 0 <= i < |init| ==> init[i] == es[i];
      assert PutKeys(es) == PutKeys(init) + (if e.Put? then {e.key} else {}) by {
        forall k | k in PutKeys(es) ensures k in PutKeys(init) + (if e.Put? then {e.key} else {}) {
          var i :| 0 <= i < |es| && es[i].Put? && es[i].key == k;
          if i < |init| { assert init[i].key == k; }
        }
      }
      forall k | k in m ensures exists i :: LastFor(es, i, k) && es[i].value == m[k] {
        if e.Put? && e.key == k {
          assert LastFor(es, |es| - 1, k);
        } else {
          var i :| LastFor(init, i, k) && init[i].value == Collect(init).value[k];
          assert LastFor(es, i, k);
        }
      }
    }
  }

  /** One more row of a load: the step the reading loops take. */
  lemma CollectStep<V>(es: seq<Entry<V>>, i: int)
    requires 0 <= i < |es|
    ensures Collect(es[..i]).Some? && es[i].Put? ==>
      Collect(es[..i + 1]) == Some(Collect(es[..i]).value[es[i].key := es[i].value])
    ensures es[i].Skip? ==> Collect(es[..i + 1]) == Collect(es[..i])
  {
    assert es[..i + 1][..i] == es[..i];
  }

  // ---------------------------------------------------------------------
  // Code rules
  // ---------------------------------------------------------------------

  /**
   * What a reader applies to a row's text: Python's `float()` (`None` is
   * the ValueError), the `strip().upper()` that recognises a CASH row, and
   * the normaliser that turns a code cell into a key.
   */
  datatype Reader = Reader(parse: string -> Option<real>, canon: string -> string, key: string -> string)

  function PosKey(text: string): string {
    NormalizePosCode(Some(text))
  }

  function QuoteKey(text: string): string {
    NormalizeQuoteCode(Some(text))
  }

  /** The rules of `_read_positions`, with its nested `_normalize_pos_code`. */
  function PositionsReader(parse: string -> Option<real>): Reader {
    Reader(parse, Canon, PosKey)
  }

  /** The rules of `_read_quotes`, with its nested `_normalize_quote_code`. */
  function QuotesReader(parse: string -> Option<real>): Reader {
    Reader(parse, Canon, QuoteKey)
  }

  // ---------------------------------------------------------------------
  // Positions file
  // ---------------------------------------------------------------------

  /** `"position" if "position" in df.columns else "pos"` */
  function PosColumn(columns: set<string>): string {
    if "position" in columns then "position" else "pos"
  }

  /** How `_read_positions` treats one row of the positions file. */
  datatype PosRow =
    | Dropped                              // `dropna()` removed it
    | CashRow(amount: string)              // the code is "CASH" once stripped and upper-cased
    | NoCode                               // the code normalises to ""
    | Holding(code: string, amount: string)

  function ClassifyPos(row: map<string, Cell>, posCol: string, rd: Reader): PosRow {
    var code := At(row, "code");
    var amount := At(row, posCol);
    if code.Blank? || amount.Blank? then Dropped
    else if rd.canon(code.text) == "CASH" then CashRow(amount.text)
    else
      var c := rd.key(code.text);
      if c == "" then NoCode else Holding(c, amount.text)
  }

  /** A row's contribution to the holdings: a cash row only by failing to convert. */
  function HoldingEntry(row: map<string, Cell>, posCol: string, rd: Reader): Entry<real> {
    match ClassifyPos(row, posCol, rd)
    case Holding(c, a) => if rd.parse(a).Some? then Put(c, rd.parse(a).value) else Fail
    case CashRow(a) => if rd.parse(a).Some? then Skip else Fail
    case _ => Skip
  }

  /** A row's contribution to the cash: only cash rows count. */
  function CashEntry(row: map<string, Cell>, posCol: string, rd: Reader): Entry<real> {
    match ClassifyPos(row, posCol, rd)
    case CashRow(a) => if rd.parse(a).Some? then Put("CASH", rd.parse(a).value) else Fail
    case _ => Skip
  }

  /** The holdings entries of the rows, in row order. */
  function HoldingEntries(rows: seq<map<string, Cell>>, posCol: string, rd: Reader): (r: seq<Entry<real>>)
    ensures |r| == |rows|
  {
    if rows == [] then []
    else HoldingEntries(rows[..|rows| - 1], posCol, rd) + [HoldingEntry(rows[|rows| - 1], posCol, rd)]
  }

  lemma {:induction false} HoldingEntryAt(rows: seq<map<string, Cell>>, posCol: string, rd: Reader, i: int)
    requires 0 <= i < |rows|
    ensures HoldingEntries(rows, posCol, rd)[i] == HoldingEntry(rows[i], posCol, rd)
  {
    if i < |rows| - 1 {
      HoldingEntryAt(rows[..|rows| - 1], posCol, rd, i);
    }
  }

  /** The cash entries of the rows, in row order. */
  function CashEntries(rows: seq<map<string, Cell>>, posCol: string, rd: Reader): (r: seq<Entry<real>>)
    ensures |r| == |rows|
  {
    if rows == [] then []
    else CashEntries(rows[..|rows| - 1], posCol, rd) + [CashEntry(rows[|rows| - 1], posCol, rd)]
  }

  lemma {:induction false} CashEntryAt(rows: seq<map<string, Cell>>, posCol: string, rd: Reader, i: int)
    requires 0 <= i < |rows|
    ensures CashEntries(rows, posCol, rd)[i] == CashEntry(rows[i], posCol, rd)
  {
    if i < |rows| - 1 {
      CashEntryAt(rows[..|rows| - 1], posCol, rd, i);
    }
  }

  /**
   * What `_read_positions` returns: the bare empty dict when no path is
   * given (not a pair), or the holdings with the cash of the CASH row.
   */
  datatype PositionsRead = BareEmpty | Positions(holdings: map<string, real>, cash: Option<real>)

  /** The cash a cash load found, if any. */
  function CashIn(m: Option<map<string, real>>): Option<real> {
    if m.Some? && "CASH" in m.value then Some(m.value["CASH"]) else None
  }

  /** `_read_positions` as a whole. */
  function ParsePositions(path: string, file: Option<Table>, rd: Reader): Outcome<PositionsRead> {
    if path == "" then Ok(BareEmpty)
    else if file.None? then Raised(FileNotFound)
    else
      var t := file.value;
      var posCol := PosColumn(t.columns);
      if "code" !in t.columns || posCol !in t.columns then Raised(MissingColumn)
      else
        var h := Collect(HoldingEntries(t.rows, posCol, rd));
        if h.None? then Raised(NotAFloat)
        else Ok(Positions(h.value, CashIn(Collect(CashEntries(t.rows, posCol, rd)))))
  }

  /** The loop of `_read_positions` after `i` rows: holdings and cash are those of the first `i` rows. */
  predicate PositionsScan(rows: seq<map<string, Cell>>, posCol: string, rd: Reader,
                          i: int, holdings: map<string, real>, cash: Option<real>) {
    0 <= i <= |rows| &&
    Collect(HoldingEntries(rows, posCol, rd)[..i]) == Some(holdings) &&
    Collect(CashEntries(rows, posCol, rd)[..i]).Some? &&
    cash == CashIn(Collect(CashEntries(rows, posCol, rd)[..i]))
  }

  lemma ScanSkip(rows: seq<map<string, Cell>>, posCol: string, rd: Reader,
                 i: int, holdings: map<string, real>, cash: Option<real>)
    requires PositionsScan(rows, posCol, rd, i, holdings, cash) && i < |rows|
    requires ClassifyPos(rows[i], posCol, rd).Dropped? || ClassifyPos(rows[i], posCol, rd).NoCode?
    ensures PositionsScan(rows, posCol, rd, i + 1, holdings, cash)
  {
    HoldingEntryAt(rows, posCol, rd, i);
    CashEntryAt(rows, posCol, rd, i);
    CollectStep(HoldingEntries(rows, posCol, rd), i);
    CollectStep(CashEntries(rows, posCol, rd), i);
  }

  lemma ScanCash(rows: seq<map<string, Cell>>, posCol: string, rd: Reader,
                 i: int, holdings: map<string, real>, cash: Option<real>, v: real)
    requires PositionsScan(rows, posCol, rd, i, holdings, cash) && i < |rows|
    requires ClassifyPos(rows[i], posCol, rd).CashRow? && rd.parse(ClassifyPos(rows[i], posCol, rd).amount) == Some(v)
    ensures PositionsScan(rows, posCol, rd, i + 1, holdings, Some(v))
  {
    HoldingEntryAt(rows, posCol, rd, i);
    CashEntryAt(rows, posCol, rd, i);
    CollectStep(HoldingEntries(rows, posCol, rd), i);
    CollectStep(CashEntries(rows, posCol, rd), i);
  }

  lemma ScanHolding(rows: seq<map<string, Cell>>, posCol: string, rd: Reader,
                    i: int, holdings: map<string, real>, cash: Option<real>, v: real)
    requires PositionsScan(rows, posCol, rd, i, holdings, cash) && i < |rows|
    requires ClassifyPos(rows[i], posCol, rd).Holding? && rd.parse(ClassifyPos(rows[i], posCol, rd).amount) == Some(v)
    ensures PositionsScan(rows, posCol, rd, i + 1, holdings[ClassifyPos(rows[i], posCol, rd).code := v], cash)
  {
    HoldingEntryAt(rows, posCol, rd, i);
    CashEntryAt(rows, posCol, rd, i);
    CollectStep(HoldingEntries(rows, posCol, rd), i);
    CollectStep(CashEntries(rows, posCol, rd), i);
  }

  lemma ScanFail(rows: seq<map<string, Cell>>, posCol: string, rd: Reader, i: int)
    requires 0 <= i < |rows|
    requires (ClassifyPos(rows[i], posCol, rd).CashRow? || ClassifyPos(rows[i], posCol, rd).Holding?) &&
      rd.parse(ClassifyPos(rows[i], posCol, rd).amount).None?
    ensures Collect(HoldingEntries(rows, posCol, rd)).None?
  {
    HoldingEntryAt(rows, posCol, rd, i);
    CollectSucceeds(HoldingEntries(rows, posCol, rd));
  }

  lemma ScanDone(rows: seq<map<string, Cell>>, posCol: string, rd: Reader,
                 holdings: map<string, real>, cash: Option<real>)
    requires PositionsScan(rows, posCol, rd, |rows|, holdings, cash)
    ensures Collect(HoldingEntries(rows, posCol, rd)) == Some(holdings)
    ensures cash == CashIn(Collect(CashEntries(rows, posCol, rd)))
  {
    assert HoldingEntries(rows, posCol, rd)[..|rows|] == HoldingEntries(rows, posCol, rd);
    assert CashEntries(rows, posCol, rd)[..|rows|] == CashEntries(rows, posCol, rd);
  }

  /**
   * `_read_positions`: the rows `dropna` keeps are read in order; a CASH
   * row sets the cash, a row whose code normalises to "" is skipped, and
   * any other row sets the holding of its normalised code.
   */
  method ReadPositions(path: string, file: Option<Table>, rd: Reader) returns (r: Outcome<PositionsRead>)
    ensures r == ParsePositions(path, file, rd)
  {
    if path == "" {
      return Ok(BareEmpty);
    }
    if file.None? {
      return Raised(FileNotFound);
    }
    var t := file.value;
    var posCol := PosColumn(t.columns);
    if "code" !in t.columns || posCol !in t.columns {
      return Raised(MissingColumn);
    }
    var holdings: map<string, real> := map[];
    var cash: Option<real> := None;
    var i := 0;
    while i < |t.rows|
      invariant 0 <= i <= |t.rows|
      invariant PositionsScan(t.rows, posCol, rd, i, holdings, cash)
    {
      match ClassifyPos(t.rows[i], posCol, rd) {
      case Dropped =>
        ScanSkip(t.rows, posCol, rd, i, holdings, cash);
      case NoCode =>
        ScanSkip(t.rows, posCol, rd, i, holdings, cash);
      case CashRow(amount) =>
        var v := rd.parse(amount);
        if v.None? {
          ScanFail(t.rows, posCol, rd, i);
          return Raised(NotAFloat);
        }
        ScanCash(t.rows, posCol, rd, i, holdings, cash, v.value);
        cash := Some(v.value);
      case Holding(code, amount) =>
        var v := rd.parse(amount);
        if v.None? {
          ScanFail(t.rows, posCol, rd, i);
          return Raised(NotAFloat);
        }
        ScanHolding(t.rows, posCol, rd, i, holdings, cash, v.value);
        holdings := holdings[code := v.value];
      }
      i := i + 1;
    }
    ScanDone(t.rows, posCol, rd, holdings, cash);
    r := Ok(Positions(holdings, cash));
  }

  /**
   * Reading positions fails only for a missing file, a missing code or
   * position/pos column, or an amount that does not convert; when it
   * succeeds every holding is the amount of the last row of its key, and
   * no key is empty.
   */
  lemma ParsePositionsSpec(path: string, t: Table, rd: Reader)
    requires path != "" && "code" in t.columns && PosColumn(t.columns) in t.columns
    ensures ParsePositions(path, Some(t), rd).Ok? <==>
      forall i :: 0 <= i < |t.rows| ==> !HoldingEntries(t.rows, PosColumn(t.columns), rd)[i].Fail?
    ensures var he := HoldingEntries(t.rows, PosColumn(t.columns), rd);
      var r := ParsePositions(path, Some(t), rd);
      r.Ok? ==> r.value.Positions? && r.value.holdings.Keys == PutKeys(he) && "" !in r.value.holdings
    ensures var he := HoldingEntries(t.rows, PosColumn(t.columns), rd);
      var r := ParsePositions(path, Some(t), rd);
      r.Ok? ==> forall k :: k in r.value.holdings ==> exists i :: LastFor(he, i, k) && he[i].value == r.value.holdings[k]
  {
    var he := HoldingEntries(t.rows, PosColumn(t.columns), rd);
    CollectSucceeds(he);
    if Collect(he).Some? {
      CollectLastWins(he);
      forall i | 0 <= i < |he| && he[i].Put? ensures he[i].key != "" {
        HoldingEntryAt(t.rows, PosColumn(t.columns), rd, i);
      }
    } else {
      var i :| 0 <= i < |he| && he[i].Fail?;
      assert he[i] == HoldingEntries(t.rows, PosColumn(t.columns), rd)[i];
    }
  }

  /**
   * A holding is put only by a row that is not a cash row: its code,
   * stripped and upper-cased, is not "CASH", the key is its normalised
   * code, and the value its converted amount.
   */
  lemma HoldingRowsAreNotCash(t: Table, rd: Reader, i: int)
    requires 0 <= i < |t.rows|
    ensures var posCol := PosColumn(t.columns);
      var e := HoldingEntries(t.rows, posCol, rd)[i];
      var code := At(t.rows[i], "code");
      e.Put? ==>
        code.Value? && rd.canon(code.text) != "CASH" && e.key == rd.key(code.text) &&
        At(t.rows[i], posCol).Value? && Some(e.value) == rd.parse(At(t.rows[i], posCol).text)
  {
    HoldingEntryAt(t.rows, PosColumn(t.columns), rd, i);
  }

  /**
   * The cash is that of the last CASH row, and there is none when no row
   * is a CASH row.
   */
  lemma ParseCashSpec(path: string, t: Table, rd: Reader)
    requires path != "" && "code" in t.columns && PosColumn(t.columns) in t.columns
    requires ParsePositions(path, Some(t), rd).Ok?
    ensures var posCol := PosColumn(t.columns);
      var ce := CashEntries(t.rows, posCol, rd);
      var cash := ParsePositions(path, Some(t), rd).value.cash;
      (cash.None? <==> forall i :: 0 <= i < |t.rows| ==> !ClassifyPos(t.rows[i], posCol, rd).CashRow?) &&
      (cash.Some? ==> exists i :: (LastFor(ce, i, "CASH") && ClassifyPos(t.rows[i], posCol, rd).CashRow? &&
        Some(cash.value) == rd.parse(ClassifyPos(t.rows[i], posCol, rd).amount)))
  {
    var posCol := PosColumn(t.columns);
    var he := HoldingEntries(t.rows, posCol, rd);
    var ce := CashEntries(t.rows, posCol, rd);
    CashLoadSucceeds(t.rows, posCol, rd);
    CollectLastWins(ce);
    if exists i :: 0 <= i < |t.rows| && ClassifyPos(t.rows[i], posCol, rd).CashRow? {
      var i :| 0 <= i < |t.rows| && ClassifyPos(t.rows[i], posCol, rd).CashRow?;
      CashRowPuts(t.rows, posCol, rd, i);
    }
    var cash := Collect(ce).value;
    if "CASH" in cash {
      var i :| LastFor(ce, i, "CASH") && ce[i].value == cash["CASH"];
      CashEntryAt(t.rows, posCol, rd, i);
      CashEntryPut(t.rows[i], posCol, rd);
    }
  }

  /** Only a cash row puts a cash entry, and it puts its converted amount. */
  lemma CashEntryPut(row: map<string, Cell>, posCol: string, rd: Reader)
    requires CashEntry(row, posCol, rd).Put?
    ensures ClassifyPos(row, posCol, rd).CashRow?
    ensures rd.parse(ClassifyPos(row, posCol, rd).amount) == Some(CashEntry(row, posCol, rd).value)
  {
  }

  /** When the holdings load succeeds, so does the cash load. */
  lemma CashLoadSucceeds(rows: seq<map<string, Cell>>, posCol: string, rd: Reader)
    requires Collect(HoldingEntries(rows, posCol, rd)).Some?
    ensures Collect(CashEntries(rows, posCol, rd)).Some?
  {
    var he := HoldingEntries(rows, posCol, rd);
    var ce := CashEntries(rows, posCol, rd);
    CollectSucceeds(he);
    forall i | 0 <= i < |ce| ensures !ce[i].Fail? {
      assert !he[i].Fail?;
      HoldingEntryAt(rows, posCol, rd, i);
      CashEntryAt(rows, posCol, rd, i);
    }
    CollectSucceeds(ce);
  }

  /** A cash row puts "CASH" into a successful cash load. */
  lemma CashRowPuts(rows: seq<map<string, Cell>>, posCol: string, rd: Reader, i: int)
    requires 0 <= i < |rows| && ClassifyPos(rows[i], posCol, rd).CashRow?
    requires Collect(HoldingEntries(rows, posCol, rd)).Some?
    ensures Collect(CashEntries(rows, posCol, rd)).Some? && "CASH" in Collect(CashEntries(rows, posCol, rd)).value
  {
    var he := HoldingEntries(rows, posCol, rd);
    var ce := CashEntries(rows, posCol, rd);
    CollectSucceeds(he);
    assert !he[i].Fail?;
    HoldingEntryAt(rows, posCol, rd, i);
    CashEntryAt(rows, posCol, rd, i);
    CashLoadSucceeds(rows, posCol, rd);
    CollectLastWins(ce);
    assert "CASH" in PutKeys(ce);
  }

  /**
   * "CASH" is not reserved as a holding key: a row whose code is "cash.0"
   * is not taken for the cash row, yet it is read as a holding of "CASH".
   */
  lemma CashDotZeroIsHolding(row: map<string, Cell>, posCol: string, parse: string -> Option<real>)
    requires At(row, "code") == Value("cash.0") && At(row, posCol).Value?
    ensures ClassifyPos(row, posCol, PositionsReader(parse)) == Holding("CASH", At(row, posCol).text)
  {
    PosCodeCashDotZero();
  }

  // ---------------------------------------------------------------------
  // Quotes file
  // ---------------------------------------------------------------------

  /** An optional quote column: NaN when the file has no such column. */
  function FieldOf(row: map<string, Cell>, columns: set<string>, col: string, parse: string -> Option<real>): Option<Float> {
    if col !in columns then Some(NaN) else CellFloat(At(row, col), parse)
  }

  /**
   * A quotes row: its code normalised (a NaN code prints as "nan"), skipped
   * when that is empty; otherwise the five fields converted with `float()`,
   * any failure aborting the read.
   */
  function QuoteEntry(row: map<string, Cell>, columns: set<string>, rd: Reader): Entry<Quote> {
    var code := rd.key(CellText(At(row, "code")));
    if code == "" then Skip
    else
      var last := CellFloat(At(row, "last"), rd.parse);
      var bid1 := FieldOf(row, columns, "bid1", rd.parse);
      var ask1 := FieldOf(row, columns, "ask1", rd.parse);
      var hi := FieldOf(row, columns, "high_limit", rd.parse);
      var lo := FieldOf(row, columns, "low_limit", rd.parse);
      if last.None? || bid1.None? || ask1.None? || hi.None? || lo.None? then Fail
      else Put(code, Quote(last.value, bid1.value, ask1.value, hi.value, lo.value))
  }

  /** The quote entries of the rows, in row order. */
  function QuoteEntries(rows: seq<map<string, Cell>>, columns: set<string>, rd: Reader): (r: seq<Entry<Quote>>)
    ensures |r| == |rows|
  {
    if rows == [] then []
    else QuoteEntries(rows[..|rows| - 1], columns, rd) + [QuoteEntry(rows[|rows| - 1], columns, rd)]
  }

  lemma {:induction false} QuoteEntryAt(rows: seq<map<string, Cell>>, columns: set<string>, rd: Reader, i: int)
    requires 0 <= i < |rows|
    ensures QuoteEntries(rows, columns, rd)[i] == QuoteEntry(rows[i], columns, rd)
  {
    if i < |rows| - 1 {
      QuoteEntryAt(rows[..|rows| - 1], columns, rd, i);
    }
  }

  /** `_read_quotes` as a whole. */
  function ParseQuotes(path: string, file: Option<Table>, rd: Reader): Outcome<Quotes> {
    if path == "" then Ok(map[])
    else if file.None? then Raised(FileNotFound)
    else
      var t := file.value;
      if "code" !in t.columns || "last" !in t.columns then Raised(MissingColumn)
      else
        var q := Collect(QuoteEntries(t.rows, t.columns, rd));
        if q.None? then Raised(NotAFloat) else Ok(q.value)
  }

  /** `_read_quotes`: the rows read in order into a code-to-quote dictionary. */
  method ReadQuotes(path: string, file: Option<Table>, rd: Reader) returns (r: Outcome<Quotes>)
    ensures r == ParseQuotes(path, file, rd)
  {
    if path == "" {
      return Ok(map[]);
    }
    if file.None? {
      return Raised(FileNotFound);
    }
    var t := file.value;
    if "code" !in t.columns || "last" !in t.columns {
      return Raised(MissingColumn);
    }
    ghost var qe := QuoteEntries(t.rows, t.columns, rd);
    var records: Quotes := map[];
    var i := 0;
    while i < |t.rows|
      invariant 0 <= i <= |t.rows|
      invariant Collect(qe[..i]) == Some(records)
    {
      CollectStep(qe, i);
      QuoteEntryAt(t.rows, t.columns, rd, i);
      var e := QuoteEntry(t.rows[i], t.columns, rd);
      if e.Fail? {
        CollectSucceeds(qe);
        return Raised(NotAFloat);
      }
      if e.Put? {
        records := records[e.key := e.value];
      }
      i := i + 1;
    }
    assert qe[..i] == qe;
    r := Ok(records);
  }

  /**
   * A successful quotes read holds one quote per non-empty normalised code,
   * that of the code's last row; a quote's `last` is the row's converted
   * `last` cell, and each optional field is NaN when its column is absent.
   */
  lemma ParseQuotesSpec(path: string, t: Table, rd: Reader)
    requires path != "" && "code" in t.columns && "last" in t.columns
    requires ParseQuotes(path, Some(t), rd).Ok?
    ensures var qe := QuoteEntries(t.rows, t.columns, rd);
      var q := ParseQuotes(path, Some(t), rd).value;
      q.Keys == PutKeys(qe) && "" !in q &&
      forall k :: k in q ==> exists i :: LastFor(qe, i, k) && QuoteFromRow(q[k], k, t.rows[i], t.columns, rd)
  {
    var qe := QuoteEntries(t.rows, t.columns, rd);
    var q := Collect(qe).value;
    CollectLastWins(qe);
    forall k | k in q ensures exists i :: LastFor(qe, i, k) && QuoteFromRow(q[k], k, t.rows[i], t.columns, rd) {
      var i :| LastFor(qe, i, k) && qe[i].value == q[k];
      QuoteEntryAt(t.rows, t.columns, rd, i);
      assert QuoteFromRow(q[k], k, t.rows[i], t.columns, rd);
    }
    if "" in q {
      var i :| LastFor(qe, i, "") && qe[i].value == q[""];
      QuoteEntryAt(t.rows, t.columns, rd, i);
    }
  }

  /** `q` is the quote row `row` gives under key `k`. */
  predicate QuoteFromRow(q: Quote, k: string, row: map<string, Cell>, columns: set<string>, rd: Reader) {
    k == rd.key(CellText(At(row, "code"))) &&
    Some(q.last) == CellFloat(At(row, "last"), rd.parse) &&
    ("bid1" !in columns ==> q.bid1 == NaN) &&
    ("ask1" !in columns ==> q.ask1 == NaN) &&
    ("high_limit" !in columns ==> q.highLimit == NaN) &&
    ("low_limit" !in columns ==> q.lowLimit == NaN)
  }

  /** A quotes row whose code cell is NaN is not dropped: it is stored under "NAN". */
  lemma NaNCodeKeptAsNAN()
    ensures QuoteKey(CellText(Blank)) == "NAN"
  {
    assert Canon("nan") == "NAN" by {
      assert Trimmed("nan") by { assert "nan"[0] == 'n' && "nan"[2] == 'n'; }
      CanonOfTrimmed("nan");
      UpperNan();
    }
    assert "NAN" != [] && '.' !in "NAN" by { assert "NAN"[0] == 'N' && "NAN"[1] == 'A' && "NAN"[2] == 'N'; }
    QuoteCanonNoDot("nan");
  }

  lemma UpperNan()
    ensures Upper("nan") == "NAN"
  {
    var u := Upper("nan");
    assert u[0] == 'N' && u[1] == 'A' && u[2] == 'N';
  }
}
