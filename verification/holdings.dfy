/**
 * The holdings side of the daily predictor: reading the current holdings
 * from a JSON string or file (`_load_current_holdings`), and repairing the
 * position's prices before orders are generated (`_ensure_position_prices`).
 * The file system, the JSON parser, Python's float parser and the price
 * fetcher are parameters.
 */
module Holdings {
  import opened Common
  import opened Text
  import opened Pricing

  /** A parsed JSON value; an object is the member list the parser returns, keys distinct. */
  datatype Json =
    | JNull
    | JBool(b: bool)
    | JNum(n: real)
    | JStr(s: string)
    | JArr(items: seq<Json>)
    | JObj(members: seq<(string, Json)>)

  /** `float(x)` on a JSON value: numbers and booleans convert, strings go through the parser, the rest raise. */
  function ToFloat(v: Json, parseFloat: string -> Option<real>): Option<real> {
    match v
    case JNum(n) => Some(n)
    case JBool(b) => Some(if b then 1.0 else 0.0)
    case JStr(s) => parseFloat(s)
    case _ => None
  }

  /** The member names of a JSON object. */
  function Names(members: seq<(string, Json)>): set<string> {
    set i | 0 <= i < |members| :: members[i].0
  }

  /** Member names are pairwise distinct, as a parsed dict's keys are. */
  predicate DistinctNames(members: seq<(string, Json)>) {
    forall i, j :: 0 <= i < j < |members| ==> members[i].0 != members[j].0
  }

  /**
   * The holdings loop: each member converted with `float`, in member order;
   * the first member that does not convert raises ValueError.
   */
  function HoldingsOf(members: seq<(string, Json)>, parseFloat: string -> Option<real>): Outcome<map<string, real>> {
    if members == [] then Ok(map[])
    else
      var before := HoldingsOf(members[..|members| - 1], parseFloat);
      var last := members[|members| - 1];
      if before.Raised? then before
      else
        var amount := ToFloat(last.1, parseFloat);
        if amount.None? then Raised("ValueError: holding amount is not a number")
        else Ok(before.value[last.0 := amount.value])
  }

  /**
   * `_load_current_holdings`: nothing or a blank string gives no holdings;
   * an existing path is read, anything else is the JSON text itself; the
   * text must parse to a JSON object whose values all convert to floats.
   */
  function LoadCurrentHoldings(source: Option<string>, isFile: string -> bool, read: string -> Outcome<string>,
                               parse: string -> Option<Json>, parseFloat: string -> Option<real>)
    : (r: Outcome<map<string, real>>)
    ensures (source.None? || forall i :: 0 <= i < |source.value| ==> IsSpace(source.value[i])) ==> r == Ok(map[])
  {
    if source.None? || source.value == "" then Ok(map[])
    else
      var path := Strip(source.value);
      if path == "" then Ok(map[])
      else
        var text := if isFile(path) then read(path) else Ok(path);
        if text.Raised? then Raised("ValueError: cannot read the holdings file")
        else
          var parsed := parse(text.value);
          if parsed.None? then Raised("ValueError: holdings are not valid JSON")
          else if !parsed.value.JObj? then Raised("ValueError: holdings must be a JSON object")
          else HoldingsOf(parsed.value.members, parseFloat)
  }

  /**
   * The holdings loop succeeds exactly when every member converts; it then
   * has one entry per member name, holding that member's converted amount.
   */
  lemma {:induction false} HoldingsOfSpec(members: seq<(string, Json)>, parseFloat: string -> Option<real>)
    requires DistinctNames(members)
    ensures HoldingsOf(members, parseFloat).Ok? <==>
      forall i :: 0 <= i < |members| ==> ToFloat(members[i].1, parseFloat).Some?
    ensures HoldingsOf(members, parseFloat).Ok? ==>
      HoldingsOf(members, parseFloat).value.Keys == Names(members) &&
      forall i :: 0 <= i < |members| ==>
        HoldingsOf(members, parseFloat).value[members[i].0] == ToFloat(members[i].1, parseFloat).value
  {
    if members != [] {
      var init := members[..|members| - 1];
      var last := members[|members| - 1];
      assert DistinctNames(init);
      HoldingsOfSpec(init, parseFloat);
      assert forall i :: 0 <= i < |init| ==> init[i] == members[i];
      assert Names(members) == Names(init) + {last.0} by {
        forall n | n in Names(members) ensures n in Names(init) + {last.0} {
          var i :| 0 <= i < |members| && members[i].0 == n;
          if i < |init| { assert init[i].0 == n; }
        }
      }
      assert last.0 !in Names(init);
    }
  }

  /**
   * Every way the loader can fail raises ValueError: an unreadable file,
   * text that is not JSON, JSON that is not an object, or an amount that is
   * not a number.
   */
  lemma LoadFailures(source: string, isFile: string -> bool, read: string -> Outcome<string>,
                     parse: string -> Option<Json>, parseFloat: string -> Option<real>)
    requires Strip(source) != ""
    ensures var path := Strip(source);
      var r := LoadCurrentHoldings(Some(source), isFile, read, parse, parseFloat);
      (isFile(path) && read(path).Raised? ==> r.Raised?) &&
      (!isFile(path) && parse(path).None? ==> r.Raised?) &&
      (!isFile(path) && parse(path).Some? && !parse(path).value.JObj? ==> r.Raised?) &&
      (!isFile(path) && parse(path).Some? && parse(path).value.JObj? ==>
        r == HoldingsOf(parse(path).value.members, parseFloat))
  {
    assert source != "";
  }

  /** A position entry: a bare number, or a record with an amount and maybe a price (NaN allowed). */
  datatype PosEntry = Number(value: real) | Record(amount: real, price: Option<Float>)

  /** Cash entries are the codes starting with "cash". */
  predicate IsCashCode(code: string) {
    StartsWith(code, "cash")
  }

  /** The cash amount of a cash entry: the number itself, or the record's amount. */
  function CashAmount(e: PosEntry): real {
    if e.Number? then e.value else e.amount
  }

  /** A bare-number holding becomes a record with amount and price 0; a record stays. */
  function Normalized(e: PosEntry): PosEntry {
    if e.Number? then Record(e.value, Some(Some(0.0))) else e
  }

  /** The price is missing when absent or at most 0; a NaN price does not count as missing. */
  predicate MissingPrice(e: PosEntry) {
    e.Record? && (e.price.None? || (e.price.value.Some? && e.price.value.value <= 0.0))
  }

  /** The holding codes whose normalised entry lacks a usable price. */
  function MissingCodes(pos: map<string, PosEntry>): set<string> {
    set code | code in pos && !IsCashCode(code) && MissingPrice(Normalized(pos[code]))
  }

  /** The reference price of a code: the first non-NaN table row of it, when above 0. */
  function ReferencePrice(rows: seq<PriceRow>, code: string): Option<real> {
    if rows == [] then None
    else if rows[0].instrument == code && rows[0].price.Some? then
      (if rows[0].price.value > 0.0 then Some(rows[0].price.value) else None)
    else ReferencePrice(rows[1..], code)
  }

  /** The fetched price of a code: the last fetched row of it with a usable price. */
  function FetchedPrice(rows: seq<PriceRow>, code: string): (r: Option<real>)
    ensures r.Some? ==> r.value > 0.0
  {
    if rows == [] then None
    else
      var last := rows[|rows| - 1];
      if last.instrument == code && IsValidPrice(last.price) then Some(last.price.value)
      else FetchedPrice(rows[..|rows| - 1], code)
  }

  /** The reference table's price of a missing code, when the table is given. */
  function TablePrice(reference: Option<seq<PriceRow>>, code: string): Option<real> {
    if reference.Some? then ReferencePrice(reference.value, code) else None
  }

  /** The codes the reference table leaves unpriced: those the fetcher is asked for. */
  function StillMissing(pos: map<string, PosEntry>, reference: Option<seq<PriceRow>>): set<string> {
    set code | code in MissingCodes(pos) && TablePrice(reference, code).None?
  }

  /** `price_map.get(code, 0.0)`: the table's price, else the fetched one, else 0. */
  function RepairedPrice(pos: map<string, PosEntry>, reference: Option<seq<PriceRow>>,
                         fetch: set<string> -> seq<PriceRow>, code: string): real {
    var table := TablePrice(reference, code);
    if table.Some? then table.value
    else
      var still := StillMissing(pos, reference);
      var fetched := if still != {} then FetchedPrice(fetch(still), code) else None;
      if fetched.Some? then fetched.value else 0.0
  }

  /**
   * `_ensure_position_prices`: with no entries, or no holding missing a
   * price, the position is left as it is; otherwise cash entries become
   * plain amounts, bare numbers become records, and each holding missing
   * a price gets the repaired one.
   */
  function EnsurePositionPrices(pos: map<string, PosEntry>, reference: Option<seq<PriceRow>>,
                                fetch: set<string> -> seq<PriceRow>): (r: map<string, PosEntry>)
    ensures r.Keys == pos.Keys
  {
    if pos == map[] || MissingCodes(pos) == {} then pos
    else
      map code | code in pos ::
        if IsCashCode(code) then Number(CashAmount(pos[code]))
        else if code in MissingCodes(pos) then Normalized(pos[code]).(price := Some(Some(RepairedPrice(pos, reference, fetch, code))))
        else Normalized(pos[code])
  }

  lemma {:induction false} ReferencePricePositive(rows: seq<PriceRow>, code: string)
    ensures ReferencePrice(rows, code).Some? ==> ReferencePrice(rows, code).value > 0.0
  {
    if rows != [] && !(rows[0].instrument == code && rows[0].price.Some?) {
      ReferencePricePositive(rows[1..], code);
    }
  }

  /**
   * After the repair every holding has a price: the reference table's when
   * it has a usable one, else the last usable fetched one, else 0 (an
   * unresolved price is set to 0 rather than reported). Holdings whose
   * price was usable keep their record, and cash entries keep their amount.
   */
  lemma RepairSpec(pos: map<string, PosEntry>, reference: Option<seq<PriceRow>>,
                   fetch: set<string> -> seq<PriceRow>, code: string)
    requires code in pos && MissingCodes(pos) != {}
    ensures var r := EnsurePositionPrices(pos, reference, fetch);
      (IsCashCode(code) ==> r[code] == Number(CashAmount(pos[code]))) &&
      (!IsCashCode(code) && !MissingPrice(Normalized(pos[code])) ==> r[code] == pos[code] && pos[code].Record?) &&
      (!IsCashCode(code) && MissingPrice(Normalized(pos[code])) ==>
        r[code].Record? && r[code].amount == Normalized(pos[code]).amount &&
        r[code].price == Some(Some(RepairedPrice(pos, reference, fetch, code))))
    ensures var p := RepairedPrice(pos, reference, fetch, code);
      (p > 0.0 || p == 0.0) &&
      (TablePrice(reference, code).Some? ==> p == TablePrice(reference, code).value) &&
      (TablePrice(reference, code).None? && FetchedPrice(fetch(StillMissing(pos, reference)), code).None? ==> p == 0.0)
  {
    if reference.Some? {
      ReferencePricePositive(reference.value, code);
    }
    if TablePrice(reference, code).None? && code in MissingCodes(pos) {
      assert code in StillMissing(pos, reference);
    }
  }

  /** With no holding missing a price, the position is left exactly as it was. */
  lemma NothingMissingUnchanged(pos: map<string, PosEntry>, reference: Option<seq<PriceRow>>,
                                fetch: set<string> -> seq<PriceRow>)
    requires forall code :: code in pos && !IsCashCode(code) ==> !MissingPrice(Normalized(pos[code]))
    ensures EnsurePositionPrices(pos, reference, fetch) == pos
  {
    assert MissingCodes(pos) == {};
  }

  /**
   * Once something was missing, every non-cash holding leaves the repair as
   * a record that carries a price, and every cash entry as a plain amount.
   */
  lemma RepairedAllPriced(pos: map<string, PosEntry>, reference: Option<seq<PriceRow>>,
                          fetch: set<string> -> seq<PriceRow>)
    requires MissingCodes(pos) != {}
    ensures var r := EnsurePositionPrices(pos, reference, fetch);
      forall code :: code in r ==>
        if IsCashCode(code) then r[code].Number? else r[code].Record? && r[code].price.Some?
  {
  }
}
