/**
 * Reference prices used when orders are framed: the generic waterfall of
 * the daily predictor (deal price, then close, then the prediction
 * table), the live predictor's twin of the quote waterfall, its quote-first
 * override of that waterfall, and its quote-first batch price fetch.
 */
module Pricing {
  import opened Common
  import opened LiveExchange

  /** A row of a price table: instrument and its price (NaN allowed). */
  datatype PriceRow = PriceRow(instrument: string, price: Float)

  /** An exception in an exchange lookup reads as NaN. */
  function OrNaN(o: Outcome<Float>): Float {
    if o.Ok? then o.value else NaN
  }

  /** The price of the first row of `rows` for `id`, if there is one. */
  function FirstRowPrice(rows: seq<PriceRow>, id: string): (r: Option<Float>)
    ensures r.None? <==> forall i :: 0 <= i < |rows| ==> rows[i].instrument != id
    ensures r.Some? ==> exists i :: 0 <= i < |rows| && rows[i].instrument == id && rows[i].price == r.value &&
                                    forall j :: 0 <= j < i ==> rows[j].instrument != id
  {
    if rows == [] then None
    else if rows[0].instrument == id then Some(rows[0].price)
    else
      var r := FirstRowPrice(rows[1..], id);
      if r.Some? then
        var i :| 0 <= i < |rows[1..]| && rows[1..][i].instrument == id && rows[1..][i].price == r.value &&
                 forall j :: 0 <= j < i ==> rows[1..][j].instrument != id;
        assert rows[i + 1].instrument == id && forall j :: 0 <= j < i + 1 ==> rows[j].instrument != id by {
          forall j | 0 <= j < i + 1 ensures rows[j].instrument != id {
            if j > 0 { assert rows[j] == rows[1..][j - 1]; }
          }
        }
        r
      else
        assert forall i :: 1 <= i < |rows| ==> rows[i] == rows[1..][i - 1];
        r
  }

  /** The first usable price of a list of candidates, else NaN: the reference for the waterfalls. */
  function FirstValid(candidates: seq<Float>): (r: Float)
    ensures r == NaN || IsValidPrice(r)
    ensures r != NaN ==> r in candidates
    ensures (exists i :: 0 <= i < |candidates| && IsValidPrice(candidates[i])) ==> IsValidPrice(r)
  {
    if candidates == [] then NaN
    else if IsValidPrice(candidates[0]) then candidates[0]
    else
      var r := FirstValid(candidates[1..]);
      assert (exists i :: 0 <= i < |candidates| && IsValidPrice(candidates[i])) ==>
               exists i :: 0 <= i < |candidates[1..]| && IsValidPrice(candidates[1..][i]) by {
        if exists i :: 0 <= i < |candidates| && IsValidPrice(candidates[i]) {
          var i :| 0 <= i < |candidates| && IsValidPrice(candidates[i]);
          assert i > 0 && candidates[1..][i - 1] == candidates[i];
        }
      }
      r
  }

  /**
   * `_resolve_price` of the daily predictor. `deal` and `close` are the
   * outcomes of the exchange's deal-price and close lookups; `baseRows` is
   * the prediction table (`None` when absent), of which only the first row
   * of the instrument is consulted.
   */
  function ResolvePrice(deal: Outcome<Float>, close: Outcome<Float>, baseRows: Option<seq<PriceRow>>, id: string): (r: Float)
    ensures r == NaN || r.value > 0.0
    ensures IsValidPrice(OrNaN(deal)) ==> r == OrNaN(deal)
  {
    var p0 := OrNaN(deal);
    var p1 := if IsValidPrice(p0) then p0 else OrNaN(close);
    var p2 :=
      if !IsValidPrice(p1) && baseRows.Some? then
        var c := FirstRowPrice(baseRows.value, id);
        if c.Some? && IsValidPrice(c.value) then c.value else p1
      else p1;
    if IsValidPrice(p2) then p2 else NaN
  }

  /** The table candidate `_resolve_price` would fall back to. */
  function TableCandidates(baseRows: Option<seq<PriceRow>>, id: string): seq<Float> {
    if baseRows.Some? && FirstRowPrice(baseRows.value, id).Some? then [FirstRowPrice(baseRows.value, id).value] else []
  }

  /** The waterfall picks the first usable of deal price, close, table price. */
  lemma ResolvePriceIsFirstValid(deal: Outcome<Float>, close: Outcome<Float>, baseRows: Option<seq<PriceRow>>, id: string)
    ensures ResolvePrice(deal, close, baseRows, id) ==
            FirstValid([OrNaN(deal), OrNaN(close)] + TableCandidates(baseRows, id))
  {
    var cs := [OrNaN(deal), OrNaN(close)] + TableCandidates(baseRows, id);
    assert cs[1..] == [OrNaN(close)] + TableCandidates(baseRows, id);
    assert cs[2..] == TableCandidates(baseRows, id);
    if TableCandidates(baseRows, id) != [] {
      assert cs[3..] == [];
    }
  }

  /** `_quote_price` of the live predictor: NaN for a missing or empty quote, else the waterfall. */
  function QuotePrice(quotes: Quotes, code: string, isBuy: bool): (r: Float)
    ensures r == NaN || r.value > 0.0
  {
    if code !in quotes || quotes[code] == EmptyQuote then NaN
    else WaterfallPrice(quotes[code], isBuy)
  }

  /** The live predictor's twin agrees with the live exchange on every input. */
  lemma QuotePriceAgrees(quotes: Quotes, code: string, isBuy: bool)
    ensures QuotePrice(quotes, code, isBuy) == PriceFromQuotes(quotes, code, isBuy)
  {
    if code !in quotes || quotes[code] == EmptyQuote {
      assert QuoteOf(quotes, code) == EmptyQuote;
    }
  }

  /**
   * The live predictor's `_resolve_price` override: the quote price on
   * the order's side when usable, else the generic waterfall.
   */
  function LiveResolvePrice(quotes: Quotes, code: string, direction: OrderDir,
                            deal: Outcome<Float>, close: Outcome<Float>, baseRows: Option<seq<PriceRow>>): (r: Float)
    ensures r == NaN || r.value > 0.0
    ensures r == FirstValid([QuotePrice(quotes, code, direction == Buy), OrNaN(deal), OrNaN(close)]
                            + TableCandidates(baseRows, code))
  {
    var q := QuotePrice(quotes, code, direction == Buy);
    ResolvePriceIsFirstValid(deal, close, baseRows, code);
    var cs := [q, OrNaN(deal), OrNaN(close)] + TableCandidates(baseRows, code);
    assert cs[1..] == [OrNaN(deal), OrNaN(close)] + TableCandidates(baseRows, code);
    if IsValidPrice(q) then q else ResolvePrice(deal, close, baseRows, code)
  }

  /** The instruments whose buy-side quote price is usable, with that price. */
  function QuotedRows(quotes: Quotes, instruments: seq<string>): (r: seq<PriceRow>)
    ensures |r| <= |instruments|
  {
    if instruments == [] then []
    else
      var p := QuotePrice(quotes, instruments[0], true);
      (if IsValidPrice(p) then [PriceRow(instruments[0], p)] else []) + QuotedRows(quotes, instruments[1..])
  }

  /** The instruments without a usable quote price, in order. */
  function Unquoted(quotes: Quotes, instruments: seq<string>): (r: seq<string>)
    ensures |r| <= |instruments|
  {
    if instruments == [] then []
    else
      (if IsValidPrice(QuotePrice(quotes, instruments[0], true)) then [] else [instruments[0]])
      + Unquoted(quotes, instruments[1..])
  }

  /** Each quote-priced row carries an instrument of the request and its usable buy-side quote price. */
  lemma {:induction false} QuotedRowsUsable(quotes: Quotes, instruments: seq<string>)
    ensures forall i :: 0 <= i < |QuotedRows(quotes, instruments)| ==>
              var row := QuotedRows(quotes, instruments)[i];
              row.instrument in instruments && IsValidPrice(row.price) &&
              row.price == QuotePrice(quotes, row.instrument, true) == PriceFromQuotes(quotes, row.instrument, true)
    ensures forall c :: c in Unquoted(quotes, instruments) ==>
              c in instruments && !IsValidPrice(PriceFromQuotes(quotes, c, true))
  {
    if instruments != [] {
      QuotedRowsUsable(quotes, instruments[1..]);
      QuotePriceAgrees(quotes, instruments[0], true);
      var q := QuotedRows(quotes, instruments);
      var t := QuotedRows(quotes, instruments[1..]);
      forall i | 0 <= i < |q|
        ensures q[i].instrument in instruments && IsValidPrice(q[i].price)
        ensures q[i].price == QuotePrice(quotes, q[i].instrument, true) == PriceFromQuotes(quotes, q[i].instrument, true)
      {
        QuotePriceAgrees(quotes, q[i].instrument, true);
        if |q| > |t| && i == 0 {
        } else {
          assert q[i] == t[i - (|q| - |t|)];
        }
      }
      forall c | c in Unquoted(quotes, instruments)
        ensures c in instruments && !IsValidPrice(PriceFromQuotes(quotes, c, true))
      {
        QuotePriceAgrees(quotes, c, true);
      }
    }
  }

  /** Every instrument lands in exactly one of the two lists. */
  lemma {:induction false} QuotedUnquotedPartition(quotes: Quotes, instruments: seq<string>)
    ensures |QuotedRows(quotes, instruments)| + |Unquoted(quotes, instruments)| == |instruments|
    ensures forall c :: c in instruments && IsValidPrice(QuotePrice(quotes, c, true)) ==>
              exists i :: 0 <= i < |QuotedRows(quotes, instruments)| && QuotedRows(quotes, instruments)[i].instrument == c
    ensures forall c :: c in instruments && !IsValidPrice(QuotePrice(quotes, c, true)) ==> c in Unquoted(quotes, instruments)
  {
    if instruments != [] {
      QuotedUnquotedPartition(quotes, instruments[1..]);
      var q := QuotedRows(quotes, instruments);
      var t := QuotedRows(quotes, instruments[1..]);
      forall c | c in instruments && IsValidPrice(QuotePrice(quotes, c, true))
        ensures exists i :: 0 <= i < |q| && q[i].instrument == c
      {
        if c == instruments[0] {
          assert q[0].instrument == c;
        } else {
          assert c in instruments[1..];
          var i :| 0 <= i < |t| && t[i].instrument == c;
          var k := |q| - |t|;
          assert q[k + i] == t[i];
        }
      }
    }
  }

  /**
   * `_fetch_prices` of the live predictor. `parent` is the daily
   * predictor's historical lookup (it may give no table at all).
   */
  method FetchPrices(quotes: Quotes, instruments: seq<string>, parent: seq<string> -> Option<seq<PriceRow>>)
    returns (r: Option<seq<PriceRow>>)
    ensures Unquoted(quotes, instruments) == [] && QuotedRows(quotes, instruments) != [] ==>
              r == Some(QuotedRows(quotes, instruments))
    ensures Unquoted(quotes, instruments) == [] && QuotedRows(quotes, instruments) == [] ==>
              r == parent(instruments)
    ensures Unquoted(quotes, instruments) != [] ==>
              r == Merge(QuotedRows(quotes, instruments), parent(Unquoted(quotes, instruments)))
  {
    var prices, missing := SplitByQuote(quotes, instruments);
    if prices != [] && missing == [] {
      r := Some(prices);
    } else if missing != [] {
      var fallback := parent(missing);
      var extra := if fallback.Some? then fallback.value else [];
      prices := prices + extra;
      r := if prices != [] then Some(prices) else fallback;
    } else {
      r := parent(instruments);
    }
  }

  /** The loop of `_fetch_prices`: quote-priced rows and the instruments still missing a price. */
  method SplitByQuote(quotes: Quotes, instruments: seq<string>) returns (prices: seq<PriceRow>, missing: seq<string>)
    ensures prices == QuotedRows(quotes, instruments)
    ensures missing == Unquoted(quotes, instruments)
  {
    prices := [];
    missing := [];
    var i := 0;
    while i < |instruments|
      invariant 0 <= i <= |instruments|
      invariant prices + QuotedRows(quotes, instruments[i..]) == QuotedRows(quotes, instruments)
      invariant missing + Unquoted(quotes, instruments[i..]) == Unquoted(quotes, instruments)
    {
      var code := instruments[i];
      var price := QuotePrice(quotes, code, true);
      SplitStep(quotes, instruments, i);
      if IsValidPrice(price) {
        AppendAssoc(prices, [PriceRow(code, price)], QuotedRows(quotes, instruments[i + 1..]));
        prices := prices + [PriceRow(code, price)];
      } else {
        AppendAssoc(missing, [code], Unquoted(quotes, instruments[i + 1..]));
        missing := missing + [code];
      }
      i := i + 1;
    }
    assert instruments[i..] == [];
  }

  /** One instrument of the loop lands in exactly one of the two lists. */
  lemma SplitStep(quotes: Quotes, instruments: seq<string>, i: int)
    requires 0 <= i < |instruments|
    ensures var p := QuotePrice(quotes, instruments[i], true);
      if IsValidPrice(p) then
        QuotedRows(quotes, instruments[i..]) == [PriceRow(instruments[i], p)] + QuotedRows(quotes, instruments[i + 1..]) &&
        Unquoted(quotes, instruments[i..]) == Unquoted(quotes, instruments[i + 1..])
      else
        QuotedRows(quotes, instruments[i..]) == QuotedRows(quotes, instruments[i + 1..]) &&
        Unquoted(quotes, instruments[i..]) == [instruments[i]] + Unquoted(quotes, instruments[i + 1..])
  {
    var t := instruments[i..];
    assert t[0] == instruments[i] && t[1..] == instruments[i + 1..];
    var rest := QuotedRows(quotes, instruments[i + 1..]);
    var gone := Unquoted(quotes, instruments[i + 1..]);
    assert [] + rest == rest && [] + gone == gone;
  }

  /** Quote-priced rows followed by the fallback's rows; the fallback itself when both are empty. */
  function Merge(quoted: seq<PriceRow>, fallback: Option<seq<PriceRow>>): (r: Option<seq<PriceRow>>)
    ensures r.Some? && fallback.Some? ==> |r.value| == |quoted| + |fallback.value|
    ensures r.Some? ==> |quoted| <= |r.value| && r.value[..|quoted|] == quoted
  {
    var combined := quoted + (if fallback.Some? then fallback.value else []);
    if combined != [] then Some(combined) else fallback
  }
}
