/**
 * Quote-first pricing of the live exchange: a buy is priced at ask1 (else
 * the last trade) and capped by the up-limit, a sell at bid1 (else the last
 * trade) and floored by the down-limit; when no quote price is usable the
 * historical deal price of the parent exchange is used.
 */
module LiveExchange {
  import opened Common

  /** One row of the live quote table; a missing field reads as NaN. */
  datatype Quote = Quote(last: Float, bid1: Float, ask1: Float, highLimit: Float, lowLimit: Float)

  const EmptyQuote: Quote := Quote(NaN, NaN, NaN, NaN, NaN)

  /** `quotes_live`: instrument code to its quote. */
  type Quotes = map<string, Quote>

  datatype OrderDir = Buy | Sell

  /** `quotes_live.get(stock_id, {})` */
  function QuoteOf(quotes: Quotes, id: string): Quote {
    if id in quotes then quotes[id] else EmptyQuote
  }

  /** The best-side price if usable, else the last trade. */
  function Prefer(primary: Float, last: Float): Float {
    if IsValidPrice(primary) then primary else last
  }

  /** Up-limit protection of a buy. */
  function CapAt(price: Float, hi: Float): Float {
    if IsValidPrice(hi) then
      if IsValidPrice(price) then Some(MinReal(price.value, hi.value)) else hi
    else price
  }

  /** Down-limit protection of a sell. */
  function FloorAt(price: Float, lo: Float): Float {
    if IsValidPrice(lo) then
      if IsValidPrice(price) then Some(MaxReal(price.value, lo.value)) else lo
    else price
  }

  /** The final filter: a usable price or NaN. */
  function Usable(p: Float): (r: Float)
    ensures r == NaN || IsValidPrice(r)
  {
    if IsValidPrice(p) then p else NaN
  }

  /** The waterfall on one quote. */
  function WaterfallPrice(q: Quote, isBuy: bool): Float {
    if isBuy then Usable(CapAt(Prefer(q.ask1, q.last), q.highLimit))
    else Usable(FloorAt(Prefer(q.bid1, q.last), q.lowLimit))
  }

  /**
   * `_price_from_quotes`: the quote price of `id`, or NaN when the quote
   * gives nothing usable. A buy never exceeds a valid up-limit, a sell is
   * never below a valid down-limit.
   */
  function PriceFromQuotes(quotes: Quotes, id: string, isBuy: bool): (r: Float)
    ensures r == NaN || r.value > 0.0
    ensures isBuy && IsValidPrice(QuoteOf(quotes, id).highLimit) ==>
              IsValidPrice(r) && r.value <= QuoteOf(quotes, id).highLimit.value
    ensures !isBuy && IsValidPrice(QuoteOf(quotes, id).lowLimit) ==>
              IsValidPrice(r) && r.value >= QuoteOf(quotes, id).lowLimit.value
  {
    WaterfallPrice(QuoteOf(quotes, id), isBuy)
  }

  /** An instrument without a quote has no quote price. */
  lemma AbsentIsNaN(quotes: Quotes, id: string, isBuy: bool)
    requires id !in quotes
    ensures PriceFromQuotes(quotes, id, isBuy) == NaN
  {
  }

  /**
   * Buy priority: ask1 when usable, otherwise the last trade, each
   * lowered to the up-limit when one is set; with neither usable the
   * up-limit itself, and with nothing usable NaN.
   */
  lemma BuyWaterfall(quotes: Quotes, id: string)
    ensures var q := QuoteOf(quotes, id);
            var r := PriceFromQuotes(quotes, id, true);
            && (IsValidPrice(q.ask1) && !IsValidPrice(q.highLimit) ==> r == q.ask1)
            && (IsValidPrice(q.ask1) && IsValidPrice(q.highLimit) ==>
                  r == Some(MinReal(q.ask1.value, q.highLimit.value)))
            && (!IsValidPrice(q.ask1) && IsValidPrice(q.last) && !IsValidPrice(q.highLimit) ==> r == q.last)
            && (!IsValidPrice(q.ask1) && IsValidPrice(q.last) && IsValidPrice(q.highLimit) ==>
                  r == Some(MinReal(q.last.value, q.highLimit.value)))
            && (!IsValidPrice(q.ask1) && !IsValidPrice(q.last) ==>
                  r == (if IsValidPrice(q.highLimit) then q.highLimit else NaN))
  {
  }

  /**
   * Sell priority: bid1 when usable, otherwise the last trade, each
   * raised to the down-limit when one is set; with neither usable the
   * down-limit itself, and with nothing usable NaN.
   */
  lemma SellWaterfall(quotes: Quotes, id: string)
    ensures var q := QuoteOf(quotes, id);
            var r := PriceFromQuotes(quotes, id, false);
            && (IsValidPrice(q.bid1) && !IsValidPrice(q.lowLimit) ==> r == q.bid1)
            && (IsValidPrice(q.bid1) && IsValidPrice(q.lowLimit) ==>
                  r == Some(MaxReal(q.bid1.value, q.lowLimit.value)))
            && (!IsValidPrice(q.bid1) && IsValidPrice(q.last) && !IsValidPrice(q.lowLimit) ==> r == q.last)
            && (!IsValidPrice(q.bid1) && IsValidPrice(q.last) && IsValidPrice(q.lowLimit) ==>
                  r == Some(MaxReal(q.last.value, q.lowLimit.value)))
            && (!IsValidPrice(q.bid1) && !IsValidPrice(q.last) ==>
                  r == (if IsValidPrice(q.lowLimit) then q.lowLimit else NaN))
  {
  }

  /**
   * `get_deal_price`: the quote price when usable, otherwise whatever the
   * parent exchange's historical lookup does (returns or raises). The
   * side is a buy exactly when the direction is BUY.
   */
  function GetDealPrice(quotes: Quotes, id: string, direction: Option<OrderDir>, parent: Outcome<Float>): (r: Outcome<Float>)
    ensures IsValidPrice(PriceFromQuotes(quotes, id, direction == Some(Buy))) ==>
              r == Ok(PriceFromQuotes(quotes, id, direction == Some(Buy)))
    ensures !IsValidPrice(PriceFromQuotes(quotes, id, direction == Some(Buy))) ==> r == parent
  {
    var price := PriceFromQuotes(quotes, id, direction == Some(Buy));
    if IsValidPrice(price) then Ok(price) else parent
  }

  /**
   * A buy of an instrument whose quote carries an up-limit is always
   * priced from the quote, never by the parent, and never above the limit.
   */
  lemma BuyWithUpLimitNeverDelegates(quotes: Quotes, id: string, parent: Outcome<Float>)
    requires id in quotes
    requires IsValidPrice(quotes[id].highLimit)
    ensures var r := GetDealPrice(quotes, id, Some(Buy), parent);
            r.Ok? && IsValidPrice(r.value) && r.value.value <= quotes[id].highLimit.value
  {
  }
}
