/**
 * The order tail of the live predictor's `_generate_trading_orders`: the
 * orders are framed, the holding-period ledger records the buy rows of
 * that table, and only then are the buys capped to the budget. A buy row
 * the capper later cuts or zeroes is therefore recorded at its uncapped
 * size, and its stock is in the ledger all the same.
 */
module LiveOrders {
  import opened Common
  import opened LiveExchange
  import opened Sorting
  import opened Selection
  import opened Orders
  import opened Ledger
  import Pricing

  /** The `stock` and `shares` columns of the rows, as `_update_holdings_history_after_buy` reads them. */
  function LedgerOrders(rows: seq<OrderRow>): seq<BuyOrder> {
    seq(|rows|, i requires 0 <= i < |rows| => BuyOrder(rows[i].stock, rows[i].shares))
  }

  /** The stocks of the buy rows of a table. */
  function BuyStocks(rows: seq<OrderRow>): set<string> {
    set r | r in rows && r.action == Buy :: r.stock
  }

  /** Every framed row holds at least one lot. */
  lemma {:induction false} FrameRowsReachLot(orders: seq<Order>, resolve: Order -> Float, base: seq<PredRow>, lot: int, dateTag: string)
    requires lot >= 1
    ensures forall r :: r in FrameRows(orders, resolve, base, lot, dateTag) ==> r.shares >= lot
    decreases |orders|
  {
    if orders != [] {
      FrameRowsReachLot(orders[..|orders| - 1], resolve, base, lot, dateTag);
    }
  }

  /**
   * Framing with the daily predictor's resolver (`_resolve_price`, the
   * exchange's deal and close prices given per order): every row is a
   * well-formed lot with its id and its amount at the resolved price.
   */
  lemma FrameRowsResolvedGood(orders: seq<Order>, deal: Order -> Outcome<Float>, close: Order -> Outcome<Float>,
                              table: Option<seq<Pricing.PriceRow>>, base: seq<PredRow>, lot: int, dateTag: string)
    requires lot >= 1
    ensures var resolve := (o: Order) => Pricing.ResolvePrice(deal(o), close(o), table, o.stockId);
      forall r :: r in FrameRows(orders, resolve, base, lot, dateTag) ==> GoodRow(r, lot, dateTag)
  {
    var resolve := (o: Order) => Pricing.ResolvePrice(deal(o), close(o), table, o.stockId);
    forall o: Order ensures resolve(o) == Pricing.ResolvePrice(deal(o), close(o), table, o.stockId) {
    }
    FrameRowsGood(orders, resolve, base, lot, dateTag);
  }

  /** The same with the live predictor's quote-first resolver. */
  lemma FrameRowsLiveResolvedGood(orders: seq<Order>, quotes: Quotes, deal: Order -> Outcome<Float>,
                                  close: Order -> Outcome<Float>, table: Option<seq<Pricing.PriceRow>>,
                                  base: seq<PredRow>, lot: int, dateTag: string)
    requires lot >= 1
    ensures var resolve := (o: Order) => Pricing.LiveResolvePrice(quotes, o.stockId, o.direction, deal(o), close(o), table);
      forall r :: r in FrameRows(orders, resolve, base, lot, dateTag) ==> GoodRow(r, lot, dateTag)
  {
    var resolve := (o: Order) => Pricing.LiveResolvePrice(quotes, o.stockId, o.direction, deal(o), close(o), table);
    forall o: Order ensures resolve(o) == Pricing.LiveResolvePrice(quotes, o.stockId, o.direction, deal(o), close(o), table) {
    }
    FrameRowsGood(orders, resolve, base, lot, dateTag);
  }

  /**
   * On a table whose rows all hold shares, the ledger counts the stock of
   * every buy row as bought, and nothing else.
   */
  lemma RecordedCodes(rows: seq<OrderRow>)
    requires forall r :: r in rows ==> r.shares > 0
    ensures PositiveCodes(LedgerOrders(BuyOrders(rows))) == BuyStocks(rows)
  {
    var buys := BuyOrders(rows);
    var lo := LedgerOrders(buys);
    forall c | c in PositiveCodes(lo) ensures c in BuyStocks(rows) {
      var i :| 0 <= i < |lo| && lo[i].shares > 0 && lo[i].code == c;
      FilterPasses(rows, OnSide(Buy), buys[i]);
    }
    forall c | c in BuyStocks(rows) ensures c in PositiveCodes(lo) {
      var r :| r in rows && r.action == Buy && r.stock == c;
      FilterMember(rows, OnSide(Buy), r);
      var i :| 0 <= i < |buys| && buys[i] == r;
      assert lo[i].code == c && lo[i].shares > 0;
    }
  }

  /**
   * Recording the framed buys before capping: the ledger gains exactly the
   * stocks of the framed buy rows, keeps every earlier buy date, and dates
   * each newly bought stock today — whatever the capper then does to those
   * rows.
   */
  lemma BuysRecordedBeforeCap(file: map<string, LedgerEntry>, orders: seq<Order>, resolve: Order -> Float,
                              base: seq<PredRow>, minShares: int, dateTag: string, today: int)
    ensures var framed := FrameRows(orders, resolve, base, LotSize(minShares), dateTag);
      var after := ApplyBuys(file, LedgerOrders(BuyOrders(framed)), today);
      after.Keys == file.Keys + BuyStocks(framed) &&
      (forall k :: k in file ==> after[k].buyDate == file[k].buyDate) &&
      (forall k :: k in BuyStocks(framed) && k !in file ==> after[k].buyDate == today)
  {
    var framed := FrameRows(orders, resolve, base, LotSize(minShares), dateTag);
    FrameRowsReachLot(orders, resolve, base, LotSize(minShares), dateTag);
    RecordedCodes(framed);
    ApplyBuysEffect(file, LedgerOrders(BuyOrders(framed)), today);
  }

  /**
   * Every framed buy row leaves its stock in the ledger, dated today when
   * the ledger did not know it, even one the capper then zeroes.
   */
  lemma FramedBuyRecorded(file: map<string, LedgerEntry>, orders: seq<Order>, resolve: Order -> Float,
                          base: seq<PredRow>, minShares: int, dateTag: string, today: int, r: OrderRow)
    requires var framed := FrameRows(orders, resolve, base, LotSize(minShares), dateTag);
      r in framed && r.action == Buy
    ensures var framed := FrameRows(orders, resolve, base, LotSize(minShares), dateTag);
      var after := ApplyBuys(file, LedgerOrders(BuyOrders(framed)), today);
      r.stock in after && (r.stock !in file ==> after[r.stock].buyDate == today)
  {
    BuysRecordedBeforeCap(file, orders, resolve, base, minShares, dateTag, today);
  }

  /**
   * The order half of the live `_generate_trading_orders`: frame the
   * orders, record the framed buy rows in the ledger when there are any,
   * then cap the buys to the budget and net the totals. The ledger sees
   * the uncapped table.
   */
  method GenerateLiveOrders(ledger: HoldingsLedger, orders: seq<Order>, resolve: Order -> Float, base: seq<PredRow>,
                            minShares: int, dateTag: string, today: int, cash: real, risk: real)
    returns (rows: seq<OrderRow>, buyTotal: real, sellTotal: real, net: real)
    modifies ledger
    ensures var framed := FrameRows(orders, resolve, base, LotSize(minShares), dateTag);
      ledger.file == ApplyBuys(old(ledger.file), LedgerOrders(BuyOrders(framed)), today) &&
      sellTotal == SideTotal(framed, Sell) &&
      if SideTotal(framed, Buy) > Budget(cash, risk, sellTotal) > 0.0 then
        rows == Capped(framed, Budget(cash, risk, sellTotal), LotSize(minShares)) &&
        buyTotal <= Budget(cash, risk, sellTotal)
      else
        rows == framed
    ensures buyTotal == SideTotal(rows, Buy)
    ensures net >= 0.0 && net >= buyTotal - sellTotal
    ensures net == 0.0 || net == buyTotal - sellTotal
  {
    var framed, framedBuys;
    framed, framedBuys, sellTotal := OrdersToFrame(orders, resolve, base, minShares, dateTag);
    var buys := BuyOrders(framed);
    if |buys| > 0 {
      ledger.UpdateAfterBuy(LedgerOrders(buys), today);
    }
    FrameRowsPriced(orders, resolve, base, LotSize(minShares), dateTag);
    rows, buyTotal, net := CapAndNet(framed, framedBuys, sellTotal, minShares, cash, risk);
  }
}
