/**
 * The order side of the daily predictor: turning the order generator's
 * orders into the order table (`_orders_to_frame`), capping the buys to the
 * budget in place (`_cap_buy_orders_to_budget`), the budget and net amount
 * of `_generate_trading_orders`, the target share counts
 * (`_calculate_target_shares`), and the buy/sell views of the result.
 */
module Orders {
  import opened Common
  import opened LiveExchange
  import opened Sorting
  import opened Selection

  /** An order as the order generator hands it over: stock, share amount, side. */
  datatype Order = Order(stockId: string, amount: real, direction: OrderDir)

  /** One row of the order table. */
  datatype OrderRow = OrderRow(
    orderId: string,
    stock: string,
    action: OrderDir,
    shares: int,
    price: Float,
    amount: real,
    score: Float,
    weight: Float)

  /** Shares rounded to the lot: floored to a multiple of it when above 1, rounded when it is 1. */
  function RoundToLot(raw: real, lot: int): int
    requires lot >= 1
  {
    if lot > 1 then LotFloor(raw, lot) else RoundHalfEven(raw)
  }

  /**
   * The rounded count is a multiple of the lot: the largest not above the
   * raw amount for a lot above 1, the nearest integer for a lot of 1.
   */
  lemma RoundToLotSpec(raw: real, lot: int)
    requires lot >= 1
    ensures RoundToLot(raw, lot) % lot == 0
    ensures lot > 1 ==> RoundToLot(raw, lot) as real <= raw < (RoundToLot(raw, lot) + lot) as real
    ensures lot == 1 ==> raw - 0.5 <= RoundToLot(raw, lot) as real <= raw + 0.5
  {
    if lot > 1 {
      LotFloorSpec(raw, lot);
    }
  }

  /** `f"{stock}_{BUY|SELL}_{yyyymmdd}"`. */
  function OrderId(stock: string, action: OrderDir, dateTag: string): string {
    stock + "_" + (if action == Buy then "BUY" else "SELL") + "_" + dateTag
  }

  /** The score of the first table row of the stock, NaN when there is none. */
  function BaseScore(base: seq<PredRow>, id: string): Float {
    if base == [] then NaN
    else if base[0].instrument == id then Some(base[0].score)
    else BaseScore(base[1..], id)
  }

  /** The target weight of the first table row of the stock, 0 when there is none. */
  function BaseWeight(base: seq<PredRow>, id: string): Float {
    if base == [] then Some(0.0)
    else if base[0].instrument == id then base[0].weight
    else BaseWeight(base[1..], id)
  }

  /** `float(shares * price)`, or 0 for a NaN price. */
  function Amount(shares: int, price: Float): real {
    if price.Some? then shares as real * price.value else 0.0
  }

  /** The row one order becomes, or nothing when it rounds below one lot. */
  function FrameRow(o: Order, price: Float, base: seq<PredRow>, lot: int, dateTag: string): Option<OrderRow>
    requires lot >= 1
  {
    var shares := RoundToLot(o.amount, lot);
    if shares < lot then None
    else
      var amount := Amount(shares, price);
      Some(OrderRow(OrderId(o.stockId, o.direction, dateTag), o.stockId, o.direction, shares,
                    price, amount, BaseScore(base, o.stockId), BaseWeight(base, o.stockId)))
  }

  /** The rows an optional row contributes: none or one. */
  function Rows(made: Option<OrderRow>): seq<OrderRow> {
    if made.Some? then [made.value] else []
  }

  /** The order table for a list of orders, row by row in order. */
  function FrameRows(orders: seq<Order>, resolve: Order -> Float, base: seq<PredRow>, lot: int, dateTag: string): (r: seq<OrderRow>)
    requires lot >= 1
    ensures |r| <= |orders|
  {
    if orders == [] then []
    else
      var o := orders[|orders| - 1];
      FrameRows(orders[..|orders| - 1], resolve, base, lot, dateTag) + Rows(FrameRow(o, resolve(o), base, lot, dateTag))
  }

  /** The sum of the amounts of the rows on one side. */
  function SideTotal(rows: seq<OrderRow>, side: OrderDir): real {
    if rows == [] then 0.0
    else
      SideTotal(rows[..|rows| - 1], side) +
      (if rows[|rows| - 1].action == side then rows[|rows| - 1].amount else 0.0)
  }

  /**
   * `_orders_to_frame`: one row per order that reaches a lot, with the
   * resolved price, and the buy and sell totals.
   */
  method OrdersToFrame(orders: seq<Order>, resolve: Order -> Float, base: seq<PredRow>, minShares: int, dateTag: string)
    returns (rows: seq<OrderRow>, buyTotal: real, sellTotal: real)
    ensures rows == FrameRows(orders, resolve, base, LotSize(minShares), dateTag)
    ensures buyTotal == SideTotal(rows, Buy)
    ensures sellTotal == SideTotal(rows, Sell)
  {
    var lot := LotSize(minShares);
    rows := [];
    buyTotal := 0.0;
    sellTotal := 0.0;
    for i := 0 to |orders|
      invariant rows == FrameRows(orders[..i], resolve, base, lot, dateTag)
      invariant buyTotal == SideTotal(rows, Buy)
      invariant sellTotal == SideTotal(rows, Sell)
    {
      var o := orders[i];
      var made := FrameRow(o, resolve(o), base, lot, dateTag);
      FrameRowsSnoc(orders, i, resolve, base, lot, dateTag);
      SideTotalStep(rows, made);
      if made.Some? {
        if made.value.action == Buy {
          buyTotal := buyTotal + made.value.amount;
        } else {
          sellTotal := sellTotal + made.value.amount;
        }
      }
      rows := rows + Rows(made);
    }
    assert orders[..|orders|] == orders;
  }

  lemma FrameRowsSnoc(orders: seq<Order>, i: int, resolve: Order -> Float, base: seq<PredRow>, lot: int, dateTag: string)
    requires 0 <= i < |orders| && lot >= 1
    ensures FrameRows(orders[..i + 1], resolve, base, lot, dateTag) ==
      FrameRows(orders[..i], resolve, base, lot, dateTag) + Rows(FrameRow(orders[i], resolve(orders[i]), base, lot, dateTag))
  {
    assert orders[..i + 1][..i] == orders[..i];
    assert orders[..i + 1][i] == orders[i];
  }

  /** The amount an optional row adds to one side's total. */
  function SideAmount(made: Option<OrderRow>, side: OrderDir): real {
    if made.Some? && made.value.action == side then made.value.amount else 0.0
  }

  lemma SideTotalStep(rows: seq<OrderRow>, made: Option<OrderRow>)
    ensures SideTotal(rows + Rows(made), Buy) == SideTotal(rows, Buy) + SideAmount(made, Buy)
    ensures SideTotal(rows + Rows(made), Sell) == SideTotal(rows, Sell) + SideAmount(made, Sell)
  {
    if made.Some? {
      assert (rows + [made.value])[..|rows|] == rows;
    } else {
      assert rows + [] == rows;
    }
  }

  /** A table row as `_orders_to_frame` makes it. */
  predicate GoodRow(r: OrderRow, lot: int, dateTag: string) {
    lot >= 1 && r.shares >= lot && r.shares % lot == 0 &&
    r.orderId == OrderId(r.stock, r.action, dateTag) &&
    (r.price.None? ==> r.amount == 0.0) &&
    (r.price.Some? ==> r.price.value > 0.0 && r.amount == r.shares as real * r.price.value)
  }

  /**
   * Every row of the order table holds a whole number of lots, at least
   * one, carries its `stock_SIDE_date` id, and has amount shares * price,
   * or 0 with a NaN price.
   */
  lemma {:induction false} FrameRowsGood(orders: seq<Order>, resolve: Order -> Float, base: seq<PredRow>, lot: int, dateTag: string)
    requires lot >= 1
    requires forall o :: resolve(o).None? || resolve(o).value > 0.0
    ensures forall r :: r in FrameRows(orders, resolve, base, lot, dateTag) ==> GoodRow(r, lot, dateTag)
  {
    if orders != [] {
      FrameRowsGood(orders[..|orders| - 1], resolve, base, lot, dateTag);
      RoundToLotSpec(orders[|orders| - 1].amount, lot);
    }
  }

  /** `shares >= lot` after rounding: the orders `_orders_to_frame` keeps. */
  function ReachesLot(lot: int): Order -> bool
    requires lot >= 1
  {
    (o: Order) => RoundToLot(o.amount, lot) >= lot
  }

  /** An order yields a row exactly when its share count rounds to at least one lot. */
  lemma {:induction false} FrameRowsCount(orders: seq<Order>, resolve: Order -> Float, base: seq<PredRow>, lot: int, dateTag: string)
    requires lot >= 1
    ensures |FrameRows(orders, resolve, base, lot, dateTag)| == |Filter(orders, ReachesLot(lot))|
    decreases |orders|
  {
    if orders != [] {
      var init, o := orders[..|orders| - 1], orders[|orders| - 1];
      FrameRowsCount(init, resolve, base, lot, dateTag);
      FilterSnoc(init, o, ReachesLot(lot));
      assert orders == init + [o];
      var made := FrameRow(o, resolve(o), base, lot, dateTag);
      assert |Rows(made)| == if ReachesLot(lot)(o) then 1 else 0;
    }
  }

  lemma {:induction false} FilterSnoc<T>(xs: seq<T>, x: T, p: T -> bool)
    ensures Filter(xs + [x], p) == Filter(xs, p) + (if p(x) then [x] else [])
  {
    if xs == [] {
      assert [] + [x] == [x];
      assert [x][1..] == [];
    } else {
      assert (xs + [x])[1..] == xs[1..] + [x];
      FilterSnoc(xs[1..], x, p);
    }
  }

  /** The buy total and the sell total together add up every row's amount. */
  lemma {:induction false} SideTotalsSplit(rows: seq<OrderRow>)
    ensures SideTotal(rows, Buy) + SideTotal(rows, Sell) == AllTotal(rows)
  {
    if rows != [] {
      SideTotalsSplit(rows[..|rows| - 1]);
    }
  }

  function AllTotal(rows: seq<OrderRow>): real {
    if rows == [] then 0.0 else AllTotal(rows[..|rows| - 1]) + rows[|rows| - 1].amount
  }

  /** Totals of well-formed rows are never negative. */
  lemma {:induction false} SideTotalNonnegative(rows: seq<OrderRow>, side: OrderDir, lot: int, dateTag: string)
    requires lot >= 1
    requires forall r :: r in rows ==> GoodRow(r, lot, dateTag)
    ensures SideTotal(rows, side) >= 0.0
  {
    if rows != [] {
      var last := rows[|rows| - 1];
      assert last in rows;
      assert forall r :: r in rows[..|rows| - 1] ==> r in rows;
      SideTotalNonnegative(rows[..|rows| - 1], side, lot, dateTag);
      if last.price.Some? {
        MulNonnegative(last.shares as real, last.price.value);
      }
    }
  }

  lemma MulNonnegative(a: real, b: real)
    requires a >= 0.0 && b >= 0.0
    ensures a * b >= 0.0
  {
  }

  /** Each row with a price carries amount = shares * price, as `_orders_to_frame` writes it. */
  predicate Priced(r: OrderRow) {
    r.price.Some? ==> r.amount == r.shares as real * r.price.value
  }

  lemma {:induction false} FrameRowsPriced(orders: seq<Order>, resolve: Order -> Float, base: seq<PredRow>, lot: int, dateTag: string)
    requires lot >= 1
    ensures forall r :: r in FrameRows(orders, resolve, base, lot, dateTag) ==> Priced(r)
  {
    if orders != [] {
      FrameRowsPriced(orders[..|orders| - 1], resolve, base, lot, dateTag);
    }
  }

  /** A row with its shares and amount set to zero. */
  function Zeroed(r: OrderRow): OrderRow {
    r.(shares := 0, amount := 0.0)
  }

  /** A buy row zeroed, any other row as it is. */
  function ZeroBuy(r: OrderRow): OrderRow {
    if r.action == Buy then Zeroed(r) else r
  }

  /** Every buy row zeroed: the `budget <= 0` branch of the capper. */
  function ZeroBuys(rows: seq<OrderRow>): (r: seq<OrderRow>)
    ensures |r| == |rows|
    ensures forall i :: 0 <= i < |rows| ==> r[i] == ZeroBuy(rows[i])
  {
    seq(|rows|, i requires 0 <= i < |rows| => ZeroBuy(rows[i]))
  }

  /** The price the capper works with: a NaN price counts as 0. */
  function CapPrice(r: OrderRow): real {
    if r.price.Some? then r.price.value else 0.0
  }

  /**
   * One step of the capping pass: the row as it leaves the pass and the
   * budget remaining after it.
   */
  function CapRow(r: OrderRow, remaining: real, lot: int): (OrderRow, real)
    requires lot >= 1
  {
    var price := CapPrice(r);
    if r.action != Buy then (r, remaining)
    else if price <= 0.0 || r.shares < lot then (Zeroed(r), remaining)
    else if Amount(r.shares, r.price) <= remaining then (r, remaining - Amount(r.shares, r.price))
    else
      var maxShares := LotFloor(remaining / price, lot);
      if maxShares >= lot then
        (r.(shares := maxShares, amount := Amount(maxShares, r.price)), remaining - Amount(maxShares, r.price))
      else (Zeroed(r), remaining)
  }

  /** The capping pass over the rows from a remaining budget, in table order. */
  function CapFrom(rows: seq<OrderRow>, remaining: real, lot: int): (r: seq<OrderRow>)
    requires lot >= 1
    ensures |r| == |rows|
  {
    if rows == [] then []
    else
      var step := CapRow(rows[0], remaining, lot);
      [step.0] + CapFrom(rows[1..], step.1, lot)
  }

  /** The budget left over after the capping pass. */
  function Leftover(rows: seq<OrderRow>, remaining: real, lot: int): real
    requires lot >= 1
  {
    if rows == [] then remaining
    else Leftover(rows[1..], CapRow(rows[0], remaining, lot).1, lot)
  }

  /** The order table `_cap_buy_orders_to_budget` leaves behind. */
  function Capped(rows: seq<OrderRow>, budget: real, lot: int): (r: seq<OrderRow>)
    requires lot >= 1
    ensures |r| == |rows|
  {
    if budget <= 0.0 then ZeroBuys(rows) else CapFrom(rows, budget, lot)
  }

  /**
   * `_cap_buy_orders_to_budget`: one in-place pass over the table with a
   * `remaining` budget; returns the buy total of the capped table.
   */
  method CapBuyOrdersToBudget(a: array<OrderRow>, budget: real, minShares: int) returns (total: real)
    modifies a
    ensures a[..] == Capped(old(a[..]), budget, LotSize(minShares))
    ensures total == SideTotal(a[..], Buy)
  {
    if budget <= 0.0 {
      ZeroBuyRows(a);
      ZeroBuysTotal(old(a[..]));
      return 0.0;
    }
    var lot := LotSize(minShares);
    var remaining := budget;
    for i := 0 to a.Length
      invariant a[i..] == old(a[..])[i..]
      invariant a[..i] + CapFrom(a[i..], remaining, lot) == CapFrom(old(a[..]), budget, lot)
    {
      CapFromStep(a[..i], a[i..], remaining, lot);
      ghost var before := a[..];
      remaining := CapOne(a, i, remaining, lot);
      assert a[..i + 1] == before[..i] + [a[i]];
      assert a[i + 1..] == before[i + 1..];
    }
    assert a[..a.Length] == a[..];
    total := SideTotal(a[..], Buy);
  }

  /** The `budget <= 0` branch: shares and amount of every buy set to 0. */
  method ZeroBuyRows(a: array<OrderRow>)
    modifies a
    ensures a[..] == ZeroBuys(old(a[..]))
  {
    for i := 0 to a.Length
      invariant forall j :: 0 <= j < i ==> a[j] == ZeroBuy(old(a[j]))
      invariant forall j :: i <= j < a.Length ==> a[j] == old(a[j])
    {
      if a[i].action == Buy {
        a[i] := Zeroed(a[i]);
      }
    }
  }

  /** The body of the capping loop for row `i`: returns the budget left after it. */
  method CapOne(a: array<OrderRow>, i: int, remaining: real, lot: int) returns (left: real)
    requires 0 <= i < a.Length && lot >= 1
    modifies a
    ensures a[..] == old(a[..])[i := CapRow(old(a[i]), remaining, lot).0]
    ensures left == CapRow(old(a[i]), remaining, lot).1
  {
    var row := a[i];
    left := remaining;
    if row.action != Buy {
      return;
    }
    var price := CapPrice(row);
    if price <= 0.0 || row.shares < lot {
      a[i] := Zeroed(row);
      return;
    }
    var amount := Amount(row.shares, row.price);
    if amount <= remaining {
      left := remaining - amount;
      return;
    }
    var maxShares := LotFloor(remaining / price, lot);
    if maxShares >= lot {
      a[i] := row.(shares := maxShares, amount := Amount(maxShares, row.price));
      left := remaining - Amount(maxShares, row.price);
    } else {
      a[i] := Zeroed(row);
    }
  }

  lemma CapFromStep(done: seq<OrderRow>, rest: seq<OrderRow>, remaining: real, lot: int)
    requires lot >= 1 && rest != []
    ensures done + CapFrom(rest, remaining, lot) ==
      (done + [CapRow(rest[0], remaining, lot).0]) + CapFrom(rest[1..], CapRow(rest[0], remaining, lot).1, lot)
  {
  }

  lemma {:induction false} ZeroBuysTotal(rows: seq<OrderRow>)
    ensures SideTotal(ZeroBuys(rows), Buy) == 0.0
  {
    if rows != [] {
      assert ZeroBuys(rows)[..|rows| - 1] == ZeroBuys(rows[..|rows| - 1]);
      ZeroBuysTotal(rows[..|rows| - 1]);
    }
  }

  /**
   * What the capping pass may do to one row: a sell stays as it is; a buy
   * without a positive price or below one lot is zeroed; any other buy is
   * kept, zeroed, or cut to fewer shares that are still a whole number of
   * lots, at least one, with amount shares * price.
   */
  predicate CapOutcome(before: OrderRow, after: OrderRow, lot: int) {
    if before.action != Buy then after == before
    else if CapPrice(before) <= 0.0 || before.shares < lot then after == Zeroed(before)
    else
      after == before || after == Zeroed(before) ||
      (after == before.(shares := after.shares, amount := after.amount) &&
       1 <= lot <= after.shares < before.shares && after.shares % lot == 0 &&
       after.amount == Amount(after.shares, before.price))
  }

  lemma CapRowOutcome(r: OrderRow, remaining: real, lot: int)
    requires lot >= 1
    ensures CapOutcome(r, CapRow(r, remaining, lot).0, lot)
  {
    var price := CapPrice(r);
    if r.action == Buy && price > 0.0 && r.shares >= lot && Amount(r.shares, r.price) > remaining {
      var m := LotFloor(remaining / price, lot);
      LotFloorSpec(remaining / price, lot);
      MulMonotone(m as real, remaining / price, price);
      assert m as real * price <= remaining;
      MulCancel(m as real, r.shares as real, price);
    }
  }

  lemma MulCancel(a: real, b: real, c: real)
    requires c > 0.0 && a * c < b * c
    ensures a < b
  {
    if a >= b {
      MulMonotone(b, a, c);
    }
  }

  lemma {:induction false} CapFromOutcome(rows: seq<OrderRow>, remaining: real, lot: int)
    requires lot >= 1
    ensures forall i :: 0 <= i < |rows| ==> CapOutcome(rows[i], CapFrom(rows, remaining, lot)[i], lot)
  {
    if rows != [] {
      var step := CapRow(rows[0], remaining, lot);
      CapRowOutcome(rows[0], remaining, lot);
      CapFromOutcome(rows[1..], step.1, lot);
    }
  }

  /**
   * The capped table keeps every sell row, and changes each buy only as
   * `CapOutcome` allows: never more shares than before, and never a
   * positive count that is not a whole number of lots.
   */
  lemma CappedOutcome(rows: seq<OrderRow>, budget: real, lot: int)
    requires lot >= 1
    ensures forall i :: 0 <= i < |rows| ==> CapOutcome(rows[i], Capped(rows, budget, lot)[i], lot)
    ensures forall i :: 0 <= i < |rows| && rows[i].action != Buy ==> Capped(rows, budget, lot)[i] == rows[i]
    ensures forall i :: 0 <= i < |rows| && rows[i].action == Buy ==>
      Capped(rows, budget, lot)[i].shares <= rows[i].shares || Capped(rows, budget, lot)[i].shares == 0
  {
    if budget > 0.0 {
      CapFromOutcome(rows, budget, lot);
    }
  }

  lemma SideTotalCons(x: OrderRow, xs: seq<OrderRow>, side: OrderDir)
    ensures SideTotal([x] + xs, side) == (if x.action == side then x.amount else 0.0) + SideTotal(xs, side)
    decreases |xs|
  {
    if xs != [] {
      assert ([x] + xs)[..|xs|] == [x] + xs[..|xs| - 1];
      SideTotalCons(x, xs[..|xs| - 1], side);
    } else {
      assert [x] + xs == [x];
      assert [x][..0] == [];
    }
  }

  lemma CapRowSpent(r: OrderRow, remaining: real, lot: int)
    requires lot >= 1 && remaining >= 0.0 && Priced(r)
    ensures CapRow(r, remaining, lot).1 >= 0.0
    ensures (if CapRow(r, remaining, lot).0.action == Buy then CapRow(r, remaining, lot).0.amount else 0.0) ==
      remaining - CapRow(r, remaining, lot).1
  {
    var price := CapPrice(r);
    if r.action == Buy && price > 0.0 && r.shares >= lot && Amount(r.shares, r.price) > remaining {
      var m := LotFloor(remaining / price, lot);
      CutWithin(remaining, price, lot);
      if m >= lot {
        assert CapRow(r, remaining, lot) == (r.(shares := m, amount := Amount(m, r.price)), remaining - Amount(m, r.price));
      } else {
        assert CapRow(r, remaining, lot) == (Zeroed(r), remaining);
      }
    }
  }

  /** The lots a remaining budget buys at a positive price cost no more than the budget. */
  lemma CutWithin(remaining: real, price: real, lot: int)
    requires lot >= 1 && price > 0.0
    ensures LotFloor(remaining / price, lot) as real * price <= remaining
  {
    var m := LotFloor(remaining / price, lot);
    LotFloorSpec(remaining / price, lot);
    MulMonotone(m as real, remaining / price, price);
    DivMulCancel(remaining, price);
  }

  lemma {:induction false} CapFromSpent(rows: seq<OrderRow>, remaining: real, lot: int)
    requires lot >= 1 && remaining >= 0.0
    requires forall r :: r in rows ==> Priced(r)
    ensures Leftover(rows, remaining, lot) >= 0.0
    ensures SideTotal(CapFrom(rows, remaining, lot), Buy) == remaining - Leftover(rows, remaining, lot)
  {
    if rows != [] {
      var step := CapRow(rows[0], remaining, lot);
      assert rows[0] in rows;
      CapRowSpent(rows[0], remaining, lot);
      assert forall r :: r in rows[1..] ==> r in rows;
      CapFromSpent(rows[1..], step.1, lot);
      SideTotalCons(step.0, CapFrom(rows[1..], step.1, lot), Buy);
    }
  }

  /**
   * With a positive budget and every priced row carrying shares * price,
   * the buy total of the capped table never exceeds the budget; with a
   * budget of 0 or less it is 0.
   */
  lemma CappedWithinBudget(rows: seq<OrderRow>, budget: real, lot: int)
    requires lot >= 1
    requires forall r :: r in rows ==> Priced(r)
    ensures budget > 0.0 ==> SideTotal(Capped(rows, budget, lot), Buy) <= budget
    ensures budget <= 0.0 ==> SideTotal(Capped(rows, budget, lot), Buy) == 0.0
  {
    if budget > 0.0 {
      CapFromSpent(rows, budget, lot);
    } else {
      ZeroBuysTotal(rows);
    }
  }

  /** `total_cash * risk_degree + total_sell_amount`: what the buys may spend. */
  function Budget(cash: real, risk: real, sellTotal: real): real {
    cash * risk + sellTotal
  }

  /**
   * The order half of `_generate_trading_orders`: frame the orders, cap the
   * buys only when their total exceeds a positive budget, and net the two
   * totals. The capped buy total never exceeds a positive budget, and the
   * net amount is the buy surplus over the sells, or 0.
   */
  method SettleOrders(orders: seq<Order>, resolve: Order -> Float, base: seq<PredRow>, minShares: int,
                      dateTag: string, cash: real, risk: real)
    returns (rows: seq<OrderRow>, buyTotal: real, sellTotal: real, net: real)
    ensures var framed := FrameRows(orders, resolve, base, LotSize(minShares), dateTag);
      sellTotal == SideTotal(framed, Sell) &&
      if SideTotal(framed, Buy) > Budget(cash, risk, sellTotal) > 0.0 then
        rows == Capped(framed, Budget(cash, risk, sellTotal), LotSize(minShares)) &&
        buyTotal <= Budget(cash, risk, sellTotal)
      else
        rows == framed
    ensures buyTotal == SideTotal(rows, Buy)
    ensures net >= 0.0 && net >= buyTotal - sellTotal
    ensures net == 0.0 || net == buyTotal - sellTotal
  {
    var framed;
    framed, buyTotal, sellTotal := OrdersToFrame(orders, resolve, base, minShares, dateTag);
    FrameRowsPriced(orders, resolve, base, LotSize(minShares), dateTag);
    rows, buyTotal, net := CapAndNet(framed, buyTotal, sellTotal, minShares, cash, risk);
  }

  /**
   * The budget step shared by both predictors: cap the buys of a framed
   * table only when their total exceeds a positive budget, then net the
   * buy total against the sells.
   */
  method CapAndNet(framed: seq<OrderRow>, framedBuys: real, sellTotal: real, minShares: int, cash: real, risk: real)
    returns (rows: seq<OrderRow>, buyTotal: real, net: real)
    requires forall r :: r in framed ==> Priced(r)
    requires framedBuys == SideTotal(framed, Buy)
    ensures if framedBuys > Budget(cash, risk, sellTotal) > 0.0 then
        rows == Capped(framed, Budget(cash, risk, sellTotal), LotSize(minShares)) &&
        buyTotal <= Budget(cash, risk, sellTotal)
      else
        rows == framed
    ensures buyTotal == SideTotal(rows, Buy)
    ensures net >= 0.0 && net >= buyTotal - sellTotal
    ensures net == 0.0 || net == buyTotal - sellTotal
  {
    rows := framed;
    buyTotal := framedBuys;
    var budget := Budget(cash, risk, sellTotal);
    if buyTotal > budget && budget > 0.0 {
      var a := new OrderRow[|framed|](i requires 0 <= i < |framed| => framed[i]);
      assert a[..] == framed;
      buyTotal := CapBuyOrdersToBudget(a, budget, minShares);
      rows := a[..];
      CappedWithinBudget(framed, budget, LotSize(minShares));
    }
    net := MaxReal(buyTotal - sellTotal, 0.0);
  }

  /** `amount_dict.get(code, 0.0)`. */
  function Get(m: map<string, real>, code: string): real {
    if code in m then m[code] else 0.0
  }

  /**
   * The amounts `_calculate_target_shares` starts from: the exchange's
   * conversion of the weights, or 0 for every weighted code when that
   * conversion raises.
   */
  function StartAmounts(converted: Outcome<map<string, real>>, weights: map<string, real>): map<string, real> {
    if converted.Ok? then converted.value else map code | code in weights :: 0.0
  }

  /** The start amounts with the holdings of the codes in `done` added. */
  function AddHoldings(start: map<string, real>, holdings: map<string, real>, done: set<string>): map<string, real>
    requires done <= holdings.Keys
  {
    map code | code in start.Keys + done :: Get(start, code) + (if code in done then holdings[code] else 0.0)
  }

  /** The codes of `done` whose amount rounds to a positive share count, with that count. */
  function RoundedOf(amounts: map<string, real>, done: set<string>, lot: int): map<string, int>
    requires lot >= 1 && done <= amounts.Keys
  {
    map code | code in done && RoundToLot(amounts[code], lot) > 0 :: RoundToLot(amounts[code], lot)
  }

  /** The target share counts: every code's total amount rounded to the lot, positive ones only. */
  function TargetShares(converted: Outcome<map<string, real>>, weights: map<string, real>,
                        holdings: map<string, real>, lot: int): map<string, int>
    requires lot >= 1
  {
    var amounts := AddHoldings(StartAmounts(converted, weights), holdings, holdings.Keys);
    RoundedOf(amounts, amounts.Keys, lot)
  }

  /**
   * `_calculate_target_shares`: the holdings are added to the converted
   * amounts code by code, then every amount is rounded to the lot and kept
   * when positive.
   */
  method CalculateTargetShares(converted: Outcome<map<string, real>>, weights: map<string, real>,
                               holdings: map<string, real>, minShares: int)
    returns (rounded: map<string, int>)
    ensures rounded == TargetShares(converted, weights, holdings, LotSize(minShares))
  {
    var amountDict := AddHoldingAmounts(StartAmounts(converted, weights), holdings);
    rounded := RoundAmounts(amountDict, LotSize(minShares));
  }

  /** The first loop of `_calculate_target_shares`: each held amount added to its code. */
  method AddHoldingAmounts(start: map<string, real>, holdings: map<string, real>) returns (amountDict: map<string, real>)
    ensures amountDict == AddHoldings(start, holdings, holdings.Keys)
  {
    amountDict := start;
    AddNoHoldings(start, holdings);
    var todo := holdings.Keys;
    ghost var done: set<string> := {};
    while todo != {}
      invariant done <= holdings.Keys && todo + done == holdings.Keys && todo !! done
      invariant amountDict == AddHoldings(start, holdings, done)
      decreases todo
    {
      var code :| code in todo;
      AddHoldingsStep(amountDict, start, holdings, done, code);
      amountDict := amountDict[code := Get(amountDict, code) + holdings[code]];
      todo := todo - {code};
      done := done + {code};
    }
  }

  /** The second loop of `_calculate_target_shares`: each amount rounded to the lot, positive counts kept. */
  method RoundAmounts(amountDict: map<string, real>, lot: int) returns (rounded: map<string, int>)
    requires lot >= 1
    ensures rounded == RoundedOf(amountDict, amountDict.Keys, lot)
  {
    rounded := map[];
    var left := amountDict.Keys;
    ghost var done: set<string> := {};
    while left != {}
      invariant done <= amountDict.Keys && left + done == amountDict.Keys && left !! done
      invariant rounded == RoundedOf(amountDict, done, lot)
      decreases left
    {
      var code :| code in left;
      RoundedStep(amountDict, done, lot, code);
      var shares := RoundToLot(amountDict[code], lot);
      if shares > 0 {
        rounded := rounded[code := shares];
      }
      left := left - {code};
      done := done + {code};
    }
    assert done == amountDict.Keys;
  }

  lemma AddNoHoldings(start: map<string, real>, holdings: map<string, real>)
    ensures AddHoldings(start, holdings, {}) == start
  {
  }

  lemma AddHoldingsStep(before: map<string, real>, start: map<string, real>, holdings: map<string, real>,
                        done: set<string>, code: string)
    requires done <= holdings.Keys && code in holdings && code !in done
    requires before == AddHoldings(start, holdings, done)
    ensures before[code := Get(before, code) + holdings[code]] == AddHoldings(start, holdings, done + {code})
  {
  }

  lemma RoundedStep(amounts: map<string, real>, done: set<string>, lot: int, code: string)
    requires lot >= 1 && done <= amounts.Keys && code in amounts && code !in done
    ensures RoundedOf(amounts, done + {code}, lot) ==
      if RoundToLot(amounts[code], lot) > 0 then RoundedOf(amounts, done, lot)[code := RoundToLot(amounts[code], lot)]
      else RoundedOf(amounts, done, lot)
  {
  }

  /**
   * Every target count is a positive whole number of lots; every held code
   * and, when the conversion succeeds, every converted code (otherwise
   * every weighted code) is a candidate, and is kept exactly when its
   * summed amount rounds to a positive count.
   */
  lemma TargetSharesSpec(converted: Outcome<map<string, real>>, weights: map<string, real>,
                         holdings: map<string, real>, lot: int, code: string)
    requires lot >= 1
    ensures var start := StartAmounts(converted, weights);
      var total := Get(start, code) + Get(holdings, code);
      (code in TargetShares(converted, weights, holdings, lot) <==>
        (code in start || code in holdings) && RoundToLot(total, lot) > 0) &&
      (code in TargetShares(converted, weights, holdings, lot) ==>
        TargetShares(converted, weights, holdings, lot)[code] == RoundToLot(total, lot))
    ensures code in TargetShares(converted, weights, holdings, lot) ==>
      TargetShares(converted, weights, holdings, lot)[code] >= lot &&
      TargetShares(converted, weights, holdings, lot)[code] % lot == 0
  {
    var start := StartAmounts(converted, weights);
    var amounts := AddHoldings(start, holdings, holdings.Keys);
    if code in amounts {
      RoundToLotSpec(amounts[code], lot);
      PositiveMultiple(RoundToLot(amounts[code], lot), lot);
    }
  }

  lemma PositiveMultiple(n: int, lot: int)
    requires lot >= 1 && n % lot == 0
    ensures n > 0 ==> n >= lot
  {
    var q := n / lot;
    assert n == q * lot;
    if q >= 1 {
      MulMonotoneInt(1, q, lot);
    } else {
      MulMonotoneInt(q, 0, lot);
    }
  }

  lemma MulMonotoneInt(a: int, b: int, c: int)
    requires a <= b && c >= 0
    ensures a * c <= b * c
  {
  }

  /** `TradingResult.buy_orders`. */
  function BuyOrders(rows: seq<OrderRow>): seq<OrderRow> {
    Filter(rows, OnSide(Buy))
  }

  /** `TradingResult.sell_orders`. */
  function SellOrders(rows: seq<OrderRow>): seq<OrderRow> {
    Filter(rows, OnSide(Sell))
  }

  function OnSide(side: OrderDir): OrderRow -> bool {
    (r: OrderRow) => r.action == side
  }

  /** The buy view and the sell view split the order table: every row lands in exactly one. */
  lemma BuySellPartition(rows: seq<OrderRow>)
    ensures multiset(BuyOrders(rows)) + multiset(SellOrders(rows)) == multiset(rows)
    ensures forall r :: r in BuyOrders(rows) ==> r.action == Buy
    ensures forall r :: r in SellOrders(rows) ==> r.action == Sell
  {
    FilterSplit(rows, OnSide(Buy), OnSide(Sell));
  }
}
