/**
 * The holding-period ledger of the live predictor: a JSON file mapping
 * each bought symbol to the date of its first buy and its last bought
 * amount, used to enforce the minimum holding period (T+1). Dates are day
 * numbers; the file is the `file` field, loaded and saved whole by each
 * operation.
 */
module Ledger {

  datatype LedgerEntry = LedgerEntry(buyDate: int, amount: int)

  /** A buy order as the ledger sees it: symbol and share count. */
  datatype BuyOrder = BuyOrder(code: string, shares: int)

  /** The ledger restricted to currently held symbols. */
  function Restrict(file: map<string, LedgerEntry>, held: set<string>): (r: map<string, LedgerEntry>)
    ensures r.Keys == file.Keys * held
    ensures forall k :: k in r ==> r[k] == file[k]
  {
    map k | k in file && k in held :: file[k]
  }

  /**
   * Holding days of each held symbol: days since its recorded buy, or
   * `holdThresh + 100` for a symbol the ledger does not know (an old
   * holding, sellable).
   */
  function HoldDays(file: map<string, LedgerEntry>, held: set<string>, today: int, holdThresh: int): (r: map<string, int>)
    ensures r.Keys == held
  {
    map k | k in held :: if k in file then today - file[k].buyDate else holdThresh + 100
  }

  /** A symbol first bought today has held for zero days, so it stays below any positive threshold. */
  lemma BoughtTodayIsYoung(file: map<string, LedgerEntry>, held: set<string>, today: int, holdThresh: int, code: string)
    requires code in held && code in file && file[code].buyDate == today
    requires holdThresh >= 1
    ensures HoldDays(file, held, today, holdThresh)[code] == 0 < holdThresh
  {
  }

  /** A held symbol missing from the ledger always clears the threshold. */
  lemma UnledgeredIsOld(file: map<string, LedgerEntry>, held: set<string>, today: int, holdThresh: int, code: string)
    requires code in held && code !in file
    ensures HoldDays(file, held, today, holdThresh)[code] >= holdThresh
  {
  }

  /** The ledger after recording one buy order. */
  function ApplyBuy(file: map<string, LedgerEntry>, order: BuyOrder, today: int): map<string, LedgerEntry> {
    if order.shares <= 0 then file
    else if order.code !in file then file[order.code := LedgerEntry(today, order.shares)]
    else file[order.code := file[order.code].(amount := order.shares)]
  }

  /** The ledger after recording the buy orders in order. */
  function ApplyBuys(file: map<string, LedgerEntry>, orders: seq<BuyOrder>, today: int): map<string, LedgerEntry>
    decreases |orders|
  {
    if orders == [] then file
    else ApplyBuys(ApplyBuy(file, orders[0], today), orders[1..], today)
  }

  /** The symbols of the orders with a positive share count. */
  function PositiveCodes(orders: seq<BuyOrder>): set<string> {
    set i | 0 <= i < |orders| && orders[i].shares > 0 :: orders[i].code
  }

  /**
   * Recording buys adds exactly the positively bought symbols, keeps
   * every existing buy date, and dates new symbols today.
   */
  lemma {:induction false} ApplyBuysEffect(file: map<string, LedgerEntry>, orders: seq<BuyOrder>, today: int)
    ensures ApplyBuys(file, orders, today).Keys == file.Keys + PositiveCodes(orders)
    ensures forall k :: k in file ==> ApplyBuys(file, orders, today)[k].buyDate == file[k].buyDate
    ensures forall k :: k in PositiveCodes(orders) && k !in file ==> ApplyBuys(file, orders, today)[k].buyDate == today
    decreases |orders|
  {
    if orders != [] {
      var f1 := ApplyBuy(file, orders[0], today);
      ApplyBuysEffect(f1, orders[1..], today);
      assert PositiveCodes(orders) == (if orders[0].shares > 0 then {orders[0].code} else {}) + PositiveCodes(orders[1..]) by {
        forall c | c in PositiveCodes(orders)
          ensures c in (if orders[0].shares > 0 then {orders[0].code} else {}) + PositiveCodes(orders[1..])
        {
          var i :| 0 <= i < |orders| && orders[i].shares > 0 && orders[i].code == c;
          if i > 0 { assert orders[1..][i - 1] == orders[i]; }
        }
        forall c | c in PositiveCodes(orders[1..]) ensures c in PositiveCodes(orders) {
          var i :| 0 <= i < |orders[1..]| && orders[1..][i].shares > 0 && orders[1..][i].code == c;
          assert orders[i + 1] == orders[1..][i];
        }
      }
    }
  }

  /** Orders with no positive share count leave the ledger as it is. */
  lemma {:induction false} NonPositiveOrdersIgnored(file: map<string, LedgerEntry>, orders: seq<BuyOrder>, today: int)
    requires forall i :: 0 <= i < |orders| ==> orders[i].shares <= 0
    ensures ApplyBuys(file, orders, today) == file
    decreases |orders|
  {
    if orders != [] {
      NonPositiveOrdersIgnored(file, orders[1..], today);
    }
  }

  class HoldingsLedger {
    /** The ledger file's contents. */
    var file: map<string, LedgerEntry>

    constructor(initial: map<string, LedgerEntry>)
      ensures file == initial
    {
      file := initial;
    }

    /**
     * `_calculate_hold_days`: forget symbols no longer held, then give
     * every held symbol its holding days.
     */
    method CalculateHoldDays(held: set<string>, today: int, holdThresh: int)
      returns (holdDays: map<string, int>, removed: set<string>)
      modifies this
      ensures file == Restrict(old(file), held)
      ensures removed == old(file).Keys - held
      ensures holdDays == HoldDays(old(file), held, today, holdThresh)
    {
      var history := file;
      var keys := history.Keys;
      removed := {};
      while keys != {}
        invariant keys <= old(file).Keys
        invariant history == map k | k in old(file) && (k in keys || k in held) :: old(file)[k]
        invariant removed == (old(file).Keys - keys) - held
        decreases keys
      {
        var code :| code in keys;
        if code !in held {
          history := history - {code};
          removed := removed + {code};
        }
        keys := keys - {code};
      }
      assert history == Restrict(old(file), held);
      if removed != {} {
        file := history;
      }
      holdDays := map[];
      var todo := held;
      while todo != {}
        invariant todo <= held
        invariant holdDays.Keys == held - todo
        invariant forall k :: k in holdDays ==> holdDays[k] == HoldDays(old(file), held, today, holdThresh)[k]
        decreases todo
      {
        var code :| code in todo;
        if code in history {
          holdDays := holdDays[code := today - history[code].buyDate];
        } else {
          holdDays := holdDays[code := holdThresh + 100];
        }
        todo := todo - {code};
      }
    }

    /**
     * `_update_holdings_history_after_buy`: a positive buy of an unknown
     * symbol records today's date; of a known one refreshes only the amount.
     */
    method UpdateAfterBuy(orders: seq<BuyOrder>, today: int)
      modifies this
      ensures file == ApplyBuys(old(file), orders, today)
    {
      var history := file;
      var i := 0;
      while i < |orders|
        invariant 0 <= i <= |orders|
        invariant ApplyBuys(history, orders[i..], today) == ApplyBuys(old(file), orders, today)
      {
        var order := orders[i];
        assert orders[i..][0] == order;
        assert orders[i..][1..] == orders[i + 1..];
        if order.shares > 0 {
          if order.code !in history {
            history := history[order.code := LedgerEntry(today, order.shares)];
          } else {
            history := history[order.code := history[order.code].(amount := order.shares)];
          }
        }
        i := i + 1;
      }
      assert orders[i..] == [];
      file := history;
    }

    /** `_cleanup_holdings_history`: forget symbols no longer held. */
    method Cleanup(held: set<string>) returns (removed: set<string>)
      modifies this
      ensures file == Restrict(old(file), held)
      ensures removed == old(file).Keys - held
    {
      var history := file;
      var keys := history.Keys;
      removed := {};
      while keys != {}
        invariant keys <= old(file).Keys
        invariant history == map k | k in old(file) && (k in keys || k in held) :: old(file)[k]
        invariant removed == (old(file).Keys - keys) - held
        decreases keys
      {
        var code :| code in keys;
        if code !in held {
          history := history - {code};
          removed := removed + {code};
        }
        keys := keys - {code};
      }
      assert history == Restrict(old(file), held);
      if removed != {} {
        file := history;
      }
    }
  }
}
