/**
 * The order generators of weight-based strategies: from a target weight
 * per stock to a target share amount per stock, and from there to orders
 * through the exchange's diff against the current amounts. The exchange
 * (tradability, closes, position values, the weight-to-amount conversion
 * and the diff) and the position's own valuation are parameters.
 */
module OrderGenerator {
  import opened Common
  import opened LiveStrategy

  /** The two time windows the generators look at: the prediction day and the trade day. */
  datatype Window = PredWindow | TradeWindow

  /**
   * The exchange: tradability in a window, the prediction-day close (NaN
   * when missing), the value of an amount dictionary (all stocks, or only
   * the tradable ones), the cost rates, the weight-to-amount conversion,
   * and the diff from a target amount dictionary to orders.
   */
  datatype Exchange = Exchange(
    tradable: (string, Window) -> bool,
    close: string -> Float,
    positionValue: (map<string, real>, bool) -> real,
    closeCost: real,
    openCost: real,
    amountsFromWeights: (map<string, real>, real) -> map<string, Float>,
    ordersFor: (map<string, Float>, map<string, real>) -> seq<Order>)

  /** The position: cash, the amount held of each stock, each stock's recorded price, and its total value. */
  datatype Position = Position(cash: real, amounts: map<string, real>, price: string -> Float, value: real)

  /** Which generator is used: the base class, or one of its two subclasses. */
  datatype Kind = Base | WithInteract | WithoutInteract

  /** `x / price`; a NaN price gives NaN, and so does a zero price. */
  function Per(x: real, price: Float): Float {
    if price.Some? && price.value != 0.0 then Some(x / price.value) else NaN
  }

  /** `Per` is defined exactly for a present, non-zero price, and then multiplies back to `x`. */
  lemma PerSpec(x: real, price: Float)
    ensures Per(x, price).Some? <==> price.Some? && price.value != 0.0
    ensures Per(x, price).Some? ==> Per(x, price).value * price.value == x
  {
  }

  // ---------------------------------------------------------------------
  // Without interaction: prediction-day closes, or the recorded price
  // ---------------------------------------------------------------------

  /** The stock is tradable on the prediction day and on the trade day. */
  predicate TradableBoth(ex: Exchange, code: string) {
    ex.tradable(code, TradeWindow) && ex.tradable(code, PredWindow)
  }

  /** The stock gets a target amount: tradable in both windows, or held. */
  predicate Targeted(ex: Exchange, pos: Position, code: string) {
    TradableBoth(ex, code) || code in pos.amounts
  }

  /** The price one target amount is estimated with: the prediction-day close, else the recorded price. */
  function EstimatePrice(ex: Exchange, pos: Position, code: string): Float {
    if TradableBoth(ex, code) then ex.close(code) else pos.price(code)
  }

  /** The target amount of a targeted stock: its weight's share of the budget, over the estimate price. */
  function TargetOf(ex: Exchange, pos: Position, weights: map<string, real>, budget: real, code: string): Float
    requires code in weights
  {
    Per(budget * weights[code], EstimatePrice(ex, pos, code))
  }

  lemma TargetOfPrice(ex: Exchange, pos: Position, weights: map<string, real>, budget: real, code: string)
    requires code in weights
    ensures TradableBoth(ex, code) ==> TargetOf(ex, pos, weights, budget, code) == Per(budget * weights[code], ex.close(code))
    ensures !TradableBoth(ex, code) ==> TargetOf(ex, pos, weights, budget, code) == Per(budget * weights[code], pos.price(code))
  {
  }

  /** The targets the loop has set after visiting the stocks in `done`, out of a budget. */
  function TargetsOver(ex: Exchange, pos: Position, weights: map<string, real>, budget: real, done: set<string>)
    : map<string, Float>
  {
    map code | code in done && code in weights && Targeted(ex, pos, code) :: TargetOf(ex, pos, weights, budget, code)
  }

  /** The budget of `OrderGenWOInteract`: the risk share of the position's whole value. */
  function RiskTotal(risk: real, pos: Position): real {
    risk * pos.value
  }

  /** The target amount dictionary of `OrderGenWOInteract`. */
  function TargetAmounts(ex: Exchange, pos: Position, weights: map<string, real>, risk: real): map<string, Float> {
    TargetsOver(ex, pos, weights, RiskTotal(risk, pos), weights.Keys)
  }

  /** Visiting one more stock adds its target when it has one and changes nothing else. */
  lemma TargetsOverStep(ex: Exchange, pos: Position, weights: map<string, real>, budget: real, done: set<string>, code: string)
    requires code in weights && code !in done
    ensures Targeted(ex, pos, code) ==>
      TargetsOver(ex, pos, weights, budget, done + {code}) ==
      TargetsOver(ex, pos, weights, budget, done)[code := TargetOf(ex, pos, weights, budget, code)]
    ensures !Targeted(ex, pos, code) ==>
      TargetsOver(ex, pos, weights, budget, done + {code}) == TargetsOver(ex, pos, weights, budget, done)
  {
    var before := TargetsOver(ex, pos, weights, budget, done);
    var after := TargetsOver(ex, pos, weights, budget, done + {code});
    if Targeted(ex, pos, code) {
      var v := TargetOf(ex, pos, weights, budget, code);
      assert after.Keys == before.Keys + {code};
      forall k | k in after ensures after[k] == before[code := v][k] {
        if k != code {
          assert k in done;
        }
      }
    } else {
      assert after.Keys == before.Keys;
    }
  }

  /**
   * The loop of `OrderGenWOInteract`: for every stock of the target
   * weights, the risk share of the position's value times the weight,
   * over the prediction-day close when the stock is tradable in both
   * windows, else over the recorded price when it is held; any other
   * stock is skipped.
   */
  method BuildTargetAmounts(ex: Exchange, pos: Position, weights: map<string, real>, risk: real)
    returns (amounts: map<string, Float>)
    ensures amounts == TargetAmounts(ex, pos, weights, risk)
  {
    var riskTotal := RiskTotal(risk, pos);
    amounts := map[];
    var todo := weights.Keys;
    while todo != {}
      invariant todo <= weights.Keys
      invariant amounts == TargetsOver(ex, pos, weights, riskTotal, weights.Keys - todo)
      decreases todo
    {
      var code :| code in todo;
      TargetsOverStep(ex, pos, weights, riskTotal, weights.Keys - todo, code);
      TargetOfPrice(ex, pos, weights, riskTotal, code);
      assert (weights.Keys - todo) + {code} == weights.Keys - (todo - {code});
      if ex.tradable(code, TradeWindow) && ex.tradable(code, PredWindow) {
        amounts := amounts[code := Per(riskTotal * weights[code], ex.close(code))];
      } else if code in pos.amounts {
        amounts := amounts[code := Per(riskTotal * weights[code], pos.price(code))];
      }
      todo := todo - {code};
    }
    assert weights.Keys - todo == weights.Keys;
  }

  /**
   * The target of a stock tradable in both windows, valued at its
   * prediction-day close, is its weight's share of the risk budget; a held
   * stock not tradable in both windows is valued at its recorded price
   * instead; an unheld stock not tradable in both windows has no target,
   * nor does any stock without a weight.
   */
  lemma TargetAmountsSpec(ex: Exchange, pos: Position, weights: map<string, real>, risk: real, code: string)
    ensures var t := TargetAmounts(ex, pos, weights, risk);
      (code in t <==> code in weights && (TradableBoth(ex, code) || code in pos.amounts)) &&
      (code in t && TradableBoth(ex, code) && t[code].Some? ==>
        t[code].value * ex.close(code).value == risk * pos.value * weights[code]) &&
      (code in t && !TradableBoth(ex, code) && t[code].Some? ==>
        t[code].value * pos.price(code).value == risk * pos.value * weights[code]) &&
      (code in t ==> (t[code].None? <==> EstimatePrice(ex, pos, code).None? || EstimatePrice(ex, pos, code).value == 0.0))
  {
    var t := TargetAmounts(ex, pos, weights, risk);
    if code in weights && Targeted(ex, pos, code) {
      assert code in t;
      assert t[code] == TargetOf(ex, pos, weights, RiskTotal(risk, pos), code);
      PerSpec(risk * pos.value * weights[code], EstimatePrice(ex, pos, code));
    }
  }

  // ---------------------------------------------------------------------
  // With interaction: trade-day values, a cash reserve and the cost rate
  // ---------------------------------------------------------------------

  /** The part of the current amounts that is not tradable on the trade day. */
  function HeldUntradable(ex: Exchange, current: map<string, real>): map<string, Float> {
    map code | code in current && !ex.tradable(code, TradeWindow) :: Some(current[code])
  }

  /** Deleting the tradable stocks of `done` from a copy of the current amounts. */
  function KeptOver(ex: Exchange, current: map<string, real>, done: set<string>): map<string, Float> {
    map code | code in current && (code !in done || !ex.tradable(code, TradeWindow)) :: Some(current[code])
  }

  /**
   * The "sell everything tradable" branch: a copy of the current amounts,
   * from which every stock tradable on the trade day is deleted.
   */
  method DropTradable(ex: Exchange, current: map<string, real>) returns (target: map<string, Float>)
    ensures target == HeldUntradable(ex, current)
  {
    target := map code | code in current :: Some(current[code]);
    var todo := current.Keys;
    while todo != {}
      invariant todo <= current.Keys
      invariant target == KeptOver(ex, current, current.Keys - todo)
      decreases todo
    {
      var code :| code in todo;
      assert (current.Keys - todo) + {code} == current.Keys - (todo - {code});
      if ex.tradable(code, TradeWindow) {
        target := map k | k in target && k != code :: target[k];
      }
      todo := todo - {code};
    }
    assert current.Keys - todo == current.Keys;
  }

  /** The cash kept back: the non-risk share of all stocks' value plus cash. */
  function Reserved(ex: Exchange, pos: Position, risk: real): real {
    (1.0 - risk) * (ex.positionValue(pos.amounts, false) + pos.cash)
  }

  /** What can be traded: the tradable stocks' value plus cash, less the reserve. */
  function Available(ex: Exchange, pos: Position, risk: real): real {
    ex.positionValue(pos.amounts, true) + pos.cash - Reserved(ex, pos, risk)
  }

  /**
   * The target amount dictionary of `OrderGenWInteract`: when selling every
   * tradable stock cannot meet the reserve, only the untradable holdings
   * stay; otherwise the available value, net of the larger cost rate, is
   * turned into amounts by the exchange. Dividing by a zero `1 + cost`
   * raises.
   */
  function InteractTargets(ex: Exchange, pos: Position, weights: map<string, real>, risk: real)
    : Outcome<map<string, Float>>
  {
    var available := Available(ex, pos, risk);
    if available < 0.0 then Ok(HeldUntradable(ex, pos.amounts))
    else
      var rate := 1.0 + MaxReal(ex.closeCost, ex.openCost);
      if rate == 0.0 then Raised("ZeroDivisionError: float division by zero")
      else Ok(ex.amountsFromWeights(weights, available / rate))
  }

  /**
   * With the reserve unmet, the targets are exactly the holdings not
   * tradable on the trade day at their current amounts, so every tradable
   * holding is sold; otherwise, with non-negative cost rates, the cash
   * handed to the conversion is never negative and never more than what
   * is available.
   */
  lemma InteractTargetsSpec(ex: Exchange, pos: Position, weights: map<string, real>, risk: real)
    ensures var t := InteractTargets(ex, pos, weights, risk);
      Available(ex, pos, risk) < 0.0 ==>
        t.Ok? && t.value.Keys == (set code | code in pos.amounts && !ex.tradable(code, TradeWindow)) &&
        forall code :: code in t.value ==> t.value[code] == Some(pos.amounts[code])
    ensures Available(ex, pos, risk) >= 0.0 && ex.closeCost >= 0.0 && ex.openCost >= 0.0 ==>
      var cash := Available(ex, pos, risk) / (1.0 + MaxReal(ex.closeCost, ex.openCost));
      InteractTargets(ex, pos, weights, risk) == Ok(ex.amountsFromWeights(weights, cash)) &&
      0.0 <= cash <= Available(ex, pos, risk)
  {
    var a := Available(ex, pos, risk);
    if a >= 0.0 && ex.closeCost >= 0.0 && ex.openCost >= 0.0 {
      var rate := 1.0 + MaxReal(ex.closeCost, ex.openCost);
      assert rate >= 1.0;
      assert a / rate * rate == a;
      if a > 0.0 {
        MulMonotone(1.0, rate, a / rate);
      }
    }
  }

  /**
   * With the whole value at risk, nothing is reserved, so with
   * non-negative tradable value and cash the "sell everything tradable"
   * branch is never taken.
   */
  lemma FullRiskNoReserve(ex: Exchange, pos: Position, weights: map<string, real>)
    requires ex.positionValue(pos.amounts, true) >= 0.0 && pos.cash >= 0.0
    ensures Reserved(ex, pos, 1.0) == 0.0
    ensures Available(ex, pos, 1.0) >= 0.0
  {
  }

  // ---------------------------------------------------------------------
  // generate_order_list_from_target_weight_position
  // ---------------------------------------------------------------------

  /**
   * `generate_order_list_from_target_weight_position`: the base class
   * raises; a missing weight dictionary gives no orders; otherwise the
   * orders are the exchange's diff from the target amounts to the current
   * ones.
   */
  function OrderList(kind: Kind, ex: Exchange, pos: Position, weights: Option<map<string, real>>, risk: real)
    : Outcome<seq<Order>>
  {
    if kind == Base then Raised("NotImplementedError")
    else if weights.None? then Ok([])
    else if kind == WithoutInteract then
      Ok(ex.ordersFor(TargetAmounts(ex, pos, weights.value, risk), pos.amounts))
    else
      var targets := InteractTargets(ex, pos, weights.value, risk);
      if targets.Raised? then Raised(targets.error)
      else Ok(ex.ordersFor(targets.value, pos.amounts))
  }

  /** The generator as run: the target amounts are built by the loops above, then diffed. */
  method GenerateOrderList(kind: Kind, ex: Exchange, pos: Position, weights: Option<map<string, real>>, risk: real)
    returns (r: Outcome<seq<Order>>)
    ensures r == OrderList(kind, ex, pos, weights, risk)
  {
    if kind == Base {
      return Raised("NotImplementedError");
    }
    if weights.None? {
      return Ok([]);
    }
    var targets: map<string, Float>;
    if kind == WithoutInteract {
      targets := BuildTargetAmounts(ex, pos, weights.value, risk);
    } else {
      var available := Available(ex, pos, risk);
      if available < 0.0 {
        targets := DropTradable(ex, pos.amounts);
      } else {
        var rate := 1.0 + MaxReal(ex.closeCost, ex.openCost);
        if rate == 0.0 {
          return Raised("ZeroDivisionError: float division by zero");
        }
        targets := ex.amountsFromWeights(weights.value, available / rate);
      }
    }
    r := Ok(ex.ordersFor(targets, pos.amounts));
  }

  /**
   * The base generator always raises; either subclass returns no orders
   * for a missing weight dictionary, and otherwise returns exactly the
   * exchange's orders for some target amount dictionary (the one the
   * lemmas above describe) against the current amounts.
   */
  lemma OrderListSpec(kind: Kind, ex: Exchange, pos: Position, weights: Option<map<string, real>>, risk: real)
    ensures kind == Base ==> OrderList(kind, ex, pos, weights, risk).Raised?
    ensures kind != Base && weights.None? ==> OrderList(kind, ex, pos, weights, risk) == Ok([])
    ensures kind == WithoutInteract && weights.Some? ==>
      OrderList(kind, ex, pos, weights, risk) == Ok(ex.ordersFor(TargetAmounts(ex, pos, weights.value, risk), pos.amounts))
    ensures kind == WithInteract && weights.Some? ==>
      (OrderList(kind, ex, pos, weights, risk).Ok? <==> InteractTargets(ex, pos, weights.value, risk).Ok?)
    ensures kind == WithInteract && weights.Some? && InteractTargets(ex, pos, weights.value, risk).Ok? ==>
      OrderList(kind, ex, pos, weights, risk) == Ok(ex.ordersFor(InteractTargets(ex, pos, weights.value, risk).value, pos.amounts))
    ensures kind == WithInteract && weights.Some? && InteractTargets(ex, pos, weights.value, risk).Raised? ==>
      OrderList(kind, ex, pos, weights, risk) == Raised(InteractTargets(ex, pos, weights.value, risk).error)
  {
  }
}
