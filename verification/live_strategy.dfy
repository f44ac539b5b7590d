/**
 * `LiveTopkStrategy.generate_trade_decision`: the top-k/dropout selection
 * over the prediction scores, the sell pass over the held stocks with its
 * hold-period gate, and the two-round buy allocation for small accounts
 * (Round 1 keeps the candidates an equal split can afford at least a
 * minimum number of shares of; Round 2 splits the whole budget over the
 * survivors). The exchange and the position are functions given as
 * parameters.
 */
module LiveStrategy {
  import opened Common
  import opened LiveExchange
  import opened Sorting

  /** An order of the decision: stock, share amount, direction. */
  datatype Order = Order(stock: string, amount: real, direction: OrderDir)

  /**
   * The exchange as seen from one trade window: tradability (optionally
   * for one direction), the buy deal price (which may raise), the
   * adjustment factor (NaN when missing), rounding to the trade unit, the
   * order check, and dealing a sell (trade value and cost).
   */
  datatype Market = Market(
    tradable: (string, Option<OrderDir>) -> bool,
    dealPrice: string -> Outcome<Float>,
    factor: string -> Float,
    roundToUnit: (real, Float) -> real,
    checkOrder: Order -> bool,
    deal: Order -> (real, real))

  /** The position at the start of the step: cash, held stocks in their listed order, amounts and holding counts. */
  datatype Holdings = Holdings(cash: real, stocks: seq<string>, amount: string -> real, count: string -> int)

  datatype Config = Config(
    topk: int, nDrop: int, holdThresh: int, riskDegree: real, minAffordableShares: int,
    onlyTradable: bool, forbidAllTradeAtLimit: bool, methodBuy: string, methodSell: string,
    enableAffordabilityFilter: bool)

  /** The prediction scores, one entry per instrument; NaN scores allowed. */
  type Scores = seq<(string, Float)>

  /** The random draw of the parent strategy is not part of this model. */
  predicate Deterministic(cfg: Config) {
    cfg.methodBuy != "random" && cfg.methodSell != "random"
  }

  // ---------------------------------------------------------------------
  // Python list slicing and the first/last-n helpers
  // ---------------------------------------------------------------------

  /** Where Python clamps the slice bound `k` of a list of length `len`. */
  function SliceBound(k: int, len: nat): (r: nat)
    ensures r <= len
    ensures 0 <= k <= len ==> r == k
  {
    if k < 0 then (if len + k < 0 then 0 else len + k) else if k > len then len else k
  }

  /** `li[:n]`. */
  function Take<T>(li: seq<T>, n: int): seq<T> {
    li[..SliceBound(n, |li|)]
  }

  /** `li[-n:]`. */
  function TakeLast<T>(li: seq<T>, n: int): seq<T> {
    li[SliceBound(-n, |li|)..]
  }

  /**
   * `get_first_n` under `only_tradable`: tradable items in order, stopping
   * once the count reaches `n` (checked after an item is taken, so a
   * non-positive `n` still takes one).
   */
  function FirstTradable<T>(li: seq<T>, n: int, ok: T -> bool): (r: seq<T>)
    ensures |r| <= MaxInt(n, 1)
    ensures forall x :: x in r ==> x in li && ok(x)
  {
    if li == [] then []
    else if !ok(li[0]) then FirstTradable(li[1..], n, ok)
    else if n <= 1 then [li[0]]
    else [li[0]] + FirstTradable(li[1..], n - 1, ok)
  }

  /**
   * `get_last_n` under `only_tradable`: the same scan over the reversed
   * list, the result put back in the list's order.
   */
  function LastTradable<T>(li: seq<T>, n: int, ok: T -> bool): (r: seq<T>)
    ensures |r| <= MaxInt(n, 1)
    ensures forall x :: x in r ==> x in li && ok(x)
  {
    if li == [] then []
    else
      var last := li[|li| - 1];
      if !ok(last) then LastTradable(li[..|li| - 1], n, ok)
      else if n <= 1 then [last]
      else LastTradable(li[..|li| - 1], n - 1, ok) + [last]
  }

  /** `is_stock_tradable` in the trade window with no direction. */
  function TradableNow(m: Market): string -> bool {
    code => m.tradable(code, None)
  }

  function FirstN(cfg: Config, m: Market, li: seq<string>, n: int): seq<string> {
    if cfg.onlyTradable then FirstTradable(li, n, TradableNow(m)) else Take(li, n)
  }

  function LastN(cfg: Config, m: Market, li: seq<string>, n: int): seq<string> {
    if cfg.onlyTradable then LastTradable(li, n, TradableNow(m)) else TakeLast(li, n)
  }

  /** What the `get_first_n` scan knows before position `i`, having taken `res`. */
  predicate FirstScan<T(==)>(li: seq<T>, n: int, ok: T -> bool, i: int, res: seq<T>) {
    0 <= i <= |li| && (res == [] || |res| < n) &&
    res + FirstTradable(li[i..], n - |res|, ok) == FirstTradable(li, n, ok)
  }

  /** An item the scan skips. */
  lemma FirstScanSkip<T>(li: seq<T>, n: int, ok: T -> bool, i: int, res: seq<T>)
    requires i < |li| && FirstScan(li, n, ok, i, res) && !ok(li[i])
    ensures FirstScan(li, n, ok, i + 1, res)
  {
    assert li[i..] == [li[i]] + li[i + 1..];
  }

  /** An item the scan takes, after which the count is reached. */
  lemma FirstScanLast<T>(li: seq<T>, n: int, ok: T -> bool, i: int, res: seq<T>)
    requires i < |li| && FirstScan(li, n, ok, i, res) && ok(li[i]) && |res| + 1 >= n
    ensures res + [li[i]] == FirstTradable(li, n, ok)
  {
    assert li[i..] == [li[i]] + li[i + 1..];
    assert FirstTradable(li[i..], n - |res|, ok) == [li[i]];
  }

  /** An item the scan takes, the count not yet reached. */
  lemma FirstScanTake<T>(li: seq<T>, n: int, ok: T -> bool, i: int, res: seq<T>)
    requires i < |li| && FirstScan(li, n, ok, i, res) && ok(li[i]) && |res| + 1 < n
    ensures FirstScan(li, n, ok, i + 1, res + [li[i]])
  {
    var rest := FirstTradable(li[i + 1..], n - |res| - 1, ok);
    assert li[i..] == [li[i]] + li[i + 1..];
    assert FirstTradable(li[i..], n - |res|, ok) == [li[i]] + rest;
    assert (res + [li[i]]) + rest == res + ([li[i]] + rest);
  }

  /** The scan of `get_first_n`, with its early `break`. */
  method GetFirstN<T(==)>(li: seq<T>, n: int, ok: T -> bool) returns (res: seq<T>)
    ensures res == FirstTradable(li, n, ok)
  {
    res := [];
    var i := 0;
    while i < |li|
      invariant FirstScan(li, n, ok, i, res)
    {
      var si := li[i];
      if ok(si) {
        if |res| + 1 >= n {
          FirstScanLast(li, n, ok, i, res);
        } else {
          FirstScanTake(li, n, ok, i, res);
        }
        res := res + [si];
        if |res| >= n {
          return;
        }
      } else {
        FirstScanSkip(li, n, ok, i, res);
      }
      i := i + 1;
    }
    assert li[i..] == [];
  }

  /** What the `get_last_n` scan knows after position `i` (scanning down), having taken `res`. */
  predicate LastScan<T(==)>(li: seq<T>, n: int, ok: T -> bool, i: int, res: seq<T>) {
    0 <= i <= |li| && (res == [] || |res| < n) &&
    LastTradable(li[..i], n - |res|, ok) + res == LastTradable(li, n, ok)
  }

  /** An item the backward scan skips. */
  lemma LastScanSkip<T>(li: seq<T>, n: int, ok: T -> bool, i: int, res: seq<T>)
    requires 0 < i && LastScan(li, n, ok, i, res) && !ok(li[i - 1])
    ensures LastScan(li, n, ok, i - 1, res)
  {
    assert li[..i] == li[..i - 1] + [li[i - 1]];
    assert li[..i][..i - 1] == li[..i - 1];
  }

  /** An item the backward scan takes, after which the count is reached. */
  lemma LastScanLast<T>(li: seq<T>, n: int, ok: T -> bool, i: int, res: seq<T>)
    requires 0 < i && LastScan(li, n, ok, i, res) && ok(li[i - 1]) && |res| + 1 >= n
    ensures [li[i - 1]] + res == LastTradable(li, n, ok)
  {
    assert li[..i][i - 1] == li[i - 1];
    assert LastTradable(li[..i], n - |res|, ok) == [li[i - 1]];
  }

  /** An item the backward scan takes, the count not yet reached. */
  lemma LastScanTake<T>(li: seq<T>, n: int, ok: T -> bool, i: int, res: seq<T>)
    requires 0 < i && LastScan(li, n, ok, i, res) && ok(li[i - 1]) && |res| + 1 < n
    ensures LastScan(li, n, ok, i - 1, [li[i - 1]] + res)
  {
    var rest := LastTradable(li[..i - 1], n - |res| - 1, ok);
    assert li[..i][i - 1] == li[i - 1];
    assert li[..i][..i - 1] == li[..i - 1];
    assert LastTradable(li[..i], n - |res|, ok) == rest + [li[i - 1]];
    assert rest + ([li[i - 1]] + res) == (rest + [li[i - 1]]) + res;
  }

  /**
   * `get_last_n`: the scan over the list from its end; taking each item
   * at the front of the result gives the reversed scan's result already
   * put back in order.
   */
  method GetLastN<T(==)>(li: seq<T>, n: int, ok: T -> bool) returns (res: seq<T>)
    ensures res == LastTradable(li, n, ok)
  {
    res := [];
    var i := |li|;
    assert li[..i] == li;
    while i > 0
      invariant LastScan(li, n, ok, i, res)
    {
      var si := li[i - 1];
      if ok(si) {
        if |res| + 1 >= n {
          LastScanLast(li, n, ok, i, res);
        } else {
          LastScanTake(li, n, ok, i, res);
        }
        res := [si] + res;
        if |res| >= n {
          return;
        }
      } else {
        LastScanSkip(li, n, ok, i, res);
      }
      i := i - 1;
    }
  }

  lemma {:induction false} FilterConcat<T>(a: seq<T>, b: seq<T>, p: T -> bool)
    ensures Filter(a + b, p) == Filter(a, p) + Filter(b, p)
  {
    if a == [] {
      assert a + b == b;
    } else {
      assert (a + b)[0] == a[0];
      assert (a + b)[1..] == a[1..] + b;
      FilterConcat(a[1..], b, p);
    }
  }

  /** The inductive step of `FirstTradableSpec` when the first item is skipped. */
  lemma {:induction false} FirstTradableSkip<T>(li: seq<T>, n: int, ok: T -> bool)
    requires li != [] && !ok(li[0])
    ensures FirstTradable(li, n, ok) == Head(Filter(li, ok), MaxInt(n, 1))
    decreases |li|, 0
  {
    FirstTradableSpec(li[1..], n, ok);
  }

  /** The inductive step of `FirstTradableSpec` when the first item is the only one wanted. */
  lemma FirstTradableOne<T>(li: seq<T>, n: int, ok: T -> bool)
    requires li != [] && ok(li[0]) && n <= 1
    ensures FirstTradable(li, n, ok) == Head(Filter(li, ok), MaxInt(n, 1))
  {
    HeadCons(li[0], Filter(li[1..], ok), 1);
  }

  /** The inductive step of `FirstTradableSpec` when the first item is taken and more are wanted. */
  lemma {:induction false} FirstTradableTake<T>(li: seq<T>, n: int, ok: T -> bool)
    requires li != [] && ok(li[0]) && n > 1
    ensures FirstTradable(li, n, ok) == Head(Filter(li, ok), MaxInt(n, 1))
    decreases |li|, 0
  {
    FirstTradableSpec(li[1..], n - 1, ok);
    HeadCons(li[0], Filter(li[1..], ok), n);
  }

  /**
   * `get_first_n` under `only_tradable` keeps the first `max(n, 1)`
   * tradable items, in their original order.
   */
  lemma {:induction false} FirstTradableSpec<T>(li: seq<T>, n: int, ok: T -> bool)
    ensures FirstTradable(li, n, ok) == Head(Filter(li, ok), MaxInt(n, 1))
    decreases |li|, 1
  {
    if li != [] {
      if !ok(li[0]) {
        FirstTradableSkip(li, n, ok);
      } else if n <= 1 {
        FirstTradableOne(li, n, ok);
      } else {
        FirstTradableTake(li, n, ok);
      }
    }
  }

  lemma HeadCons<T>(x: T, f: seq<T>, n: int)
    requires n >= 1
    ensures Head([x] + f, n) == [x] + Head(f, n - 1)
  {
    var h := Head([x] + f, n);
    var t := Head(f, n - 1);
    assert |h| == 1 + |t|;
    assert h == ([x] + f)[..1 + |t|];
    assert ([x] + f)[..1 + |t|] == [x] + f[..|t|];
  }

  /** The last `k` items of `xs` (all of them when there are fewer). */
  function LastK<T>(xs: seq<T>, k: nat): (r: seq<T>)
    ensures |r| == MinInt(k, |xs|)
  {
    xs[|xs| - MinInt(k, |xs|)..]
  }

  /** Appending one item to a list moves its last-`k+1` window to end at that item. */
  lemma LastKSnoc<T>(g: seq<T>, x: T, k: nat)
    ensures LastK(g + [x], k + 1) == LastK(g, k) + [x]
  {
    var j := |g| - MinInt(k, |g|);
    assert (g + [x])[j..] == g[j..] + [x];
  }

  /** `Filter` of a list with one more item at the end. */
  lemma FilterSnoc<T>(g: seq<T>, x: T, p: T -> bool)
    ensures p(x) ==> Filter(g + [x], p) == Filter(g, p) + [x]
    ensures !p(x) ==> Filter(g + [x], p) == Filter(g, p)
  {
    assert Filter(g, p) + [] == Filter(g, p);
    assert [x][1..] == [];
    FilterConcat(g, [x], p);
  }

  /** The tradable items of a non-empty list: those before its last item, then the last if it is tradable. */
  lemma FilterInit<T>(li: seq<T>, ok: T -> bool)
    requires li != []
    ensures ok(li[|li| - 1]) ==> Filter(li, ok) == Filter(li[..|li| - 1], ok) + [li[|li| - 1]]
    ensures !ok(li[|li| - 1]) ==> Filter(li, ok) == Filter(li[..|li| - 1], ok)
  {
    var k := |li| - 1;
    assert li[..k] + li[k..] == li;
    assert li[k..] == [li[k]];
    FilterSnoc(li[..k], li[k], ok);
  }

  /** The inductive step of `LastTradableSpec` when the last item is taken and more are wanted. */
  lemma {:induction false} LastTradableTake<T>(li: seq<T>, n: int, ok: T -> bool)
    requires li != [] && ok(li[|li| - 1]) && n > 1
    ensures LastTradable(li, n, ok) == LastK(Filter(li, ok), MaxInt(n, 1))
    decreases |li|, 0
  {
    LastTradableSpec(li[..|li| - 1], n - 1, ok);
    FilterInit(li, ok);
    LastKSnoc(Filter(li[..|li| - 1], ok), li[|li| - 1], n - 1);
  }

  /** The inductive step of `LastTradableSpec` when the last item is the only one wanted. */
  lemma LastTradableOne<T>(li: seq<T>, n: int, ok: T -> bool)
    requires li != [] && ok(li[|li| - 1]) && n <= 1
    ensures LastTradable(li, n, ok) == LastK(Filter(li, ok), MaxInt(n, 1))
  {
    FilterInit(li, ok);
    LastKSnoc(Filter(li[..|li| - 1], ok), li[|li| - 1], 0);
  }

  /** The inductive step of `LastTradableSpec` when the last item is skipped. */
  lemma {:induction false} LastTradableSkip<T>(li: seq<T>, n: int, ok: T -> bool)
    requires li != [] && !ok(li[|li| - 1])
    ensures LastTradable(li, n, ok) == LastK(Filter(li, ok), MaxInt(n, 1))
    decreases |li|, 0
  {
    LastTradableSpec(li[..|li| - 1], n, ok);
    FilterInit(li, ok);
  }

  /**
   * `get_last_n` under `only_tradable` keeps the last `max(n, 1)`
   * tradable items, in their original order.
   */
  lemma {:induction false} LastTradableSpec<T>(li: seq<T>, n: int, ok: T -> bool)
    ensures LastTradable(li, n, ok) == LastK(Filter(li, ok), MaxInt(n, 1))
    decreases |li|, 1
  {
    if li != [] {
      if !ok(li[|li| - 1]) {
        LastTradableSkip(li, n, ok);
      } else if n <= 1 {
        LastTradableOne(li, n, ok);
      } else {
        LastTradableTake(li, n, ok);
      }
    }
  }

  /** Without `only_tradable`, a dropout count of 0 keeps the whole list: `li[-0:]` is all of `li`. */
  lemma TakeLastZero<T>(li: seq<T>)
    ensures TakeLast(li, 0) == li
  {
  }

  // ---------------------------------------------------------------------
  // Selection: held stocks ranked, new candidates, sell set, buy list
  // ---------------------------------------------------------------------

  /** The score of an instrument; NaN when the signal has none (`reindex`). */
  function ScoreOf(scores: Scores, code: string): Float {
    if scores == [] then NaN
    else if scores[0].0 == code then scores[0].1
    else ScoreOf(scores[1..], code)
  }

  function ScoreIn(scores: Scores): string -> Float {
    code => ScoreOf(scores, code)
  }

  function EntryScore(e: (string, Float)): Float {
    e.1
  }

  function NotIn(last: seq<string>): ((string, Float)) -> bool {
    (e: (string, Float)) => e.0 !in last
  }

  function InSeq(xs: seq<string>): string -> bool {
    code => code in xs
  }

  function Codes(entries: Scores): (r: seq<string>)
    ensures |r| == |entries|
    ensures forall i :: 0 <= i < |r| ==> r[i] == entries[i].0
  {
    if entries == [] then [] else [entries[0].0] + Codes(entries[1..])
  }

  /**
   * The intermediate lists of one decision: `last` (held stocks by score),
   * `today` (new candidates), `comb` (both by score), `sell` and `buy`.
   */
  datatype Plan = Plan(last: seq<string>, today: seq<string>, comb: seq<string>, sell: seq<string>, buy: seq<string>)

  /** `last`: the held stocks, best score first. */
  function Ranked(h: Holdings, scores: Scores): seq<string> {
    SortDesc(h.stocks, ScoreIn(scores))
  }

  /** The unheld instruments of the signal, best score first. */
  function Candidates(scores: Scores, last: seq<string>): seq<string> {
    Codes(SortDesc(Filter(scores, NotIn(last)), EntryScore))
  }

  /** `today` under the "top" buy method: the first `n_drop + topk - len(last)` candidates. */
  function Today(cfg: Config, m: Market, scores: Scores, last: seq<string>): seq<string> {
    FirstN(cfg, m, Candidates(scores, last), cfg.nDrop + cfg.topk - |last|)
  }

  /** `comb`: held stocks and new candidates together, best score first. */
  function Comb(scores: Scores, last: seq<string>, today: seq<string>): seq<string> {
    SortDesc(last + today, ScoreIn(scores))
  }

  /** `sell` under the "bottom" sell method: the held stocks among the last `n_drop` of `comb`. */
  function SellSet(cfg: Config, m: Market, last: seq<string>, comb: seq<string>): seq<string> {
    Filter(last, InSeq(LastN(cfg, m, comb, cfg.nDrop)))
  }

  /** `buy`: the first `len(sell) + topk - len(last)` of `today`. */
  function BuyList(cfg: Config, last: seq<string>, today: seq<string>, sell: seq<string>): seq<string> {
    Take(today, |sell| + cfg.topk - |last|)
  }

  /**
   * The "top" buy method and "bottom" sell method; any other method name
   * raises NotImplementedError.
   */
  function Selection(cfg: Config, m: Market, h: Holdings, scores: Scores): Outcome<Plan>
    requires Deterministic(cfg)
  {
    var last := Ranked(h, scores);
    if cfg.methodBuy != "top" then Raised("NotImplementedError: This type of input is not supported")
    else
      var today := Today(cfg, m, scores, last);
      var comb := Comb(scores, last, today);
      if cfg.methodSell != "bottom" then Raised("NotImplementedError: This type of input is not supported")
      else
        var sell := SellSet(cfg, m, last, comb);
        Ok(Plan(last, today, comb, sell, BuyList(cfg, last, today, sell)))
  }

  /** `today`, with the `get_first_n` scan as a loop. */
  method PickToday(cfg: Config, m: Market, scores: Scores, last: seq<string>) returns (today: seq<string>)
    ensures today == Today(cfg, m, scores, last)
  {
    var n := cfg.nDrop + cfg.topk - |last|;
    if cfg.onlyTradable {
      today := GetFirstN(Candidates(scores, last), n, TradableNow(m));
    } else {
      today := Take(Candidates(scores, last), n);
    }
  }

  /** `sell`, with the `get_last_n` scan as a loop. */
  method PickSell(cfg: Config, m: Market, last: seq<string>, comb: seq<string>) returns (sell: seq<string>)
    ensures sell == SellSet(cfg, m, last, comb)
  {
    var bottom;
    if cfg.onlyTradable {
      bottom := GetLastN(comb, cfg.nDrop, TradableNow(m));
    } else {
      bottom := TakeLast(comb, cfg.nDrop);
    }
    sell := Filter(last, InSeq(bottom));
  }

  /** The selection step. */
  method Select(cfg: Config, m: Market, h: Holdings, scores: Scores) returns (plan: Outcome<Plan>)
    requires Deterministic(cfg)
    ensures plan == Selection(cfg, m, h, scores)
  {
    var last := Ranked(h, scores);
    if cfg.methodBuy != "top" {
      return Raised("NotImplementedError: This type of input is not supported");
    }
    var today := PickToday(cfg, m, scores, last);
    var comb := Comb(scores, last, today);
    if cfg.methodSell != "bottom" {
      return Raised("NotImplementedError: This type of input is not supported");
    }
    var sell := PickSell(cfg, m, last, comb);
    plan := Ok(Plan(last, today, comb, sell, BuyList(cfg, last, today, sell)));
  }

  lemma CodesMember(entries: Scores, code: string)
    requires code in Codes(entries)
    ensures exists e :: e in entries && e.0 == code
  {
    var i :| 0 <= i < |Codes(entries)| && Codes(entries)[i] == code;
    assert entries[i] in entries;
  }

  lemma TakeMember<T>(li: seq<T>, n: int, x: T)
    requires x in Take(li, n)
    ensures x in li
  {
    var t := Take(li, n);
    var i :| 0 <= i < |t| && t[i] == x;
    assert li[i] == x;
  }

  /** No candidate is already held. */
  lemma CandidatesUnheld(scores: Scores, last: seq<string>, code: string)
    requires code in Candidates(scores, last)
    ensures code !in last
  {
    var sorted := SortDesc(Filter(scores, NotIn(last)), EntryScore);
    CodesMember(sorted, code);
    var e :| e in sorted && e.0 == code;
    assert e in multiset(sorted);
    assert e in Filter(scores, NotIn(last));
  }

  /**
   * `get_first_n` draws from its list; under `only_tradable` it takes only
   * tradable items and at most `max(n, 1)` of them, otherwise at most `n`
   * when `n` is not negative.
   */
  lemma FirstNSpec(cfg: Config, m: Market, li: seq<string>, n: int)
    ensures forall x :: x in FirstN(cfg, m, li, n) ==> x in li
    ensures cfg.onlyTradable ==>
      |FirstN(cfg, m, li, n)| <= MaxInt(n, 1) && forall x :: x in FirstN(cfg, m, li, n) ==> m.tradable(x, None)
    ensures !cfg.onlyTradable && n >= 0 ==> |FirstN(cfg, m, li, n)| <= n
  {
    if !cfg.onlyTradable {
      forall x | x in FirstN(cfg, m, li, n) ensures x in li {
        TakeMember(li, n, x);
      }
    }
  }

  /**
   * The new candidates are never already held, and the buy list is drawn
   * from them: with `only_tradable` they are tradable and at most
   * `max(n_drop + topk - len(last), 1)`; otherwise at most that count
   * whenever it is not negative.
   */
  lemma TodaySpec(cfg: Config, m: Market, h: Holdings, scores: Scores)
    requires Deterministic(cfg) && Selection(cfg, m, h, scores).Ok?
    ensures var p := Selection(cfg, m, h, scores).value;
      var n := cfg.nDrop + cfg.topk - |h.stocks|;
      (forall code :: code in p.today ==> code !in h.stocks) &&
      (forall code :: code in p.buy ==> code in p.today) &&
      (cfg.onlyTradable ==> |p.today| <= MaxInt(n, 1) && forall code :: code in p.today ==> m.tradable(code, None)) &&
      (!cfg.onlyTradable && n >= 0 ==> |p.today| <= n)
  {
    var last := Ranked(h, scores);
    var today := Today(cfg, m, scores, last);
    var sell := SellSet(cfg, m, last, Comb(scores, last, today));
    assert Selection(cfg, m, h, scores).value == Plan(last, today, Comb(scores, last, today), sell, BuyList(cfg, last, today, sell));
    assert |last| == |h.stocks|;
    FirstNSpec(cfg, m, Candidates(scores, last), cfg.nDrop + cfg.topk - |last|);
    TodayUnheld(cfg, m, h, scores);
    BuyFromToday(cfg, last, today, sell);
  }

  /** The new candidates of `today` are not held. */
  lemma TodayUnheld(cfg: Config, m: Market, h: Holdings, scores: Scores)
    ensures forall code :: code in Today(cfg, m, scores, Ranked(h, scores)) ==> code !in h.stocks
  {
    var last := Ranked(h, scores);
    assert multiset(last) == multiset(h.stocks);
    forall code | code in Today(cfg, m, scores, last) ensures code !in h.stocks {
      FirstNSpec(cfg, m, Candidates(scores, last), cfg.nDrop + cfg.topk - |last|);
      CandidatesUnheld(scores, last, code);
      assert code !in multiset(last);
    }
  }

  /** The buy list is drawn from `today`. */
  lemma BuyFromToday(cfg: Config, last: seq<string>, today: seq<string>, sell: seq<string>)
    ensures forall code :: code in BuyList(cfg, last, today, sell) ==> code in today
  {
    forall code | code in BuyList(cfg, last, today, sell) ensures code in today {
      TakeMember(today, |sell| + cfg.topk - |last|, code);
    }
  }

  /** One comparison behind `BottomIsLowest`. */
  lemma BottomPair(li: seq<string>, n: int, ok: string -> bool, key: string -> Float, x: string, y: string)
    requires SortedDesc(Filter(li, ok), key)
    requires var f := Filter(li, ok);
      x in LastK(f, MaxInt(n, 1)) && y in f && y !in LastK(f, MaxInt(n, 1))
    ensures KeyGe(key(y), key(x))
  {
    var f := Filter(li, ok);
    var k := MinInt(MaxInt(n, 1), |f|);
    var bottom := f[|f| - k..];
    var a :| 0 <= a < |bottom| && bottom[a] == x;
    var b :| 0 <= b < |f| && f[b] == y;
    assert forall j :: |f| - k <= j < |f| ==> f[j] == bottom[j - (|f| - k)];
    assert f[|f| - k + a] == x;
  }

  /**
   * Under `only_tradable`, the bottom of a list sorted best first ranks
   * no tradable entry outside it below an entry inside it.
   */
  lemma BottomIsLowest(li: seq<string>, n: int, ok: string -> bool, key: string -> Float)
    requires SortedDesc(li, key)
    ensures forall x, y :: x in LastTradable(li, n, ok) && y in li && ok(y) && y !in LastTradable(li, n, ok) ==>
      KeyGe(key(y), key(x))
  {
    LastTradableSpec(li, n, ok);
    FilterSorted(li, ok, key);
    forall x, y | x in LastTradable(li, n, ok) && y in li && ok(y) && y !in LastTradable(li, n, ok)
      ensures KeyGe(key(y), key(x))
    {
      FilterMember(li, ok, y);
      BottomPair(li, n, ok, key, x, y);
    }
  }

  /**
   * The "bottom" sell set: held stocks only, and under `only_tradable`
   * no tradable stock of the combined list left out of the bottom ranks
   * below a stock that is sold.
   */
  lemma SellIsBottom(cfg: Config, m: Market, h: Holdings, scores: Scores)
    requires Deterministic(cfg) && Selection(cfg, m, h, scores).Ok?
    ensures var p := Selection(cfg, m, h, scores).value;
      (forall code :: code in p.sell ==> code in h.stocks) &&
      (cfg.onlyTradable ==>
        forall x, y :: x in p.sell && y in p.comb && m.tradable(y, None) && y !in LastN(cfg, m, p.comb, cfg.nDrop) ==>
          KeyGe(ScoreOf(scores, y), ScoreOf(scores, x)))
  {
    var last := Ranked(h, scores);
    var today := Today(cfg, m, scores, last);
    var comb := Comb(scores, last, today);
    var sell := SellSet(cfg, m, last, comb);
    assert Selection(cfg, m, h, scores).value == Plan(last, today, comb, sell, BuyList(cfg, last, today, sell));
    assert multiset(last) == multiset(h.stocks);
    forall code | code in sell ensures code in h.stocks {
      assert code in multiset(last);
    }
    if cfg.onlyTradable {
      SortDescSorted(last + today, ScoreIn(scores));
      BottomIsLowest(comb, cfg.nDrop, TradableNow(m), ScoreIn(scores));
      var bottom := LastN(cfg, m, comb, cfg.nDrop);
      forall x, y | x in sell && y in comb && m.tradable(y, None) && y !in bottom
        ensures KeyGe(ScoreOf(scores, y), ScoreOf(scores, x))
      {
        var i :| 0 <= i < |sell| && sell[i] == x;
        assert InSeq(bottom)(x);
        assert TradableNow(m)(y);
        assert KeyGe(ScoreIn(scores)(y), ScoreIn(scores)(x));
      }
    }
  }

  // ---------------------------------------------------------------------
  // The sell pass
  // ---------------------------------------------------------------------

  function SellDir(cfg: Config): Option<OrderDir> {
    if cfg.forbidAllTradeAtLimit then None else Some(Sell)
  }

  function BuyDir(cfg: Config): Option<OrderDir> {
    if cfg.forbidAllTradeAtLimit then None else Some(Buy)
  }

  /** A held stock may be sold: tradable for selling, in the sell set, and held long enough. */
  predicate SellEligible(m: Market, cfg: Config, h: Holdings, sell: seq<string>, code: string) {
    m.tradable(code, SellDir(cfg)) && code in sell && h.count(code) >= cfg.holdThresh
  }

  /** The full-amount sell order of a stock, when it is eligible and passes the exchange's check. */
  function SellOrderFor(m: Market, cfg: Config, h: Holdings, sell: seq<string>, code: string): Option<Order> {
    var o := Order(code, h.amount(code), Sell);
    if SellEligible(m, cfg, h, sell, code) && m.checkOrder(o) then Some(o) else None
  }

  /** Cash freed by dealing an order: trade value less trade cost. */
  function Proceeds(m: Market, o: Order): real {
    m.deal(o).0 - m.deal(o).1
  }

  /** The sell loop over `codes` from starting `cash`: the orders emitted and the cash after them. */
  function SellPass(m: Market, cfg: Config, h: Holdings, sell: seq<string>, codes: seq<string>, cash: real): (seq<Order>, real) {
    if codes == [] then ([], cash)
    else
      var before := SellPass(m, cfg, h, sell, codes[..|codes| - 1], cash);
      var o := SellOrderFor(m, cfg, h, sell, codes[|codes| - 1]);
      if o.Some? then (before.0 + [o.value], before.1 + Proceeds(m, o.value)) else before
  }

  /** The sell loop of the decision. */
  method SellLoop(m: Market, cfg: Config, h: Holdings, sell: seq<string>) returns (orders: seq<Order>, cash: real)
    ensures (orders, cash) == SellPass(m, cfg, h, sell, h.stocks, h.cash)
  {
    orders := [];
    cash := h.cash;
    var i := 0;
    while i < |h.stocks|
      invariant 0 <= i <= |h.stocks|
      invariant (orders, cash) == SellPass(m, cfg, h, sell, h.stocks[..i], h.cash)
    {
      var code := h.stocks[i];
      assert h.stocks[..i + 1][..i] == h.stocks[..i];
      if m.tradable(code, SellDir(cfg)) && code in sell && h.count(code) >= cfg.holdThresh {
        var order := Order(code, h.amount(code), Sell);
        if m.checkOrder(order) {
          orders := orders + [order];
          var (value, cost) := m.deal(order);
          cash := cash + (value - cost);
        }
      }
      i := i + 1;
    }
    assert h.stocks[..i] == h.stocks;
  }

  /**
   * Every sell order is for the full amount of a held stock that is
   * tradable, in the sell set, held at least `hold_thresh` and accepted by
   * the check; every such stock gets one.
   */
  lemma {:induction false} SellPassSpec(m: Market, cfg: Config, h: Holdings, sell: seq<string>, codes: seq<string>, cash: real)
    ensures var orders := SellPass(m, cfg, h, sell, codes, cash).0;
      |orders| <= |codes| &&
      (forall i :: 0 <= i < |orders| ==>
        orders[i] == Order(orders[i].stock, h.amount(orders[i].stock), Sell) &&
        orders[i].stock in codes && SellEligible(m, cfg, h, sell, orders[i].stock) && m.checkOrder(orders[i])) &&
      (forall code :: code in codes && SellOrderFor(m, cfg, h, sell, code).Some? ==>
        SellOrderFor(m, cfg, h, sell, code).value in orders)
  {
    if codes != [] {
      var init := codes[..|codes| - 1];
      SellPassSpec(m, cfg, h, sell, init, cash);
      assert codes == init + [codes[|codes| - 1]];
    }
  }

  // ---------------------------------------------------------------------
  // Round 1: affordability; Round 2: the budget re-split
  // ---------------------------------------------------------------------

  /** The buy price is available and usable. */
  predicate PricedNow(m: Market, code: string) {
    m.dealPrice(code).Ok? && IsValidPrice(m.dealPrice(code).value)
  }

  /** Shares the budget buys, rounded to the trade unit and scaled by the factor when it is known. */
  function RawShares(m: Market, code: string, budget: real): real
    requires PricedNow(m, code)
  {
    var f := m.factor(code);
    var rounded := m.roundToUnit(budget / m.dealPrice(code).value.value, f);
    if f.Some? then rounded * f.value else rounded
  }

  /** Round 1's test: tradable for buying, priced, and the per-stock budget buys at least the minimum. */
  predicate Affordable(m: Market, cfg: Config, budget: real, code: string) {
    m.tradable(code, BuyDir(cfg)) && PricedNow(m, code) &&
    RawShares(m, code, budget) >= cfg.minAffordableShares as real
  }

  function AffordableTest(m: Market, cfg: Config, budget: real): string -> bool {
    code => Affordable(m, cfg, budget, code)
  }

  /** The Round-1 test of one candidate, in the order the source checks it. */
  method CheckAffordable(m: Market, cfg: Config, budget: real, code: string) returns (keep: bool)
    ensures keep == Affordable(m, cfg, budget, code)
  {
    keep := false;
    if !m.tradable(code, BuyDir(cfg)) {
      return;
    }
    var price := m.dealPrice(code);
    if price.Raised? || price.value.None? || price.value.value <= 0.0 {
      return;
    }
    var potential := budget / price.value.value;
    var factor := m.factor(code);
    var rounded := m.roundToUnit(potential, factor);
    var raw := rounded;
    if factor.Some? {
      raw := rounded * factor.value;
    }
    keep := raw >= cfg.minAffordableShares as real;
  }

  /** One step of a loop that filters `xs` into `acc`. */
  lemma FilterStep<T>(acc: seq<T>, xs: seq<T>, i: int, p: T -> bool)
    requires 0 <= i < |xs|
    ensures p(xs[i]) ==> acc + Filter(xs[i..], p) == (acc + [xs[i]]) + Filter(xs[i + 1..], p)
    ensures !p(xs[i]) ==> acc + Filter(xs[i..], p) == acc + Filter(xs[i + 1..], p)
  {
    assert xs[i..][0] == xs[i];
    assert xs[i..][1..] == xs[i + 1..];
  }

  /** The Round-1 loop. */
  method FilterAffordable(m: Market, cfg: Config, buy: seq<string>, budget: real) returns (affordable: seq<string>)
    ensures affordable == Filter(buy, AffordableTest(m, cfg, budget))
  {
    ghost var p := AffordableTest(m, cfg, budget);
    affordable := [];
    var i := 0;
    while i < |buy|
      invariant 0 <= i <= |buy|
      invariant affordable + Filter(buy[i..], p) == Filter(buy, p)
    {
      var keep := CheckAffordable(m, cfg, budget, buy[i]);
      FilterStep(affordable, buy, i, p);
      if keep {
        affordable := affordable + [buy[i]];
      }
      i := i + 1;
    }
  }

  /** The Round-2 orders: each tradable survivor bought for the re-split budget, rounded to the trade unit. */
  function BuyOrders(m: Market, cfg: Config, budget: real, codes: seq<string>): (r: seq<Order>)
    requires forall code :: code in codes ==> PricedNow(m, code)
  {
    if codes == [] then []
    else
      assert codes[0] in codes;
      assert PricedNow(m, codes[0]);
      assert m.dealPrice(codes[0]).Ok?;
      var rest := BuyOrders(m, cfg, budget, codes[1..]);
      if m.tradable(codes[0], BuyDir(cfg)) then
        [Order(codes[0], m.roundToUnit(budget / m.dealPrice(codes[0]).value.value, m.factor(codes[0])), Buy)] + rest
      else rest
  }

  /** The Round-2 loop. */
  method PlaceBuys(m: Market, cfg: Config, budget: real, codes: seq<string>) returns (orders: seq<Order>)
    requires forall code :: code in codes ==> PricedNow(m, code)
    ensures orders == BuyOrders(m, cfg, budget, codes)
  {
    orders := [];
    var i := 0;
    while i < |codes|
      invariant 0 <= i <= |codes|
      invariant orders + BuyOrders(m, cfg, budget, codes[i..]) == BuyOrders(m, cfg, budget, codes)
    {
      var code := codes[i];
      assert codes[i..] == [code] + codes[i + 1..];
      assert code in codes;
      if m.tradable(code, BuyDir(cfg)) {
        var price := m.dealPrice(code).value.value;
        var amount := m.roundToUnit(budget / price, m.factor(code));
        orders := orders + [Order(code, amount, Buy)];
      }
      i := i + 1;
    }
  }

  /** The stocks of a list of orders, in order. */
  function OrderStocks(orders: seq<Order>): seq<string> {
    seq(|orders|, i requires 0 <= i < |orders| => orders[i].stock)
  }

  /** The Round-2 test: the stock can be bought in this window. */
  function BuyableTest(m: Market, cfg: Config): string -> bool {
    code => m.tradable(code, BuyDir(cfg))
  }

  /**
   * Every Round-2 order buys a survivor at the re-split budget, and the
   * orders are for exactly the survivors tradable for buying, in list
   * order, one each.
   */
  lemma {:induction false} BuyOrdersSpec(m: Market, cfg: Config, budget: real, codes: seq<string>)
    requires forall code :: code in codes ==> PricedNow(m, code)
    ensures var orders := BuyOrders(m, cfg, budget, codes);
      |orders| <= |codes| &&
      forall i :: 0 <= i < |orders| ==>
        orders[i].direction == Buy && orders[i].stock in codes &&
        orders[i].amount == m.roundToUnit(budget / m.dealPrice(orders[i].stock).value.value, m.factor(orders[i].stock))
    ensures OrderStocks(BuyOrders(m, cfg, budget, codes)) == Filter(codes, BuyableTest(m, cfg))
  {
    if codes != [] {
      BuyOrdersSpec(m, cfg, budget, codes[1..]);
      var rest := BuyOrders(m, cfg, budget, codes[1..]);
      var orders := BuyOrders(m, cfg, budget, codes);
      if m.tradable(codes[0], BuyDir(cfg)) {
        assert orders == [orders[0]] + rest;
        assert OrderStocks(orders) == [codes[0]] + OrderStocks(rest);
      }
    }
  }

  /** When every code can be bought, Round 2 orders each of them once, in list order. */
  lemma SurvivorsAllBought(m: Market, cfg: Config, budget: real, codes: seq<string>)
    requires forall code :: code in codes ==> PricedNow(m, code) && m.tradable(code, BuyDir(cfg))
    ensures OrderStocks(BuyOrders(m, cfg, budget, codes)) == codes
  {
    BuyOrdersSpec(m, cfg, budget, codes);
    FilterAll(codes, BuyableTest(m, cfg));
  }

  /** `cash * risk_degree / n`: the equal split of the investable cash over `n` stocks. */
  function PerStock(cash: real, risk: real, n: nat): real
    requires n > 0
  {
    cash * risk / n as real
  }

  /** Fewer stocks never get a smaller share of a non-negative budget. */
  lemma PerStockAntitone(total: real, a: nat, b: nat)
    requires 0 < a <= b && total >= 0.0
    ensures total / a as real >= total / b as real
  {
    var x := a as real;
    var y := b as real;
    assert total / x - total / y == total * (y - x) / (x * y);
    assert total * (y - x) >= 0.0;
  }

  /** Round 2's per-stock budget is at least Round 1's when the investable cash is not negative. */
  lemma Round2BudgetNotSmaller(cash: real, risk: real, buy: seq<string>, p: string -> bool)
    requires Filter(buy, p) != [] && cash * risk >= 0.0
    ensures PerStock(cash, risk, |Filter(buy, p)|) >= PerStock(cash, risk, |buy|)
  {
    PerStockAntitone(cash * risk, |Filter(buy, p)|, |buy|);
  }

  // ---------------------------------------------------------------------
  // The decision
  // ---------------------------------------------------------------------

  /** Sells and buys once the plan is fixed. */
  function Allocate(cfg: Config, m: Market, h: Holdings, plan: Plan): seq<Order> {
    var pass := SellPass(m, cfg, h, plan.sell, h.stocks, h.cash);
    var sells := pass.0;
    var cash := pass.1;
    if plan.buy == [] then sells
    else
      var affordable := Filter(plan.buy, AffordableTest(m, cfg, PerStock(cash, cfg.riskDegree, |plan.buy|)));
      if affordable == [] then sells
      else sells + BuyOrders(m, cfg, PerStock(cash, cfg.riskDegree, |affordable|), affordable)
  }

  /**
   * The decision: the parent's when the filter is off, empty with no
   * signal, otherwise the plan's sells followed by the Round-2 buys.
   */
  function TradeDecision(cfg: Config, m: Market, h: Holdings, signal: Option<Scores>,
                         parent: Outcome<seq<Order>>): Outcome<seq<Order>>
    requires Deterministic(cfg)
  {
    if !cfg.enableAffordabilityFilter then parent
    else if signal.None? then Ok([])
    else
      var plan := Selection(cfg, m, h, signal.value);
      if plan.Raised? then Raised(plan.error) else Ok(Allocate(cfg, m, h, plan.value))
  }

  /** The sell pass and the two buy rounds, for a fixed plan. */
  method AllocateOrders(cfg: Config, m: Market, h: Holdings, plan: Plan) returns (orders: seq<Order>)
    ensures orders == Allocate(cfg, m, h, plan)
  {
    var buy := plan.buy;
    var sells, cash := SellLoop(m, cfg, h, plan.sell);
    if |buy| == 0 {
      return sells;
    }
    var initialBudget := PerStock(cash, cfg.riskDegree, |buy|);
    var affordable := FilterAffordable(m, cfg, buy, initialBudget);
    if |affordable| == 0 {
      return sells;
    }
    var finalBudget := PerStock(cash, cfg.riskDegree, |affordable|);
    forall code | code in affordable ensures PricedNow(m, code) {
      var i :| 0 <= i < |affordable| && affordable[i] == code;
      assert AffordableTest(m, cfg, initialBudget)(code);
    }
    var buys := PlaceBuys(m, cfg, finalBudget, affordable);
    orders := sells + buys;
  }

  /** `generate_trade_decision`. */
  method GenerateTradeDecision(cfg: Config, m: Market, h: Holdings, signal: Option<Scores>,
                               parent: Outcome<seq<Order>>) returns (r: Outcome<seq<Order>>)
    requires Deterministic(cfg)
    ensures r == TradeDecision(cfg, m, h, signal, parent)
  {
    if !cfg.enableAffordabilityFilter {
      return parent;
    }
    if signal.None? {
      return Ok([]);
    }
    var plan := Select(cfg, m, h, signal.value);
    if plan.Raised? {
      return Raised(plan.error);
    }
    var orders := AllocateOrders(cfg, m, h, plan.value);
    r := Ok(orders);
  }

  /**
   * What a decision holds: first the sells of the sell pass, then only
   * buys, each for a candidate of the buy list that passed Round 1 at the
   * equal split and sized at the Round-2 split, one for each such
   * survivor in buy-list order; with no buy candidate or no survivor,
   * only the sells.
   */
  lemma AllocateSpec(cfg: Config, m: Market, h: Holdings, plan: Plan)
    ensures var (sells, cash) := SellPass(m, cfg, h, plan.sell, h.stocks, h.cash);
      var r := Allocate(cfg, m, h, plan);
      |sells| <= |r| && r[..|sells|] == sells &&
      (forall i :: 0 <= i < |sells| ==> r[i].direction == Sell) &&
      (forall i :: |sells| <= i < |r| ==>
        r[i].direction == Buy && r[i].stock in plan.buy &&
        Affordable(m, cfg, PerStock(cash, cfg.riskDegree, |plan.buy|), r[i].stock)) &&
      (plan.buy == [] || Filter(plan.buy, AffordableTest(m, cfg, PerStock(cash, cfg.riskDegree, |plan.buy|))) == [] ==> r == sells) &&
      (plan.buy != [] ==> OrderStocks(r[|sells|..]) == Filter(plan.buy, AffordableTest(m, cfg, PerStock(cash, cfg.riskDegree, |plan.buy|))))
  {
    var (sells, cash) := SellPass(m, cfg, h, plan.sell, h.stocks, h.cash);
    var r := Allocate(cfg, m, h, plan);
    SellPassSpec(m, cfg, h, plan.sell, h.stocks, h.cash);
    AllocateBuysAffordable(cfg, m, h, plan);
    AllocateBuysSurvivors(cfg, m, h, plan);
    forall i | 0 <= i < |sells| ensures r[i].direction == Sell {
      assert r[i] == r[..|sells|][i];
    }
  }

  /** After the sells, a decision holds only buys of buy-list stocks that passed Round 1. */
  lemma AllocateBuysAffordable(cfg: Config, m: Market, h: Holdings, plan: Plan)
    ensures var (sells, cash) := SellPass(m, cfg, h, plan.sell, h.stocks, h.cash);
      var r := Allocate(cfg, m, h, plan);
      |sells| <= |r| && r[..|sells|] == sells &&
      (forall i :: |sells| <= i < |r| ==>
        r[i].direction == Buy && r[i].stock in plan.buy &&
        Affordable(m, cfg, PerStock(cash, cfg.riskDegree, |plan.buy|), r[i].stock)) &&
      (plan.buy == [] || Filter(plan.buy, AffordableTest(m, cfg, PerStock(cash, cfg.riskDegree, |plan.buy|))) == [] ==> r == sells)
  {
    var (sells, cash) := SellPass(m, cfg, h, plan.sell, h.stocks, h.cash);
    if plan.buy != [] {
      var p := AffordableTest(m, cfg, PerStock(cash, cfg.riskDegree, |plan.buy|));
      var affordable := Filter(plan.buy, p);
      if affordable != [] {
        var budget := PerStock(cash, cfg.riskDegree, |affordable|);
        BuyOrdersSpec(m, cfg, budget, affordable);
        var buys := BuyOrders(m, cfg, budget, affordable);
        var r := sells + buys;
        assert r[..|sells|] == sells;
        forall i | |sells| <= i < |r|
          ensures r[i].direction == Buy && r[i].stock in plan.buy && p(r[i].stock)
        {
          assert r[i] == buys[i - |sells|];
          var j :| 0 <= j < |affordable| && affordable[j] == r[i].stock;
        }
      }
    }
  }


  /** The buys of a decision are for exactly the Round-1 survivors, in list order, one each. */
  lemma AllocateBuysSurvivors(cfg: Config, m: Market, h: Holdings, plan: Plan)
    ensures var (sells, cash) := SellPass(m, cfg, h, plan.sell, h.stocks, h.cash);
      var r := Allocate(cfg, m, h, plan);
      |sells| <= |r| &&
      (plan.buy != [] ==> OrderStocks(r[|sells|..]) == Filter(plan.buy, AffordableTest(m, cfg, PerStock(cash, cfg.riskDegree, |plan.buy|))))
  {
    var (sells, cash) := SellPass(m, cfg, h, plan.sell, h.stocks, h.cash);
    if plan.buy != [] {
      var p := AffordableTest(m, cfg, PerStock(cash, cfg.riskDegree, |plan.buy|));
      var affordable := Filter(plan.buy, p);
      if affordable != [] {
        var budget := PerStock(cash, cfg.riskDegree, |affordable|);
        forall c | c in affordable ensures PricedNow(m, c) && m.tradable(c, BuyDir(cfg)) {
          FilterPasses(plan.buy, p, c);
        }
        SurvivorsAllBought(m, cfg, budget, affordable);
        var r := sells + BuyOrders(m, cfg, budget, affordable);
        assert r[|sells|..] == BuyOrders(m, cfg, budget, affordable);
      }
    }
  }

  /** With the filter off the parent decides; with no signal the decision is empty. */
  lemma DecisionShortcuts(cfg: Config, m: Market, h: Holdings, signal: Option<Scores>, parent: Outcome<seq<Order>>)
    requires Deterministic(cfg)
    ensures !cfg.enableAffordabilityFilter ==> TradeDecision(cfg, m, h, signal, parent) == parent
    ensures cfg.enableAffordabilityFilter && signal.None? ==> TradeDecision(cfg, m, h, signal, parent) == Ok([])
    ensures cfg.enableAffordabilityFilter && signal.Some? && cfg.methodBuy != "top" ==>
      TradeDecision(cfg, m, h, signal, parent).Raised?
  {
  }
}
