/**
 * `_select_buyable_topk`: the price cap, the greedy pass that keeps a
 * candidate only while every chosen stock still affords one lot under the
 * recomputed weights, the dropout keep/replace rule and the final
 * re-weighting; and `_get_topk_candidates_for_quotes`, the unfiltered
 * top-k the live run asks quotes for.
 */
module Selection {
  import opened Common
  import opened Sorting
  import opened Weights

  /** One row of the prediction frame after market data is attached. */
  datatype PredRow = PredRow(instrument: string, score: real, price: Float, tradable: bool, weight: Float)

  /** The inputs `_select_buyable_topk` reads from the prediction and trading configuration. */
  datatype SelectConfig = SelectConfig(
    topK: int,
    maxStockPrice: Option<real>,
    totalCash: real,
    riskDegree: real,
    minShares: int,
    dropoutRate: real,
    holdings: set<string>,
    weightScheme: Option<string>)

  function ScoreKey(r: PredRow): Float {
    Some(r.score)
  }

  /** The `score` column. */
  function Scores(rows: seq<PredRow>): (r: seq<real>)
    ensures |r| == |rows|
    ensures forall i :: 0 <= i < |rows| ==> r[i] == rows[i].score
  {
    if rows == [] then [] else [rows[0].score] + Scores(rows[1..])
  }

  /** The rows with their `target_weight` column set to `w`. */
  function WithWeights(rows: seq<PredRow>, w: seq<real>): (r: seq<PredRow>)
    requires |w| == |rows|
    ensures |r| == |rows|
    ensures forall i :: 0 <= i < |rows| ==> r[i] == rows[i].(weight := Some(w[i]))
  {
    seq(|rows|, i requires 0 <= i < |rows| => rows[i].(weight := Some(w[i])))
  }

  /** `df["target_weight"] = _compute_weights(df["score"], method)`. */
  function Reweighted(rows: seq<PredRow>, scheme: Option<string>): seq<PredRow> {
    WithWeights(rows, ComputeWeights(Scores(rows), scheme))
  }

  /** Every instrument occurs in at most one row, and no row is repeated. */
  predicate UniqueRows(rows: seq<PredRow>) {
    (forall x :: x in rows ==> multiset(rows)[x] == 1) &&
    (forall x, y :: x in rows && y in rows && x.instrument == y.instrument ==> x == y)
  }

  lemma UniqueRowsSub(a: seq<PredRow>, b: seq<PredRow>)
    requires multiset(a) <= multiset(b) && UniqueRows(b)
    ensures UniqueRows(a)
  {
    forall x, y | x in a && y in a && x.instrument == y.instrument ensures x == y {
      assert x in multiset(a) && y in multiset(a);
      assert x in multiset(b) && y in multiset(b);
    }
  }

  /** The price-cap step: a known price, and at most the cap when a positive cap is set. */
  predicate PassesPriceCap(r: PredRow, cap: Option<real>) {
    if cap.Some? && cap.value > 0.0 then r.price.Some? && r.price.value <= cap.value
    else r.price.Some?
  }

  /** `max(total_cash, 0) * max(risk_degree, 0)`. */
  function AvailableCash(cfg: SelectConfig): real {
    MaxReal(cfg.totalCash, 0.0) * MaxReal(cfg.riskDegree, 0.0)
  }

  /** `max(int(min_shares or 1), 1)`. */
  function MinLot(cfg: SelectConfig): int {
    LotSize(cfg.minShares)
  }

  /** `price * min_lot`: the cost of one lot. */
  function LotCost(price: real, lot: int): real {
    price * lot as real
  }

  /** `math.floor(budget / lot_cost) * min_lot`: the shares the budget buys in whole lots. */
  function LotShares(budget: real, cost: real, lot: int): int
    requires cost > 0.0
  {
    (budget / cost).Floor * lot
  }

  /**
   * The per-stock test of the greedy pass: a valid price, a positive lot
   * cost, and at least one lot bought with the stock's weight of the cash.
   */
  predicate Affordable(w: real, cash: real, price: Float, lot: int) {
    IsValidPrice(price) && LotCost(price.value, lot) > 0.0 &&
    LotShares(w * cash, LotCost(price.value, lot), lot) >= lot
  }

  /** The lot test says exactly that the stock's share of the cash pays for one lot. */
  lemma AffordableIsOneLot(w: real, cash: real, price: Float, lot: int)
    requires IsValidPrice(price) && lot >= 1
    ensures Affordable(w, cash, price, lot) <==> w * cash >= price.value * lot as real
  {
    var cost := LotCost(price.value, lot);
    PositiveCost(price.value, lot);
    var q := (w * cash) / cost;
    DivAtLeastOne(w * cash, cost);
    if q >= 1.0 {
      MulAtLeast(q.Floor, lot);
    } else {
      MulAtMostZero(q.Floor, lot);
    }
  }

  lemma PositiveCost(p: real, lot: int)
    requires p > 0.0 && lot >= 1
    ensures LotCost(p, lot) > 0.0
  {
  }

  lemma DivAtLeastOne(a: real, c: real)
    requires c > 0.0
    ensures a / c >= 1.0 <==> a >= c
  {
    assert (a / c) * c == a;
    if a / c >= 1.0 {
      MulMonotone(1.0, a / c, c);
    } else {
      MulStrict(a / c, 1.0, c);
    }
  }

  lemma MulAtLeast(f: int, lot: int)
    requires f >= 1 && lot >= 1
    ensures f * lot >= lot
  {
    assert f * lot == (f - 1) * lot + lot;
  }

  lemma MulAtMostZero(f: int, lot: int)
    requires f <= 0 && lot >= 1
    ensures f * lot < lot
  {
    assert f * lot == -((-f) * lot);
  }

  /** Every row affords one lot under the weight at the same position. */
  predicate AllAffordable(rows: seq<PredRow>, w: seq<real>, cash: real, lot: int) {
    |w| == |rows| &&
    forall i :: 0 <= i < |rows| ==> Affordable(w[i], cash, rows[i].price, lot)
  }

  /** Every row affords one lot under the weights computed for exactly these rows. */
  predicate AffordableSet(rows: seq<PredRow>, cash: real, lot: int, scheme: Option<string>) {
    AllAffordable(rows, ComputeWeights(Scores(rows), scheme), cash, lot)
  }

  /** The inner loop of the greedy pass: stops at the first stock that cannot afford a lot. */
  method CheckAffordable(tentative: seq<PredRow>, w: seq<real>, cash: real, lot: int) returns (ok: bool)
    requires |w| == |tentative|
    ensures ok == AllAffordable(tentative, w, cash, lot)
  {
    var idx := 0;
    while idx < |tentative|
      invariant 0 <= idx <= |tentative|
      invariant forall j :: 0 <= j < idx ==> Affordable(w[j], cash, tentative[j].price, lot)
    {
      var price := tentative[idx].price;
      if !(price.Some? && price.value > 0.0) {
        return false;
      }
      var lotCost := LotCost(price.value, lot);
      if lotCost <= 0.0 {
        return false;
      }
      var budget := w[idx] * cash;
      var maxShares := LotShares(budget, lotCost, lot);
      if maxShares < lot {
        return false;
      }
      assert Affordable(w[idx], cash, tentative[idx].price, lot);
      idx := idx + 1;
    }
    return true;
  }

  /** A candidate the greedy pass considers: tradable and validly priced. */
  predicate Eligible(rec: PredRow) {
    rec.tradable && IsValidPrice(rec.price)
  }

  /** The test the greedy pass applies to a tentative pick list. */
  function Fits(cash: real, lot: int, scheme: Option<string>): seq<PredRow> -> bool {
    rows => AffordableSet(rows, cash, lot, scheme)
  }

  /**
   * The picks of the greedy pass over `cands`: a candidate is taken while
   * fewer than `topK` are chosen, when it is eligible and the picks with
   * it pass `fits`. Once `topK` are chosen nothing more is taken, which is
   * where the pass stops.
   */
  function Greedy(cands: seq<PredRow>, topK: int, fits: seq<PredRow> -> bool): seq<PredRow>
    decreases |cands|
  {
    if cands == [] then []
    else
      var prev := Greedy(cands[..|cands| - 1], topK, fits);
      var rec := cands[|cands| - 1];
      if |prev| < topK && Eligible(rec) && fits(prev + [rec]) then prev + [rec] else prev
  }

  /** Once `topK` rows are chosen, later candidates change nothing. */
  lemma {:induction false} GreedyFull(cands: seq<PredRow>, i: int, topK: int, fits: seq<PredRow> -> bool)
    requires 0 <= i <= |cands|
    requires |Greedy(cands[..i], topK, fits)| >= topK
    ensures Greedy(cands, topK, fits) == Greedy(cands[..i], topK, fits)
    decreases |cands| - i
  {
    if i < |cands| {
      assert cands[..i + 1][..i] == cands[..i];
      assert Greedy(cands[..i + 1], topK, fits) == Greedy(cands[..i], topK, fits);
      GreedyFull(cands, i + 1, topK, fits);
    } else {
      assert cands[..i] == cands;
    }
  }

  /**
   * The greedy picks: at most `topK`, taken from the candidates, eligible,
   * and passing `fits` unless there are none.
   */
  lemma {:induction false} GreedyPicks(cands: seq<PredRow>, topK: int, fits: seq<PredRow> -> bool)
    ensures |Greedy(cands, topK, fits)| <= MaxInt(topK, 0)
    ensures multiset(Greedy(cands, topK, fits)) <= multiset(cands)
    ensures forall x :: x in Greedy(cands, topK, fits) ==> Eligible(x)
    ensures Greedy(cands, topK, fits) != [] ==> fits(Greedy(cands, topK, fits))
    decreases |cands|
  {
    if cands != [] {
      var init := cands[..|cands| - 1];
      var rec := cands[|cands| - 1];
      GreedyPicks(init, topK, fits);
      assert multiset(cands) == multiset(init) + multiset{rec} by {
        assert cands == init + [rec];
      }
    }
  }

  /** The greedy picks keep candidate order, so they are sorted by score when the candidates are. */
  lemma {:induction false} GreedySorted(cands: seq<PredRow>, topK: int, fits: seq<PredRow> -> bool)
    requires SortedDesc(cands, ScoreKey)
    ensures SortedDesc(Greedy(cands, topK, fits), ScoreKey)
    decreases |cands|
  {
    if cands != [] {
      var init := cands[..|cands| - 1];
      var rec := cands[|cands| - 1];
      var prev := Greedy(init, topK, fits);
      assert SortedDesc(init, ScoreKey);
      GreedySorted(init, topK, fits);
      if |prev| < topK && Eligible(rec) && fits(prev + [rec]) {
        var t := prev + [rec];
        assert forall x :: x in prev ==> KeyGe(ScoreKey(x), ScoreKey(rec)) by {
          GreedyPicks(init, topK, fits);
          forall x | x in prev ensures KeyGe(ScoreKey(x), ScoreKey(rec)) {
            assert x in multiset(init);
            var j :| 0 <= j < |init| && init[j] == x;
            assert cands[j] == x;
          }
        }
        forall k, j | 0 <= k < j < |t| ensures KeyGe(ScoreKey(t[k]), ScoreKey(t[j])) {
          assert t[k] == prev[k];
          if j < |prev| {
            assert t[j] == prev[j];
          } else {
            assert prev[k] in prev;
          }
        }
      }
    }
  }

  /**
   * The greedy pass over the score-sorted candidates: stop at `topK`
   * stocks, skip untradable or unpriced ones, and take a candidate only if
   * with it every chosen stock still affords one lot.
   */
  method GreedyBuyable(candidates: seq<PredRow>, topK: int, cash: real, lot: int, scheme: Option<string>)
    returns (selected: seq<PredRow>)
    ensures selected == Greedy(candidates, topK, Fits(cash, lot, scheme))
  {
    selected := [];
    var i := 0;
    while i < |candidates|
      invariant 0 <= i <= |candidates|
      invariant selected == Greedy(candidates[..i], topK, Fits(cash, lot, scheme))
    {
      if |selected| >= topK {
        GreedyFull(candidates, i, topK, Fits(cash, lot, scheme));
        return;
      }
      selected := GreedyStep(candidates, i, selected, topK, cash, lot, scheme);
      i := i + 1;
    }
    assert candidates[..i] == candidates;
  }

  /** One candidate of the greedy pass. */
  method GreedyStep(candidates: seq<PredRow>, i: int, selected: seq<PredRow>, topK: int, cash: real, lot: int, scheme: Option<string>)
    returns (next: seq<PredRow>)
    requires 0 <= i < |candidates| && selected == Greedy(candidates[..i], topK, Fits(cash, lot, scheme))
    requires |selected| < topK
    ensures next == Greedy(candidates[..i + 1], topK, Fits(cash, lot, scheme))
  {
    var rec := candidates[i];
    ghost var fits := Fits(cash, lot, scheme);
    ghost var upto := candidates[..i + 1];
    assert upto[..|upto| - 1] == candidates[..i] && upto[|upto| - 1] == rec;
    if rec.tradable && rec.price.Some? && rec.price.value > 0.0 {
      var tentative := selected + [rec];
      var w := ComputeWeights(Scores(tentative), scheme);
      var ok := CheckAffordable(tentative, w, cash, lot);
      assert fits(tentative) == ok;
      if ok {
        return tentative;
      }
    }
    return selected;
  }

  /** `min(max(rate, 0), 1)`. */
  function ClampRate(rate: real): (r: real)
    ensures 0.0 <= r <= 1.0
    ensures 0.0 <= rate <= 1.0 ==> r == rate
  {
    MinReal(MaxReal(rate, 0.0), 1.0)
  }

  /** `min(top_k, n)` for a positive `top_k`, `n` otherwise. */
  function MaxPositions(topK: int, n: nat): (r: nat)
    ensures r <= n
    ensures topK > 0 ==> r <= topK
  {
    if topK > 0 then MinInt(topK, n) else n
  }

  /**
   * `max(max_positions - min(round(max_positions * rate), max_positions), 0)`:
   * the slots left once the capped drop count is taken out. For a rate in
   * [0, 1] that is the nearest whole number to `max_positions * (1 - rate)`.
   */
  function KeepSlots(maxPos: nat, rate: real): (r: nat)
    requires 0.0 <= rate
    ensures r <= maxPos
    ensures r + MinInt(RoundHalfEven(maxPos as real * rate), maxPos) == maxPos
    ensures rate >= 1.0 ==> r == 0
    ensures rate == 0.0 ==> r == maxPos
    ensures rate <= 1.0 ==> maxPos as real * (1.0 - rate) - 0.5 <= r as real <= maxPos as real * (1.0 - rate) + 0.5
  {
    var x := maxPos as real * rate;
    var q := RoundHalfEven(x);
    RoundedDrop(maxPos, rate, x, q);
    var drop := MinInt(q, maxPos);
    MaxInt(maxPos - drop, 0)
  }

  /** The rounded drop count against the position count, on either side of a rate of 1. */
  lemma RoundedDrop(maxPos: nat, rate: real, x: real, q: int)
    requires 0.0 <= rate && x == maxPos as real * rate
    requires x - 0.5 <= q as real <= x + 0.5
    ensures rate >= 1.0 ==> q >= maxPos
    ensures rate <= 1.0 ==> 0 <= q <= maxPos
    ensures rate <= 1.0 ==> maxPos as real * (1.0 - rate) - 0.5 <= (maxPos - q) as real <= maxPos as real * (1.0 - rate) + 0.5
  {
    var m := maxPos as real;
    assert m * (1.0 - rate) == m - x;
    if rate >= 1.0 {
      assert x >= m by { MulLe(m, 1.0, rate); }
    } else {
      assert x <= m by { MulLe(m, rate, 1.0); }
    }
  }

  /** Multiplying a non-negative factor keeps the order. */
  lemma MulLe(m: real, a: real, b: real)
    requires 0.0 <= m && a <= b
    ensures m * a <= m * b
  {
  }

  /** Whether a row's instrument is in `codes`. */
  function InCodes(codes: set<string>): PredRow -> bool {
    (r: PredRow) => r.instrument in codes
  }

  /** Whether a row's instrument is not in `codes`. */
  function NotInCodes(codes: set<string>): PredRow -> bool {
    (r: PredRow) => r.instrument !in codes
  }

  /** The rows of held instruments, best score first. */
  function HeldRows(filtered: seq<PredRow>, held: set<string>): seq<PredRow> {
    SortDesc(Filter(filtered, InCodes(held)), ScoreKey)
  }

  /** `existing.head(keep_slots)`. */
  function KeptExisting(filtered: seq<PredRow>, held: set<string>, keep: int): seq<PredRow> {
    Head(HeldRows(filtered, held), keep)
  }

  function Instruments(rows: seq<PredRow>): set<string> {
    set r | r in rows :: r.instrument
  }

  /** The dropout branch runs: positions to fill, a positive rate and a non-empty holding. */
  predicate DropoutActive(filtered: seq<PredRow>, topK: int, rate: real, held: set<string>) {
    MaxPositions(topK, |filtered|) > 0 && ClampRate(rate) > 0.0 && held != {}
  }

  /**
   * The dropout branch proper: the kept holdings, then as many of the rows
   * whose instrument was not kept as fit into `maxPos`, sorted by score.
   */
  function KeepAndFill(filtered: seq<PredRow>, held: set<string>, maxPos: nat, keep: int): (r: seq<PredRow>)
    requires keep <= maxPos
    ensures |r| <= maxPos
  {
    SortDesc(FillFrom(KeptExisting(filtered, held, keep), filtered, maxPos), ScoreKey)
  }

  /** The kept rows followed by the first rows, up to `maxPos` in all, whose instrument was not kept. */
  function FillFrom(kept: seq<PredRow>, filtered: seq<PredRow>, maxPos: nat): (r: seq<PredRow>)
    requires |kept| <= maxPos
    ensures |r| <= maxPos
  {
    kept + Head(Filter(filtered, NotInCodes(Instruments(kept))), maxPos - |kept|)
  }

  /**
   * Step 3 of the selection. With dropout active it keeps the best
   * `keep_slots` held rows and fills the remaining positions from the rows
   * whose instrument was not kept; otherwise it takes the first
   * `max_positions` rows.
   */
  function Dropout(filtered: seq<PredRow>, topK: int, rate: real, held: set<string>): (r: seq<PredRow>)
    ensures |r| <= MaxPositions(topK, |filtered|)
  {
    var maxPos := MaxPositions(topK, |filtered|);
    if DropoutActive(filtered, topK, rate, held) then
      KeepAndFill(filtered, held, maxPos, KeepSlots(maxPos, ClampRate(rate)))
    else
      Head(filtered, maxPos)
  }

  lemma KeepAndFillFromFiltered(filtered: seq<PredRow>, held: set<string>, maxPos: nat, keep: int)
    requires keep <= maxPos
    ensures forall x :: x in KeepAndFill(filtered, held, maxPos, keep) ==> x in filtered
  {
    var kept := KeptExisting(filtered, held, keep);
    KeptInFiltered(filtered, held, keep);
    FillFromFiltered(kept, filtered, maxPos);
    SortDescWithin(FillFrom(kept, filtered, maxPos), ScoreKey, filtered);
  }

  lemma FillFromFiltered(kept: seq<PredRow>, filtered: seq<PredRow>, maxPos: nat)
    requires |kept| <= maxPos
    requires forall x :: x in kept ==> x in filtered
    ensures forall x :: x in FillFrom(kept, filtered, maxPos) ==> x in filtered
  {
    var pool := Filter(filtered, NotInCodes(Instruments(kept)));
    HeadMember(pool, maxPos - |kept|);
  }

  /** The dropout step only ever returns rows it was given. */
  lemma DropoutFromFiltered(filtered: seq<PredRow>, topK: int, rate: real, held: set<string>)
    ensures forall x :: x in Dropout(filtered, topK, rate, held) ==> x in filtered
  {
    var maxPos := MaxPositions(topK, |filtered|);
    if DropoutActive(filtered, topK, rate, held) {
      KeepAndFillFromFiltered(filtered, held, maxPos, KeepSlots(maxPos, ClampRate(rate)));
    } else {
      HeadMember(filtered, maxPos);
    }
  }

  lemma KeptInFiltered(filtered: seq<PredRow>, held: set<string>, keep: int)
    ensures multiset(KeptExisting(filtered, held, keep)) <= multiset(filtered)
    ensures forall x :: x in KeptExisting(filtered, held, keep) ==> x in filtered && x.instrument in held
  {
    var f := Filter(filtered, InCodes(held));
    var existing := SortDesc(f, ScoreKey);
    var kept := Head(existing, keep);
    HeadSub(existing, keep);
    forall x | x in kept ensures x in filtered && x.instrument in held {
      assert x in multiset(kept);
      assert x in multiset(f);
      FilterPasses(filtered, InCodes(held), x);
    }
  }

  /**
   * The kept holdings number at most `keep_slots`, are held rows of the
   * list, and score at least as high as every held row that was not kept.
   */
  lemma KeptAreBestHeld(filtered: seq<PredRow>, held: set<string>, keep: int)
    ensures |KeptExisting(filtered, held, keep)| <= MaxInt(keep, 0)
    ensures forall x :: x in KeptExisting(filtered, held, keep) ==> x in filtered && x.instrument in held
    ensures forall x, y ::
      (x in KeptExisting(filtered, held, keep) && y in filtered && y.instrument in held &&
       y !in KeptExisting(filtered, held, keep)) ==> x.score >= y.score
  {
    var p := InCodes(held);
    var existing := HeldRows(filtered, held);
    var kept := KeptExisting(filtered, held, keep);
    KeptInFiltered(filtered, held, keep);
    SortDescSorted(Filter(filtered, p), ScoreKey);
    HeadIsTop(existing, ScoreKey, keep);
    forall x, y | x in kept && y in filtered && y.instrument in held && y !in kept
      ensures x.score >= y.score
    {
      FilterMember(filtered, p, y);
      assert y in multiset(Filter(filtered, p));
      assert y in existing;
      assert KeyGe(ScoreKey(x), ScoreKey(y));
    }
  }

  /**
   * Every row whose instrument is among the kept ones is a kept row, when
   * no instrument occurs twice.
   */
  lemma KeptCodesAreKept(filtered: seq<PredRow>, kept: seq<PredRow>)
    requires UniqueRows(filtered)
    requires multiset(kept) <= multiset(filtered)
    ensures multiset(Filter(filtered, InCodes(Instruments(kept)))) == multiset(kept)
  {
    var p := InCodes(Instruments(kept));
    forall y ensures multiset(Filter(filtered, p))[y] == multiset(kept)[y] {
      FilterCount(filtered, p, y);
      if y in kept {
        assert y in multiset(kept);
        assert y in multiset(filtered);
        assert p(y);
        assert multiset(filtered)[y] == 1;
      } else if p(y) {
        SameInstrumentIsKept(filtered, kept, y);
      }
    }
  }

  lemma SameInstrumentIsKept(filtered: seq<PredRow>, kept: seq<PredRow>, y: PredRow)
    requires UniqueRows(filtered)
    requires multiset(kept) <= multiset(filtered)
    requires y.instrument in Instruments(kept)
    ensures y in filtered ==> y in kept
  {
    if y in filtered {
      var z :| z in kept && z.instrument == y.instrument;
      assert z in multiset(kept);
      assert z in multiset(filtered);
    }
  }

  /**
   * When the greedy pass already stopped at `topK` and no instrument occurs
   * twice, the dropout step keeps every row: it only reorders them.
   */
  lemma DropoutKeepsAll(filtered: seq<PredRow>, topK: int, rate: real, held: set<string>)
    requires UniqueRows(filtered)
    requires |filtered| <= topK || topK <= 0
    ensures multiset(Dropout(filtered, topK, rate, held)) == multiset(filtered)
  {
    var maxPos := MaxPositions(topK, |filtered|);
    assert maxPos == |filtered|;
    if DropoutActive(filtered, topK, rate, held) {
      KeepAndFillKeepsAll(filtered, held, maxPos, KeepSlots(maxPos, ClampRate(rate)));
    }
  }

  lemma KeepAndFillKeepsAll(filtered: seq<PredRow>, held: set<string>, maxPos: nat, keep: int)
    requires UniqueRows(filtered)
    requires keep <= maxPos == |filtered|
    ensures multiset(KeepAndFill(filtered, held, maxPos, keep)) == multiset(filtered)
  {
    var kept := KeptExisting(filtered, held, keep);
    var p := InCodes(Instruments(kept));
    var q := NotInCodes(Instruments(kept));
    var pool := Filter(filtered, q);
    KeptInFiltered(filtered, held, keep);
    KeptCodesAreKept(filtered, kept);
    FilterSplit(filtered, p, q);
    assert multiset(kept) + multiset(pool) == multiset(filtered);
    assert |pool| == |filtered| - |kept| by {
      assert |multiset(kept) + multiset(pool)| == |multiset(filtered)|;
    }
    assert Head(pool, maxPos - |kept|) == pool;
    assert FillFrom(kept, filtered, maxPos) == kept + pool;
    assert multiset(kept + pool) == multiset(filtered);
  }

  lemma {:induction false} ScoresConcat(a: seq<PredRow>, b: seq<PredRow>)
    ensures Scores(a + b) == Scores(a) + Scores(b)
    decreases |a|
  {
    if a == [] {
      assert [] + b == b;
    } else {
      assert Scores(a + b) == [a[0].score] + Scores(a[1..] + b) by {
        assert (a + b)[1..] == a[1..] + b;
      }
      ScoresConcat(a[1..], b);
      AppendAssoc([a[0].score], Scores(a[1..]), Scores(b));
    }
  }

  /** Taking out the row at `k` takes its score out of the scores. */
  lemma ScoresRemove(b: seq<PredRow>, k: int)
    requires 0 <= k < |b|
    ensures multiset(Scores(b)) == multiset(Scores(b[..k] + b[k + 1..])) + multiset{b[k].score}
  {
    var front, back := b[..k], b[k + 1..];
    SplitAt(b, k);
    ScoresConcat(front + [b[k]], back);
    ScoresConcat(front, [b[k]]);
    ScoresConcat(front, back);
    var l, m, n := Scores(front), Scores([b[k]]), Scores(back);
    assert m == [b[k].score];
    assert Scores(b) == (l + m) + n;
    assert multiset((l + m) + n) == multiset(l) + multiset(m) + multiset(n);
    assert multiset(l + n) == multiset(l) + multiset(n);
  }

  /** Rows that are a reordering of each other have scores that are a reordering of each other. */
  lemma {:induction false} ScoresPermutation(a: seq<PredRow>, b: seq<PredRow>)
    requires multiset(a) == multiset(b)
    ensures multiset(Scores(a)) == multiset(Scores(b))
    decreases |a|
  {
    if a == [] {
      assert |b| == |multiset(b)| == 0;
    } else {
      assert a[0] in multiset(b);
      var k :| 0 <= k < |b| && b[k] == a[0];
      PermutationTail(a, b, k);
      ScoresPermutation(a[1..], b[..k] + b[k + 1..]);
      ScoresRemove(b, k);
      assert Scores(a) == [a[0].score] + Scores(a[1..]);
    }
  }

  /**
   * Affordability depends only on which rows are chosen, not on their
   * order: each weight is a function of its own score, the score sum and
   * the count.
   */
  lemma AffordablePermutation(a: seq<PredRow>, b: seq<PredRow>, cash: real, lot: int, scheme: Option<string>)
    requires multiset(a) == multiset(b)
    requires AffordableSet(a, cash, lot, scheme)
    ensures AffordableSet(b, cash, lot, scheme)
  {
    ScoresPermutation(a, b);
    SumPermutation(Scores(a), Scores(b));
    assert |a| == |multiset(a)| == |multiset(b)| == |b|;
    var wa := ComputeWeights(Scores(a), scheme);
    var wb := ComputeWeights(Scores(b), scheme);
    forall k | 0 <= k < |b| ensures Affordable(wb[k], cash, b[k].price, lot) {
      assert b[k] in multiset(a);
      var j :| 0 <= j < |a| && a[j] == b[k];
      assert wb[k] == wa[j];
    }
  }

  lemma ReweightedAffordable(rows: seq<PredRow>, cash: real, lot: int, scheme: Option<string>)
    requires AffordableSet(rows, cash, lot, scheme)
    ensures AffordableSet(Reweighted(rows, scheme), cash, lot, scheme)
  {
    var r := Reweighted(rows, scheme);
    assert Scores(r) == Scores(rows);
  }

  /** The price-cap step as a row test. */
  function CapTest(cap: Option<real>): PredRow -> bool {
    (x: PredRow) => PassesPriceCap(x, cap)
  }

  /** Steps 3 and 4: sort the greedy set by score, apply dropout, recompute the weights. */
  function FinalRows(selected: seq<PredRow>, cfg: SelectConfig): seq<PredRow> {
    Reweighted(Dropout(SortDesc(selected, ScoreKey), cfg.topK, cfg.dropoutRate, cfg.holdings), cfg.weightScheme)
  }

  /**
   * What a selection that got past the early returns promises: at most
   * `top_k` rows, each tradable, priced and within the price cap, each one
   * of the input rows apart from its weight, weighted by the weights
   * computed for exactly these rows, and, when no instrument occurs twice
   * in the input, each affording one lot under its weight.
   */
  predicate GoodSelection(pred: seq<PredRow>, cfg: SelectConfig, r: seq<PredRow>) {
    |r| <= cfg.topK &&
    (forall x :: x in r ==> x.tradable && IsValidPrice(x.price) && PassesPriceCap(x, cfg.maxStockPrice)) &&
    (forall k :: 0 <= k < |r| ==> r[k].(weight := NaN) in Unweighted(pred)) &&
    (forall k :: 0 <= k < |r| ==> r[k].weight == Some(ComputeWeights(Scores(r), cfg.weightScheme)[k])) &&
    (UniqueRows(pred) ==> AffordableSet(r, AvailableCash(cfg), MinLot(cfg), cfg.weightScheme))
  }

  /** Setting the weights leaves the scores as they are. */
  lemma ScoresReweighted(rows: seq<PredRow>, scheme: Option<string>)
    ensures Scores(Reweighted(rows, scheme)) == Scores(rows)
  {
    var r := Reweighted(rows, scheme);
    assert forall i :: 0 <= i < |r| ==> Scores(r)[i] == Scores(rows)[i];
  }

  /** Every row the dropout step keeps is a greedy pick. */
  lemma ChosenAreSelected(selected: seq<PredRow>, cfg: SelectConfig)
    ensures forall x :: x in Dropout(SortDesc(selected, ScoreKey), cfg.topK, cfg.dropoutRate, cfg.holdings) ==> x in selected
  {
    var filtered := SortDesc(selected, ScoreKey);
    DropoutFromFiltered(filtered, cfg.topK, cfg.dropoutRate, cfg.holdings);
    forall x | x in Dropout(filtered, cfg.topK, cfg.dropoutRate, cfg.holdings) ensures x in selected {
      assert x in multiset(filtered);
    }
  }

  lemma FinalRowsGood(pred: seq<PredRow>, cfg: SelectConfig, selected: seq<PredRow>)
    requires cfg.topK > 0 && |selected| <= cfg.topK
    requires multiset(selected) <= multiset(Filter(pred, CapTest(cfg.maxStockPrice)))
    requires forall x :: x in selected ==> x.tradable && IsValidPrice(x.price)
    requires AffordableSet(selected, AvailableCash(cfg), MinLot(cfg), cfg.weightScheme)
    ensures GoodSelection(pred, cfg, FinalRows(selected, cfg))
  {
    var chosen := Dropout(SortDesc(selected, ScoreKey), cfg.topK, cfg.dropoutRate, cfg.holdings);
    FinalRowsFromPred(pred, cfg, selected);
    ScoresReweighted(chosen, cfg.weightScheme);
    if UniqueRows(pred) {
      FinalRowsAffordable(pred, cfg, selected);
    }
  }

  /** The final rows are tradable, priced, within the cap and, apart from their weight, rows of the input. */
  lemma FinalRowsFromPred(pred: seq<PredRow>, cfg: SelectConfig, selected: seq<PredRow>)
    requires multiset(selected) <= multiset(Filter(pred, CapTest(cfg.maxStockPrice)))
    requires forall x :: x in selected ==> x.tradable && IsValidPrice(x.price)
    ensures forall k :: 0 <= k < |FinalRows(selected, cfg)| ==>
      var x := FinalRows(selected, cfg)[k];
      x.(weight := NaN) in Unweighted(pred) && x.tradable && IsValidPrice(x.price) && PassesPriceCap(x, cfg.maxStockPrice)
  {
    var chosen := Dropout(SortDesc(selected, ScoreKey), cfg.topK, cfg.dropoutRate, cfg.holdings);
    var r := FinalRows(selected, cfg);
    assert forall x :: x in chosen ==>
      x.tradable && IsValidPrice(x.price) && PassesPriceCap(x, cfg.maxStockPrice) && x in pred by {
      ChosenAreSelected(selected, cfg);
      forall x | x in chosen
        ensures x.tradable && IsValidPrice(x.price) && PassesPriceCap(x, cfg.maxStockPrice) && x in pred
      {
        assert x in multiset(Filter(pred, CapTest(cfg.maxStockPrice)));
      }
    }
    forall k | 0 <= k < |r|
      ensures r[k].(weight := NaN) in Unweighted(pred)
      ensures r[k].tradable && IsValidPrice(r[k].price) && PassesPriceCap(r[k], cfg.maxStockPrice)
    {
      assert chosen[k] in chosen;
      assert r[k].(weight := NaN) == chosen[k].(weight := NaN);
      UnweightedMember(pred, chosen[k]);
    }
  }

  /** With no instrument twice in the input, the dropout step only reorders the greedy set, which stays affordable. */
  lemma FinalRowsAffordable(pred: seq<PredRow>, cfg: SelectConfig, selected: seq<PredRow>)
    requires UniqueRows(pred) && cfg.topK > 0 && |selected| <= cfg.topK
    requires multiset(selected) <= multiset(Filter(pred, CapTest(cfg.maxStockPrice)))
    requires AffordableSet(selected, AvailableCash(cfg), MinLot(cfg), cfg.weightScheme)
    ensures AffordableSet(FinalRows(selected, cfg), AvailableCash(cfg), MinLot(cfg), cfg.weightScheme)
  {
    var filtered := SortDesc(selected, ScoreKey);
    var chosen := Dropout(filtered, cfg.topK, cfg.dropoutRate, cfg.holdings);
    UniqueRowsSub(filtered, pred);
    DropoutKeepsAll(filtered, cfg.topK, cfg.dropoutRate, cfg.holdings);
    AffordablePermutation(selected, chosen, AvailableCash(cfg), MinLot(cfg), cfg.weightScheme);
    ReweightedAffordable(chosen, AvailableCash(cfg), MinLot(cfg), cfg.weightScheme);
  }

  /**
   * The whole selection. The input comes back unchanged for a
   * non-positive `top_k` or an empty input; no rows come back when the
   * price cap leaves none, when there is no cash to spend, or when no
   * candidate affords a lot; otherwise the rows meet `GoodSelection`.
   */
  method SelectBuyableTopk(pred: seq<PredRow>, cfg: SelectConfig) returns (r: seq<PredRow>)
    ensures cfg.topK <= 0 || pred == [] ==> r == pred
    ensures cfg.topK > 0 && pred != [] && AvailableCash(cfg) <= 0.0 ==> r == []
    ensures cfg.topK > 0 && pred != [] ==> GoodSelection(pred, cfg, r)
  {
    if cfg.topK <= 0 || pred == [] {
      return pred;
    }
    var working := Filter(pred, CapTest(cfg.maxStockPrice));
    if working == [] {
      return working;
    }
    var cash := AvailableCash(cfg);
    if cash <= 0.0 {
      return [];
    }
    var lot := MinLot(cfg);
    var candidates := SortDesc(working, ScoreKey);
    SortDescSorted(working, ScoreKey);
    var selected := GreedyBuyable(candidates, cfg.topK, cash, lot, cfg.weightScheme);
    GreedyPicks(candidates, cfg.topK, Fits(cash, lot, cfg.weightScheme));
    GreedySorted(candidates, cfg.topK, Fits(cash, lot, cfg.weightScheme));
    if selected == [] {
      return [];
    }
    FinalRowsGood(pred, cfg, selected);
    r := FinalRows(selected, cfg);
  }

  /** The rows with the `target_weight` column blanked, for comparing rows apart from their weight. */
  function Unweighted(rows: seq<PredRow>): (r: seq<PredRow>)
    ensures |r| == |rows|
    ensures forall i :: 0 <= i < |rows| ==> r[i] == rows[i].(weight := NaN)
  {
    seq(|rows|, i requires 0 <= i < |rows| => rows[i].(weight := NaN))
  }

  lemma UnweightedMember(rows: seq<PredRow>, x: PredRow)
    requires x in rows
    ensures x.(weight := NaN) in Unweighted(rows)
  {
    var i :| 0 <= i < |rows| && rows[i] == x;
    assert Unweighted(rows)[i] == x.(weight := NaN);
  }

  /** `sort_values("score", ascending=False).head(top_k)`. */
  function TopRows(pred: seq<PredRow>, topK: int): seq<PredRow> {
    Head(SortDesc(pred, ScoreKey), topK)
  }

  /**
   * The quote request list of the live run: the input for a non-positive
   * `top_k` or an empty input, otherwise the `top_k` best-scored rows,
   * re-weighted.
   */
  function TopkCandidatesForQuotes(pred: seq<PredRow>, topK: int, scheme: Option<string>): (r: seq<PredRow>)
    ensures topK <= 0 || pred == [] ==> r == pred
    ensures topK > 0 ==> |r| == MinInt(topK, |pred|)
  {
    if topK <= 0 || pred == [] then pred
    else Reweighted(TopRows(pred, topK), scheme)
  }

  /**
   * The quote candidates are sorted by score, outrank every row left out,
   * and carry weights that add up to one.
   */
  lemma TopkCandidatesAreBest(pred: seq<PredRow>, topK: int, scheme: Option<string>)
    requires topK > 0 && pred != []
    ensures SortedDesc(TopRows(pred, topK), ScoreKey)
    ensures forall x, y :: x in TopRows(pred, topK) && y in pred && y !in TopRows(pred, topK) ==> x.score >= y.score
    ensures Sum(ComputeWeights(Scores(TopRows(pred, topK)), scheme)) == 1.0
    ensures forall k :: 0 <= k < |TopRows(pred, topK)| ==>
      TopkCandidatesForQuotes(pred, topK, scheme)[k] ==
        TopRows(pred, topK)[k].(weight := Some(ComputeWeights(Scores(TopRows(pred, topK)), scheme)[k]))
  {
    var sorted := SortDesc(pred, ScoreKey);
    var top := TopRows(pred, topK);
    SortDescSorted(pred, ScoreKey);
    HeadIsTop(sorted, ScoreKey, topK);
    forall x, y | x in top && y in pred && y !in top ensures x.score >= y.score {
      assert y in multiset(sorted);
      assert KeyGe(ScoreKey(x), ScoreKey(y));
    }
    assert SortedDesc(top, ScoreKey) by {
      assert top == sorted[..|top|];
    }
    WeightsSumToOne(Scores(top), scheme);
  }
}
