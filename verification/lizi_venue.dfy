/**
 * The batch-order iQuant script (`iquant_lizi.py`): on the first live bar
 * it places every row of its orders CSV, then never again. Unlike the
 * handshake script, it keeps no set of done order ids and reads no state
 * file. The script's module globals and the two attributes it sets on the
 * context are the fields of `Runner`. The order call is a function
 * parameter.
 */
module LiziVenue {
  import opened Common
  import opened LiveFiles
  import opened VenueOrders
  import QlibVenue

  // ---------------------------------------------------------------------
  // The placement pass
  // ---------------------------------------------------------------------

  /** What one row sends: nothing when its final quantity is zero or on a dry run, else one call. */
  function RowPlacement(o: Order, pl: Placement): (r: seq<Sent>)
    ensures |r| <= 1
    ensures forall s :: s in r ==> s.orderId == o.orderId && s.qty != 0
  {
    var q := pl.quantity(o);
    if q == 0 || pl.dryRun then []
    else [Sent(o.orderId, o.code, q, pl.verdict(o.code, q, o.price))]
  }

  /** The calls `_place_orders_by_shares` makes, in row order; a repeated order id is placed again. */
  function Placements(os: seq<Order>, pl: Placement): seq<Sent>
    decreases |os|
  {
    if os == [] then []
    else RowPlacement(os[0], pl) + Placements(os[1..], pl)
  }

  /** `_place_orders_by_shares`' rules: the order call takes no price. */
  function LiziPlacement(flags: Flags, call: (string, int) -> CallResult): Placement {
    Placement(flags.dryRun, o => FinalQuantity(o, flags), (c, q, p) => VerdictOf(call(c, q)))
  }

  /** At most one call per row, none for zero shares, and none at all on a dry run. */
  lemma {:induction false} PlacementsBounded(os: seq<Order>, pl: Placement)
    ensures |Placements(os, pl)| <= |os|
    ensures forall s :: s in Placements(os, pl) ==> s.qty != 0 && s.orderId in QlibVenue.Ids(os)
    ensures pl.dryRun ==> Placements(os, pl) == []
    decreases |os|
  {
    if os != [] {
      PlacementsBounded(os[1..], pl);
      assert forall p :: p in os[1..] ==> p in os;
    }
  }

  /** One step of the pass. */
  lemma PlacementsStep(os: seq<Order>, i: int, pl: Placement)
    requires 0 <= i < |os|
    ensures Placements(os[i..], pl) == RowPlacement(os[i], pl) + Placements(os[i + 1..], pl)
  {
    assert os[i..][0] == os[i];
    assert os[i..][1..] == os[i + 1..];
  }

  /**
   * On a file whose order ids are distinct and not yet done, the handshake
   * script's de-duplicating pass makes exactly the calls this script makes.
   */
  lemma {:induction false} DistinctIdsPlaceAlike(os: seq<Order>, done: set<string>, pl: Placement)
    requires forall i :: 0 <= i < |os| ==> os[i].orderId !in done
    requires forall i, j :: 0 <= i < j < |os| ==> os[i].orderId != os[j].orderId
    ensures QlibVenue.Attempts(os, done, pl) == Placements(os, pl)
    decreases |os|
  {
    if os != [] {
      var o := os[0];
      assert QlibVenue.RowCall(o, done, pl) == RowPlacement(o, pl);
      forall i | 0 <= i < |os[1..]|
        ensures os[1..][i].orderId !in done + {o.orderId}
      {
        assert os[1..][i] == os[i + 1];
      }
      DistinctIdsPlaceAlike(os[1..], done + {o.orderId}, pl);
    }
  }

  /** A row listed twice is placed twice by this script, and once by the handshake script. */
  lemma RepeatedRowPlacedTwice(o: Order, pl: Placement)
    requires pl.quantity(o) != 0 && !pl.dryRun
    ensures |Placements([o, o], pl)| == 2
    ensures |QlibVenue.Attempts([o, o], {}, pl)| == 1
  {
    var q := pl.quantity(o);
    var s := Sent(o.orderId, o.code, q, pl.verdict(o.code, q, o.price));
    assert [o, o][1..] == [o] && [o][1..] == [];
    assert RowPlacement(o, pl) == [s];
    assert Placements([o], pl) == [s] + Placements([], pl);
    assert Placements([o, o], pl) == [s] + Placements([o], pl);
    assert QlibVenue.RowCall(o, {}, pl) == [s];
    var done: set<string> := {} + {o.orderId};
    assert QlibVenue.RowCall(o, done, pl) == [];
    assert QlibVenue.Attempts([o], done, pl) == [] + QlibVenue.Attempts([], done + {o.orderId}, pl);
    assert QlibVenue.Attempts([o, o], {}, pl) == [s] + QlibVenue.Attempts([o], done, pl);
  }

  // ---------------------------------------------------------------------
  // The script's globals and lifecycle hooks
  // ---------------------------------------------------------------------

  class Runner {
    /** `DRY_RUN`, `ENFORCE_BUY_100_LOT`, `ROUND_SELL_TO_100`. */
    const flags: Flags
    /** `_DF_CACHE`. */
    var dfCache: Option<seq<Order>>
    /** `_ERROR_ONCE`. */
    var errorOnce: bool
    /** `ContextInfo._qlib_has_run`; absent before `init`, which reads as false. */
    var hasRun: bool
    /** `ContextInfo._qlib_df`. */
    var ctxOrders: Option<seq<Order>>
    /** Every call made to the order API, in order. */
    var sent: seq<Sent>

    /** The script as loaded. */
    constructor (flags: Flags)
      ensures this.flags == flags
      ensures dfCache.None? && !errorOnce && !hasRun && ctxOrders.None? && sent == []
    {
      this.flags := flags;
      dfCache := None;
      errorOnce := false;
      hasRun := false;
      ctxOrders := None;
      sent := [];
    }

    /** `_load_df`: the cached frame, or the file's rows, which a successful load caches. */
    method LoadDf(file: Option<Table>, parse: string -> Option<real>) returns (r: Outcome<seq<Order>>)
      modifies this`dfCache
      ensures r == CachedLoad(old(dfCache), file, LiziLayout, parse)
      ensures r.Ok? ==> dfCache == Some(r.value)
      ensures r.Raised? ==> dfCache == old(dfCache)
    {
      if dfCache.Some? {
        return Ok(dfCache.value);
      }
      r := ParseOrders(file, LiziLayout, parse);
      if r.Ok? {
        dfCache := Some(r.value);
      }
    }

    /** `init`: the run flag is cleared and the frame loaded up front; a failed load leaves none on the context. */
    method Init(file: Option<Table>, parse: string -> Option<real>)
      modifies this`dfCache, this`ctxOrders, this`hasRun
      ensures !hasRun
      ensures var r := CachedLoad(old(dfCache), file, LiziLayout, parse);
        (r.Ok? ==> ctxOrders == Some(r.value) && dfCache == Some(r.value)) &&
        (r.Raised? ==> ctxOrders.None? && dfCache == old(dfCache))
    {
      hasRun := false;
      ctxOrders := None;
      var r := LoadDf(file, parse);
      if r.Ok? {
        ctxOrders := Some(r.value);
      }
    }

    /** `_place_orders_by_shares`: one pass over every row. */
    method PlaceOrdersByShares(os: seq<Order>, call: (string, int) -> CallResult)
      modifies this`sent
      ensures sent == old(sent) + Placements(os, LiziPlacement(flags, call))
    {
      var pl := LiziPlacement(flags, call);
      var i := 0;
      while i < |os|
        invariant 0 <= i <= |os|
        invariant old(sent) + Placements(os, pl) == sent + Placements(os[i..], pl)
      {
        var o := os[i];
        PlacementsStep(os, i, pl);
        ghost var rest := Placements(os[i + 1..], pl);
        var q := FinalQuantity(o, flags);
        assert pl.quantity(o) == q;
        if q != 0 && !flags.dryRun {
          var verdict := Submit(call(o.code, q));
          var s := Sent(o.orderId, o.code, q, verdict);
          assert RowPlacement(o, pl) == [s];
          AppendAssoc(sent, [s], rest);
          sent := sent + [s];
        } else {
          assert RowPlacement(o, pl) == [];
          assert [] + rest == rest;
        }
        i := i + 1;
      }
    }

    /**
     * `handlebar`: on the first live bar, load and place every row, then
     * mark the run done. A load failure leaves the run pending and sets the
     * error-reported flag.
     */
    method Handlebar(isLast: bool, file: Option<Table>, parse: string -> Option<real>, call: (string, int) -> CallResult)
      modifies this
      ensures !isLast || old(hasRun) ==> unchanged(this)
      ensures isLast && !old(hasRun) ==>
        var p := Pending(old(ctxOrders), old(dfCache), file, LiziLayout, parse);
        (p.Ok? <==> hasRun) &&
        (p.Ok? ==> sent == old(sent) + Placements(p.value, LiziPlacement(flags, call)) && errorOnce == old(errorOnce)) &&
        (p.Raised? ==> errorOnce && sent == old(sent))
      ensures sent != old(sent) ==> hasRun && !old(hasRun)
    {
      if !isLast || hasRun {
        return;
      }
      var p: Outcome<seq<Order>>;
      if ctxOrders.Some? {
        p := Ok(ctxOrders.value);
      } else {
        p := LoadDf(file, parse);
      }
      assert p == Pending(old(ctxOrders), old(dfCache), file, LiziLayout, parse);
      if p.Raised? {
        errorOnce := true;
        return;
      }
      PlaceOrdersByShares(p.value, call);
      hasRun := true;
    }
  }
}
