/**
 * The venue side of the handshake (the qlib iQuant script): on every bar it
 * reads the state file and answers the phase it finds. It exports
 * holdings on "positions_needed" and quotes on "symbols_ready", echoing the
 * version it read. On "orders_ready" it places the orders file's rows once,
 * never the same order id twice. The script's module globals are the
 * fields of `Session`. The API calls that fetch holdings and quotes are
 * the boolean results of the two exports, and the order call is a function
 * parameter.
 */
module QlibVenue {
  import opened Common
  import opened StateFile
  import opened LiveFiles
  import opened VenueOrders

  // ---------------------------------------------------------------------
  // The placement pass
  // ---------------------------------------------------------------------

  /** The order ids of the rows. */
  function Ids(os: seq<Order>): set<string> {
    set o | o in os :: o.orderId
  }

  /**
   * What one row sends, given the ids done before it: nothing when its id
   * is done, when its final quantity is zero, or on a dry run; otherwise one
   * call with the final quantity.
   */
  function RowCall(o: Order, done: set<string>, pl: Placement): (r: seq<Sent>)
    ensures |r| <= 1
    ensures forall s :: s in r ==> s.orderId == o.orderId && s.orderId !in done && s.qty != 0
  {
    var q := pl.quantity(o);
    if o.orderId in done || q == 0 || pl.dryRun then []
    else [Sent(o.orderId, o.code, q, pl.verdict(o.code, q, o.price))]
  }

  /**
   * The calls `_place_orders` makes, in row order, starting from the set of
   * ids already done. Every row's id is done once the row is processed,
   * whether it was skipped, dry-run, rejected or submitted.
   */
  function Attempts(os: seq<Order>, done: set<string>, pl: Placement): seq<Sent>
    decreases |os|
  {
    if os == [] then []
    else RowCall(os[0], done, pl) + Attempts(os[1..], done + {os[0].orderId}, pl)
  }

  /** No call is made for an id already done, every call comes from a row, and none is for zero shares. */
  lemma {:induction false} AttemptsFresh(os: seq<Order>, done: set<string>, pl: Placement)
    ensures forall s :: s in Attempts(os, done, pl) ==> s.orderId !in done && s.orderId in Ids(os) && s.qty != 0
    decreases |os|
  {
    if os != [] {
      AttemptsFresh(os[1..], done + {os[0].orderId}, pl);
      assert forall p :: p in os[1..] ==> p in os;
    }
  }

  /** No two calls carry the same order id. */
  predicate DistinctIds(a: seq<Sent>) {
    forall i, j :: 0 <= i < j < |a| ==> a[i].orderId != a[j].orderId
  }

  /** Each order id is sent at most once in a pass. */
  lemma {:induction false} AttemptsDistinct(os: seq<Order>, done: set<string>, pl: Placement)
    ensures DistinctIds(Attempts(os, done, pl))
    decreases |os|
  {
    if os != [] {
      var o := os[0];
      var head := RowCall(o, done, pl);
      var rest := Attempts(os[1..], done + {o.orderId}, pl);
      AttemptsDistinct(os[1..], done + {o.orderId}, pl);
      AttemptsFresh(os[1..], done + {o.orderId}, pl);
      var a := Attempts(os, done, pl);
      assert a == head + rest;
      assert DistinctIds(rest);
      forall i, j | 0 <= i < j < |a|
        ensures a[i].orderId != a[j].orderId
      {
        if i < |head| {
          assert a[i] in head && a[i].orderId == o.orderId;
          assert a[j] == rest[j - |head|] && a[j] in rest;
          assert a[j].orderId !in done + {o.orderId};
        } else {
          var i', j' := i - |head|, j - |head|;
          assert a[i] == rest[i'] && a[j] == rest[j'];
          assert 0 <= i' < j' < |rest|;
          assert rest[i'].orderId != rest[j'].orderId;
        }
      }
    }
  }

  /** A dry run calls the order API for no row. */
  lemma {:induction false} DryRunSendsNothing(os: seq<Order>, done: set<string>, pl: Placement)
    requires pl.dryRun
    ensures Attempts(os, done, pl) == []
    decreases |os|
  {
    if os != [] {
      DryRunSendsNothing(os[1..], done + {os[0].orderId}, pl);
    }
  }

  /** The first row of an id not yet done, with a non-zero final quantity, is sent unless the run is dry. */
  lemma {:induction false} FirstOfIdSent(os: seq<Order>, done: set<string>, pl: Placement, i: int)
    requires 0 <= i < |os| && !pl.dryRun
    requires os[i].orderId !in done && pl.quantity(os[i]) != 0
    requires forall j :: 0 <= j < i ==> os[j].orderId != os[i].orderId
    ensures var q := pl.quantity(os[i]);
      Sent(os[i].orderId, os[i].code, q, pl.verdict(os[i].code, q, os[i].price)) in Attempts(os, done, pl)
    decreases |os|
  {
    var rest := Attempts(os[1..], done + {os[0].orderId}, pl);
    assert Attempts(os, done, pl) == RowCall(os[0], done, pl) + rest;
    if i > 0 {
      assert os[1..][i - 1] == os[i];
      FirstOfIdSent(os[1..], done + {os[0].orderId}, pl, i - 1);
    }
  }

  /** One step of the pass: what row `i` contributes, given the ids done before it. */
  lemma AttemptsStep(os: seq<Order>, i: int, done: set<string>, pl: Placement)
    requires 0 <= i < |os|
    ensures Attempts(os[i..], done, pl) == RowCall(os[i], done, pl) + Attempts(os[i + 1..], done + {os[i].orderId}, pl)
  {
    assert os[i..][0] == os[i];
    assert os[i..][1..] == os[i + 1..];
  }

  /** The ids of one more row. */
  lemma IdsStep(os: seq<Order>, i: int)
    requires 0 <= i < |os|
    ensures Ids(os[..i + 1]) == Ids(os[..i]) + {os[i].orderId}
  {
    assert os[..i + 1] == os[..i] + [os[i]];
  }

  lemma UnionAssoc(a: set<string>, b: set<string>, x: string)
    ensures (a + b) + {x} == a + (b + {x})
  {
  }

  /** `_place_orders`' rules: the script's flags, and the verdict on what the order call returns. */
  function QlibPlacement(flags: Flags, call: (string, int, Float) -> CallResult): Placement {
    Placement(flags.dryRun, o => FinalQuantity(o, flags), (c, q, p) => VerdictOf(call(c, q, p)))
  }

  /** What one row sends under the handshake script's rules. */
  lemma QlibRowCall(o: Order, done: set<string>, flags: Flags, call: (string, int, Float) -> CallResult)
    ensures var q := FinalQuantity(o, flags);
      RowCall(o, done, QlibPlacement(flags, call)) ==
        if o.orderId !in done && q != 0 && !flags.dryRun
        then [Sent(o.orderId, o.code, q, VerdictOf(call(o.code, q, o.price)))] else []
  {
  }


  // ---------------------------------------------------------------------
  // Loading and version rules
  // ---------------------------------------------------------------------


  /** `TARGET_VERSION or version`: a non-empty target version wins over the one read. */
  function Expected(target: Option<string>, version: Option<StateValue>): Option<StateValue> {
    if target.Some? && target.value != "" then Some(Str(target.value)) else version
  }

  /** `expect_ver or ""`: the version every reply is written with. */
  function Echo(target: Option<string>, version: Option<StateValue>): (r: StateValue)
    ensures Truthy(Expected(target, version)) ==> Some(r) == Expected(target, version)
    ensures !Truthy(Expected(target, version)) ==> r == Str("")
  {
    var e := Expected(target, version);
    if Truthy(e) then e.value else Str("")
  }

  /** `TARGET_VERSION and version != TARGET_VERSION`: the orders phase is for another run. */
  predicate VersionBlocked(target: Option<string>, version: Option<StateValue>) {
    target.Some? && target.value != "" && version != Some(Str(target.value))
  }

  /** The version the state file holds; nothing when it is not a dict or lacks the key. */
  function VersionIn(f: StoredState): Option<StateValue> {
    var d := ReadState(f);
    if d.Obj? then Get(d.fields, "version") else None
  }

  /** The state file holds a dict whose phase is `p`. */
  predicate AtPhase(f: StoredState, p: string) {
    ReadState(f).Obj? && Get(ReadState(f).fields, "phase") == Some(Str(p))
  }

  /** The three phases the venue acts on. */
  predicate Handled(f: StoredState) {
    AtPhase(f, "positions_needed") || AtPhase(f, "symbols_ready") || AtPhase(f, "orders_ready")
  }

  const AttributeError := "AttributeError: object has no attribute 'get'"

  /**
   * Without a target version, the venue's reply to an announcement the
   * generator wrote with version `v` reaches the reply phase with that same
   * version: exactly the pair the generator waits for.
   */
  lemma ReplyAnswersGenerator(phase: string, v: string, stamp: string, extra: map<string, StateValue>, reply: string, replyStamp: string)
    requires v != "" && "phase" !in extra && "version" !in extra
    ensures var asked := WriteState(phase, Str(v), stamp, extra);
      Echo(None, VersionIn(asked)) == Str(v) &&
      Reached(ReadState(WriteState(reply, Echo(None, VersionIn(asked)), replyStamp, map["source" := Str("iquant")])), reply, v)
  {
    var asked := WriteState(phase, Str(v), stamp, extra);
    WrittenStateReadsBack(phase, Str(v), stamp, extra);
    assert VersionIn(asked) == Some(Str(v));
    WrittenStateReached(reply, v, replyStamp, map["source" := Str("iquant")]);
  }

  /**
   * With a target version that differs from the generator's, the venue
   * replies under the target version, so the generator never sees the
   * pair it waits for.
   */
  lemma PinnedVersionStalls(phase: string, v: string, stamp: string, extra: map<string, StateValue>, t: string, reply: string, replyStamp: string, p: string)
    requires t != "" && t != v
    ensures var asked := WriteState(phase, Str(v), stamp, extra);
      !Reached(ReadState(WriteState(reply, Echo(Some(t), VersionIn(asked)), replyStamp, map["source" := Str("iquant")])), p, v)
  {
    var asked := WriteState(phase, Str(v), stamp, extra);
    assert Echo(Some(t), VersionIn(asked)) == Str(t);
    WrittenStateReadsBack(reply, Str(t), replyStamp, map["source" := Str("iquant")]);
  }

  // ---------------------------------------------------------------------
  // The script's globals and lifecycle hooks
  // ---------------------------------------------------------------------

  class Session {
    /** `DRY_RUN`, `ENFORCE_BUY_100_LOT`, `ROUND_SELL_TO_100`. */
    const flags: Flags
    /** `TARGET_VERSION`. */
    const targetVersion: Option<string>
    /** `_ORDER_DF`. */
    var orderCache: Option<seq<Order>>
    /** `ContextInfo._qlib_df`. */
    var ctxOrders: Option<seq<Order>>
    /** `_DONE_IDS`. */
    var doneIds: set<string>
    /** `_ERROR_ONCE`. */
    var errorOnce: bool
    /** `_FIRED`. */
    var fired: bool
    /** The state file. */
    var state: StoredState
    /** Every call made to the order API, in order. */
    var sent: seq<Sent>

    /** The script as loaded: globals at their initial values, beside an existing state file. */
    constructor (flags: Flags, targetVersion: Option<string>, state: StoredState)
      ensures this.flags == flags && this.targetVersion == targetVersion && this.state == state
      ensures orderCache.None? && ctxOrders.None? && doneIds == {} && !errorOnce && !fired && sent == []
    {
      this.flags := flags;
      this.targetVersion := targetVersion;
      this.state := state;
      orderCache := None;
      ctxOrders := None;
      doneIds := {};
      errorOnce := false;
      fired := false;
      sent := [];
    }

    /** `_load_orders`: the cached frame, or the file's rows, which a successful load caches. */
    method LoadOrders(file: Option<Table>, parse: string -> Option<real>) returns (r: Outcome<seq<Order>>)
      modifies this`orderCache
      ensures r == CachedLoad(old(orderCache), file, QlibLayout, parse)
      ensures r.Ok? ==> orderCache == Some(r.value)
      ensures r.Raised? ==> orderCache == old(orderCache)
    {
      if orderCache.Some? {
        return Ok(orderCache.value);
      }
      r := ParseOrders(file, QlibLayout, parse);
      if r.Ok? {
        orderCache := Some(r.value);
      }
    }

    /** `init`: the frame is loaded once up front; a failed load leaves none on the context. */
    method Init(file: Option<Table>, parse: string -> Option<real>)
      modifies this`orderCache, this`ctxOrders
      ensures var r := CachedLoad(old(orderCache), file, QlibLayout, parse);
        (r.Ok? ==> ctxOrders == Some(r.value) && orderCache == Some(r.value)) &&
        (r.Raised? ==> ctxOrders.None? && orderCache == old(orderCache))
    {
      ctxOrders := None;
      var r := LoadOrders(file, parse);
      if r.Ok? {
        ctxOrders := Some(r.value);
      }
    }

    /** `_place_orders`: one pass over the rows, recording every id it processes. */
    method PlaceOrders(os: seq<Order>, call: (string, int, Float) -> CallResult)
      modifies this`doneIds, this`sent
      ensures doneIds == old(doneIds) + Ids(os)
      ensures sent == old(sent) + Attempts(os, old(doneIds), QlibPlacement(flags, call))
    {
      var pl := QlibPlacement(flags, call);
      ghost var goal := old(sent) + Attempts(os, old(doneIds), pl);
      var i := 0;
      while i < |os|
        invariant 0 <= i <= |os|
        invariant doneIds == old(doneIds) + Ids(os[..i])
        invariant goal == sent + Attempts(os[i..], doneIds, pl)
      {
        var o := os[i];
        AttemptsStep(os, i, doneIds, pl);
        IdsStep(os, i);
        QlibRowCall(o, doneIds, flags, call);
        ghost var rest := Attempts(os[i + 1..], doneIds + {o.orderId}, pl);
        var q := FinalQuantity(o, flags);
        if o.orderId !in doneIds && q != 0 && !flags.dryRun {
          var verdict := Submit(call(o.code, q, o.price));
          var s := Sent(o.orderId, o.code, q, verdict);
          AppendAssoc(sent, [s], rest);
          sent := sent + [s];
        } else {
          assert [] + rest == rest;
        }
        ghost var seen := Ids(os[..i]);
        doneIds := doneIds + {o.orderId};
        assert doneIds == old(doneIds) + Ids(os[..i + 1]) by {
          UnionAssoc(old(doneIds), seen, o.orderId);
        }
        i := i + 1;
      }
      assert os[..|os|] == os;
    }

    /** The orders-phase pass: load, place, and record success or the load's error. */
    method Execute(file: Option<Table>, parse: string -> Option<real>, call: (string, int, Float) -> CallResult,
                   reply: StateValue, stamp: string)
      modifies this`orderCache, this`doneIds, this`sent, this`fired, this`errorOnce, this`state
      ensures var p := Pending(ctxOrders, old(orderCache), file, QlibLayout, parse);
        (p.Ok? ==> fired && errorOnce == old(errorOnce) &&
                   doneIds == old(doneIds) + Ids(p.value) &&
                   sent == old(sent) + Attempts(p.value, old(doneIds), QlibPlacement(flags, call)) &&
                   state == WriteState("exec_done", reply, stamp, map["status" := Str("ok")])) &&
        (p.Raised? ==> fired == old(fired) && errorOnce && doneIds == old(doneIds) && sent == old(sent) &&
                       orderCache == old(orderCache) &&
                       state == WriteState("exec_failed", reply, stamp, map["error" := Str(p.error)]))
    {
      var p: Outcome<seq<Order>>;
      if ctxOrders.Some? {
        p := Ok(ctxOrders.value);
      } else {
        p := LoadOrders(file, parse);
      }
      assert p == Pending(ctxOrders, old(orderCache), file, QlibLayout, parse);
      if p.Raised? {
        errorOnce := true;
        state := WriteState("exec_failed", reply, stamp, map["error" := Str(p.error)]);
        return;
      }
      PlaceOrders(p.value, call);
      fired := true;
      state := WriteState("exec_done", reply, stamp, map["status" := Str("ok")]);
    }

    /**
     * `handlebar`: on the last bar, answer the phase in the state file.
     * The exports' results are `exportPositions` / `exportQuotes`.
     */
    method Handlebar(isLast: bool, exportPositions: bool, exportQuotes: bool,
                     file: Option<Table>, parse: string -> Option<real>,
                     call: (string, int, Float) -> CallResult, stamp: string) returns (err: Option<string>)
      modifies this
      ensures err.Some? <==> isLast && ReadState(old(state)).NotObject?
      ensures err.Some? ==> err.value == AttributeError
      ensures !isLast || !Handled(old(state)) ==> unchanged(this)
      ensures isLast && AtPhase(old(state), "positions_needed") ==>
        unchanged(this`orderCache, this`doneIds, this`sent, this`fired, this`errorOnce) &&
        (exportPositions ==> state == WriteState("positions_ready", Echo(targetVersion, VersionIn(old(state))), stamp, map["source" := Str("iquant")])) &&
        (!exportPositions ==> state == old(state))
      ensures isLast && AtPhase(old(state), "symbols_ready") ==>
        unchanged(this`orderCache, this`doneIds, this`sent, this`fired, this`errorOnce) &&
        (exportQuotes ==> state == WriteState("quotes_ready", Echo(targetVersion, VersionIn(old(state))), stamp, map["source" := Str("iquant")])) &&
        (!exportQuotes ==> state == old(state))
      ensures AtPhase(old(state), "orders_ready") && (VersionBlocked(targetVersion, VersionIn(old(state))) || old(fired)) ==>
        unchanged(this)
      ensures sent != old(sent) ==>
        isLast && AtPhase(old(state), "orders_ready") && !VersionBlocked(targetVersion, VersionIn(old(state))) && !old(fired)
      ensures old(fired) ==> fired && sent == old(sent) && doneIds == old(doneIds)
      ensures fired && !old(fired) ==>
        var p := Pending(old(ctxOrders), old(orderCache), file, QlibLayout, parse);
        p.Ok? && sent == old(sent) + Attempts(p.value, old(doneIds), QlibPlacement(flags, call)) &&
        state == WriteState("exec_done", Echo(targetVersion, VersionIn(old(state))), stamp, map["status" := Str("ok")])
      ensures isLast && AtPhase(old(state), "orders_ready") && !VersionBlocked(targetVersion, VersionIn(old(state))) && !old(fired) ==>
        var p := Pending(old(ctxOrders), old(orderCache), file, QlibLayout, parse);
        (p.Ok? <==> fired) &&
        (p.Raised? ==> (errorOnce && sent == old(sent) &&
          state == WriteState("exec_failed", Echo(targetVersion, VersionIn(old(state))), stamp, map["error" := Str(p.error)])))
    {
      err := None;
      if !isLast {
        return;
      }
      var st := ReadState(state);
      if st.NotObject? {
        return Some(AttributeError);
      }
      var phase := Get(st.fields, "phase");
      var version := Get(st.fields, "version");
      var reply := Echo(targetVersion, version);
      if phase == Some(Str("positions_needed")) {
        if exportPositions {
          state := WriteState("positions_ready", reply, stamp, map["source" := Str("iquant")]);
        }
        return;
      }
      if phase == Some(Str("symbols_ready")) {
        if exportQuotes {
          state := WriteState("quotes_ready", reply, stamp, map["source" := Str("iquant")]);
        }
        return;
      }
      if phase != Some(Str("orders_ready")) {
        return;
      }
      if VersionBlocked(targetVersion, version) {
        return;
      }
      if fired {
        return;
      }
      Execute(file, parse, call, reply, stamp);
    }
  }
}
