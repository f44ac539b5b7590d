/**
 * The generator's side of the file handshake (`main` of the live daily
 * predictor): it resets the state file, asks the venue for positions,
 * waits for them, writes the symbols it wants quotes for, waits for the
 * quotes, writes the orders, and announces each step in the state file,
 * all under one version.
 *
 * Time is a sequence of observations: the i-th pass of the wait loop
 * reads `polls[i].file` and then sees `polls[i].elapsed` seconds gone since
 * the wait began. The prediction pipeline between the phases is left out:
 * its candidate rows and its order file are parameters.
 */
module Handshake {
  import opened Common
  import opened LiveExchange
  import opened LiveFiles
  import opened StateFile

  // ---------------------------------------------------------------------
  // Waiting for a phase
  // ---------------------------------------------------------------------

  /** One pass of the wait loop: the file it reads, and the seconds elapsed after reading. */
  datatype Poll = Poll(file: StoredState, elapsed: real)

  /**
   * How a wait ends, with the number of loop passes it took: the expected
   * state was seen, the timeout passed (TimeoutError), the file held a
   * non-dict (AttributeError on `.get`), or the observations ran out first.
   */
  datatype WaitResult = Ready(passes: nat) | TimedOut(passes: nat) | Crashed(passes: nat) | Pending(passes: nat)

  /** The exception a wait that did not see its phase leaves `main` with. */
  function WaitError(w: WaitResult): string
    requires !w.Ready?
  {
    match w
    case TimedOut(_) => "TimeoutError"
    case Crashed(_) => "AttributeError"
    case Pending(_) => "still waiting"
  }

  /** A pass that neither returns nor raises: a dict that has not reached the pair, before the timeout. */
  predicate KeepsWaiting(p: Poll, phase: string, version: string, timeout: int) {
    ReadState(p.file).Obj? && !Reached(ReadState(p.file), phase, version) && p.elapsed <= timeout as real
  }

  /** `_wait_for_phase` from pass `i` on. */
  function WaitFrom(polls: seq<Poll>, i: nat, phase: string, version: string, timeout: int): WaitResult
    decreases |polls| - i
  {
    if i >= |polls| then Pending(i)
    else
      var st := ReadState(polls[i].file);
      if st.NotObject? then Crashed(i + 1)
      else if Reached(st, phase, version) then Ready(i + 1)
      else if polls[i].elapsed > timeout as real then TimedOut(i + 1)
      else WaitFrom(polls, i + 1, phase, version, timeout)
  }

  /** `_wait_for_phase`: poll until the pair is seen, the timeout passes, or a read crashes. */
  method WaitForPhase(polls: seq<Poll>, phase: string, version: string, timeout: int) returns (r: WaitResult)
    ensures r == WaitFrom(polls, 0, phase, version, timeout)
  {
    var loopCount := 0;
    while true
      invariant 0 <= loopCount <= |polls|
      invariant WaitFrom(polls, 0, phase, version, timeout) == WaitFrom(polls, loopCount, phase, version, timeout)
      decreases |polls| - loopCount
    {
      if loopCount == |polls| {
        return Pending(loopCount);
      }
      var st := ReadState(polls[loopCount].file);
      loopCount := loopCount + 1;
      if st.NotObject? {
        return Crashed(loopCount);
      }
      if Reached(st, phase, version) {
        return Ready(loopCount);
      }
      if polls[loopCount - 1].elapsed > timeout as real {
        return TimedOut(loopCount);
      }
    }
  }

  /**
   * The wait returns after pass `n` exactly when pass `n` sees the
   * expected phase and version and every earlier pass kept waiting.
   */
  lemma {:induction false} ReadyExactly(polls: seq<Poll>, i: nat, phase: string, version: string, timeout: int, n: nat)
    requires i <= |polls|
    ensures WaitFrom(polls, i, phase, version, timeout) == Ready(n) <==>
      (i < n <= |polls| && Reached(ReadState(polls[n - 1].file), phase, version) &&
       forall j :: i <= j < n - 1 ==> KeepsWaiting(polls[j], phase, version, timeout))
    decreases |polls| - i
  {
    if i < |polls| {
      ReadyExactly(polls, i + 1, phase, version, timeout, n);
      if i + 1 < n <= |polls| && (forall j :: i <= j < n - 1 ==> KeepsWaiting(polls[j], phase, version, timeout)) {
        assert KeepsWaiting(polls[i], phase, version, timeout);
      }
    }
  }

  /**
   * The wait raises TimeoutError after pass `n` exactly when pass `n` reads a
   * dict short of the pair with more than `timeout` seconds elapsed, and
   * every earlier pass kept waiting.
   */
  lemma {:induction false} TimedOutExactly(polls: seq<Poll>, i: nat, phase: string, version: string, timeout: int, n: nat)
    requires i <= |polls|
    ensures WaitFrom(polls, i, phase, version, timeout) == TimedOut(n) <==>
      (i < n <= |polls| && ReadState(polls[n - 1].file).Obj? &&
       !Reached(ReadState(polls[n - 1].file), phase, version) && polls[n - 1].elapsed > timeout as real &&
       forall j :: i <= j < n - 1 ==> KeepsWaiting(polls[j], phase, version, timeout))
    decreases |polls| - i
  {
    if i < |polls| {
      TimedOutExactly(polls, i + 1, phase, version, timeout, n);
      if i + 1 < n <= |polls| && (forall j :: i <= j < n - 1 ==> KeepsWaiting(polls[j], phase, version, timeout)) {
        assert KeepsWaiting(polls[i], phase, version, timeout);
      }
    }
  }

  /**
   * A wait whose observations never show the expected pair (a missing or
   * unreadable file, another phase, another version) never returns.
   */
  lemma {:induction false} NeverReadyWithoutPair(polls: seq<Poll>, i: nat, phase: string, version: string, timeout: int)
    requires forall j :: i <= j < |polls| ==> !Reached(ReadState(polls[j].file), phase, version)
    ensures !WaitFrom(polls, i, phase, version, timeout).Ready?
    decreases |polls| - i
  {
    if i < |polls| {
      NeverReadyWithoutPair(polls, i + 1, phase, version, timeout);
    }
  }

  // ---------------------------------------------------------------------
  // Python's string order and `sorted` of a set of strings
  // ---------------------------------------------------------------------

  /** `a < b` on Python strings: lexicographic by code point, a proper prefix first. */
  predicate Below(a: string, b: string)
    decreases |a|
  {
    b != [] && (a == [] || a[0] < b[0] || (a[0] == b[0] && Below(a[1..], b[1..])))
  }

  lemma {:induction false} BelowIrreflexive(a: string)
    ensures !Below(a, a)
    decreases |a|
  {
    if a != [] {
      BelowIrreflexive(a[1..]);
    }
  }

  lemma {:induction false} BelowTransitive(a: string, b: string, c: string)
    requires Below(a, b) && Below(b, c)
    ensures Below(a, c)
    decreases |a|
  {
    if a != [] && a[0] == b[0] && b[0] == c[0] {
      BelowTransitive(a[1..], b[1..], c[1..]);
    }
  }

  lemma {:induction false} BelowTotal(a: string, b: string)
    requires a != b
    ensures Below(a, b) || Below(b, a)
    decreases |a|
  {
    if a != [] && b != [] && a[0] == b[0] {
      assert a == [a[0]] + a[1..] && b == [b[0]] + b[1..];
      BelowTotal(a[1..], b[1..]);
    }
  }

  /** `m` comes before every other member of `s`. */
  predicate IsLeast(m: string, s: set<string>) {
    m in s && forall x :: x in s && x != m ==> Below(m, x)
  }

  /** Every non-empty set of strings has a least member. */
  lemma {:induction false} LeastExists(s: set<string>)
    requires s != {}
    ensures exists m :: IsLeast(m, s)
    decreases s
  {
    var y :| y in s;
    if s != {y} {
      var rest := s - {y};
      LeastExists(rest);
      var m :| IsLeast(m, rest);
      if !Below(m, y) {
        BelowTotal(m, y);
        forall x | x in s && x != y ensures Below(y, x) {
          if x != m {
            BelowTransitive(y, m, x);
          }
        }
        assert IsLeast(y, s);
      } else {
        assert IsLeast(m, s);
      }
    } else {
      assert IsLeast(y, s);
    }
  }

  /** Strictly ascending, so also free of duplicates. */
  predicate Ascending(r: seq<string>) {
    forall i, j :: 0 <= i < j < |r| ==> Below(r[i], r[j])
  }

  /** `sorted(s)` of a set of strings: its members, each once, in ascending order. */
  method SortStrings(s: set<string>) returns (r: seq<string>)
    ensures Ascending(r)
    ensures forall x :: x in r <==> x in s
  {
    r := [];
    var todo := s;
    while todo != {}
      invariant forall x :: x in s <==> x in r || x in todo
      invariant forall x :: x in r ==> x !in todo
      invariant Ascending(r)
      invariant forall i, x :: 0 <= i < |r| && x in todo ==> Below(r[i], x)
      decreases todo
    {
      LeastExists(todo);
      var m :| IsLeast(m, todo);
      r := r + [m];
      todo := todo - {m};
    }
  }

  lemma AscendingDistinct(r: seq<string>, i: int, j: int)
    requires Ascending(r) && 0 <= i < j < |r|
    ensures r[i] != r[j]
  {
    BelowIrreflexive(r[i]);
  }

  // ---------------------------------------------------------------------
  // The symbols request
  // ---------------------------------------------------------------------

  /** A row of `symbols_req.csv`: the instrument (NaN possible), its score and its target weight. */
  datatype SymbolRow = SymbolRow(instrument: Option<string>, score: Float, weight: Float)

  /** `set(req_df["instrument"].dropna())` */
  function Candidates(req: seq<SymbolRow>): set<string> {
    set i | 0 <= i < |req| && req[i].instrument.Some? :: req[i].instrument.value
  }

  /** Placeholder rows for held symbols the prediction did not propose: NaN score and weight. */
  function Placeholders(names: seq<string>): (r: seq<SymbolRow>)
    ensures |r| == |names|
    ensures forall i :: 0 <= i < |names| ==> r[i] == SymbolRow(Some(names[i]), NaN, NaN)
  {
    if names == [] then [] else [SymbolRow(Some(names[0]), NaN, NaN)] + Placeholders(names[1..])
  }

  /**
   * `rows` is the symbols request for the candidate rows `req` and the held
   * symbols `held`: the candidate rows unchanged, then one placeholder row
   * per held symbol that no candidate names, in ascending order.
   */
  predicate IsSymbolsRequest(rows: seq<SymbolRow>, req: seq<SymbolRow>, held: set<string>) {
    |req| <= |rows| && rows[..|req|] == req &&
    (forall i :: |req| <= i < |rows| ==>
      rows[i].instrument.Some? && rows[i].score == NaN && rows[i].weight == NaN &&
      rows[i].instrument.value in held && rows[i].instrument.value !in Candidates(req)) &&
    (forall i, j :: |req| <= i < j < |rows| ==> Below(rows[i].instrument.value, rows[j].instrument.value)) &&
    (forall s :: s in held && s !in Candidates(req) ==> exists i :: |req| <= i < |rows| && rows[i].instrument == Some(s))
  }

  /** The symbols request of `main`: the candidates, then the sorted held symbols missing from them. */
  method BuildSymbolsRequest(req: seq<SymbolRow>, held: set<string>) returns (rows: seq<SymbolRow>)
    ensures IsSymbolsRequest(rows, req, held)
  {
    var extra := SortStrings(held - Candidates(req));
    var tail := Placeholders(extra);
    rows := req + tail;
    assert rows[..|req|] == req;
    forall i | |req| <= i < |rows|
      ensures rows[i] == SymbolRow(Some(extra[i - |req|]), NaN, NaN)
    {
      assert rows[i] == tail[i - |req|];
    }
    forall i | |req| <= i < |rows|
      ensures rows[i].instrument.value in held && rows[i].instrument.value !in Candidates(req)
    {
      assert extra[i - |req|] in extra;
    }
    forall s | s in held && s !in Candidates(req)
      ensures exists i :: |req| <= i < |rows| && rows[i].instrument == Some(s)
    {
      assert s in extra;
      var k :| 0 <= k < |extra| && extra[k] == s;
      assert rows[|req| + k] == tail[k];
    }
  }

  /** A held symbol that a candidate row names gets no placeholder: every symbol is requested once. */
  lemma RequestNamesHeldOnce(rows: seq<SymbolRow>, req: seq<SymbolRow>, held: set<string>, i: int, j: int)
    requires IsSymbolsRequest(rows, req, held)
    requires |req| <= i < j < |rows|
    ensures rows[i].instrument != rows[j].instrument
  {
    BelowIrreflexive(rows[i].instrument.value);
  }

  // ---------------------------------------------------------------------
  // The phase sequence of `main`
  // ---------------------------------------------------------------------

  /** The `runtime` section of the configuration. */
  datatype Runtime = Runtime(version: Option<string>, waitSecs: Option<int>, totalCash: Option<real>)

  /** `runtime.get("version") or <UTC timestamp>` */
  function RunVersion(rt: Runtime, stamp: string): string {
    if rt.version.Some? && rt.version.value != "" then rt.version.value else stamp
  }

  /** `int(runtime.get("wait_secs", 300))` */
  function WaitSecs(rt: Runtime): int {
    if rt.waitSecs.Some? then rt.waitSecs.value else 300
  }

  /** The cash used for trading: the positions file's CASH row, else `trading.total_cash`, else 50000. */
  function ActualCash(fromVenue: Option<real>, configured: Option<real>): real {
    if fromVenue.Some? then fromVenue.value
    else if configured.Some? then configured.value
    else 50000.0
  }

  /** What `main` does to the outside world, in order. */
  datatype Event =
    | RemoveState                          // the old state file is deleted
    | PutState(file: StoredState)          // `_write_state`
    | Wait(phase: string, version: string, result: WaitResult)
    | PutSymbols(rows: seq<SymbolRow>)     // `symbols_req.csv`
    | PutOrders(text: string)              // `orders_to_exec.csv`

  /** How `main` ends: it returns True, or it raises. */
  datatype RunEnd = Finished | Aborted(error: string)

  /** The five phase names are pairwise distinct. */
  lemma PhaseNamesDistinct()
    ensures "positions_needed" != "symbols_ready" && "positions_needed" != "orders_ready"
    ensures "symbols_ready" != "orders_ready"
    ensures "positions_ready" != "quotes_ready"
  {
    assert |"positions_needed"| == 16 && |"symbols_ready"| == 13 && |"orders_ready"| == 12;
    assert "positions_ready"[0] == 'p' && "quotes_ready"[0] == 'q';
  }

  /** The phases `main` writes, in order. */
  const GeneratorPhases: seq<string> := ["positions_needed", "symbols_ready", "orders_ready"]

  /** The venue phase `main` waits for before writing `phase`. */
  function Awaited(phase: string): string {
    if phase == "symbols_ready" then "positions_ready" else "quotes_ready"
  }

  /** The phases of the states written, in order. */
  function WrittenPhases(events: seq<Event>): seq<string> {
    if events == [] then [] else WrittenPhases(events[..|events| - 1]) + PhaseOf(events[|events| - 1])
  }

  /** A state written under version `v`. */
  predicate Versioned(f: StoredState, v: string) {
    f.Stored? && f.doc.Obj? && Get(f.doc.fields, "version") == Some(Str(v))
  }

  /**
   * `e` may follow `events` under version `v`: it carries `v`, and a
   * symbols_ready (orders_ready) state comes right after the symbols
   * (orders) file, which came right after the wait for positions_ready
   * (quotes_ready) returned.
   */
  predicate Fits(events: seq<Event>, e: Event, v: string) {
    (e.Wait? ==> e.version == v) &&
    (e.PutState? ==> Versioned(e.file, v)) &&
    (e.PutState? && Reached(ReadState(e.file), "symbols_ready", v) ==>
      2 <= |events| && events[|events| - 1].PutSymbols? && events[|events| - 2].Wait? &&
      events[|events| - 2].phase == "positions_ready" && events[|events| - 2].result.Ready?) &&
    (e.PutState? && Reached(ReadState(e.file), "orders_ready", v) ==>
      2 <= |events| && events[|events| - 1].PutOrders? && events[|events| - 2].Wait? &&
      events[|events| - 2].phase == "quotes_ready" && events[|events| - 2].result.Ready?)
  }

  /** Every event fits what came before it. */
  predicate Proper(events: seq<Event>, v: string)
    decreases |events|
  {
    events == [] ||
    (Proper(events[..|events| - 1], v) && Fits(events[..|events| - 1], events[|events| - 1], v))
  }

  /** A proper trace extended by a fitting event is proper, and its phases grow by the event's. */
  lemma ProperStep(events: seq<Event>, e: Event, v: string)
    requires Proper(events, v) && Fits(events, e, v)
    ensures Proper(events + [e], v)
    ensures WrittenPhases(events + [e]) == WrittenPhases(events) + PhaseOf(e)
  {
    assert (events + [e])[..|events|] == events;
  }

  /** Every prefix of a proper trace is proper. */
  lemma {:induction false} ProperPrefix(events: seq<Event>, v: string, n: int)
    requires Proper(events, v) && 0 <= n <= |events|
    ensures Proper(events[..n], v)
    decreases |events|
  {
    if n < |events| {
      var init := events[..|events| - 1];
      ProperPrefix(init, v, n);
      assert init[..n] == events[..n];
    } else {
      assert events[..n] == events;
    }
  }

  /** The phase an event writes, if it writes a state with a string phase. */
  function PhaseOf(e: Event): seq<string> {
    if e.PutState? && e.file.Stored? && e.file.doc.Obj? && Get(e.file.doc.fields, "phase").Some? &&
       Get(e.file.doc.fields, "phase").value.Str?
    then [Get(e.file.doc.fields, "phase").value.s] else []
  }

  /**
   * In a proper trace every state and every wait carries `v`, and each
   * symbols_ready and orders_ready state follows its file, which follows
   * the venue's reply.
   */
  lemma ProperMeans(events: seq<Event>, v: string, i: int)
    requires Proper(events, v) && 0 <= i < |events|
    ensures events[i].PutState? ==> Versioned(events[i].file, v)
    ensures events[i].Wait? ==> events[i].version == v
    ensures events[i].PutState? && Reached(ReadState(events[i].file), "symbols_ready", v) ==>
      2 <= i && events[i - 1].PutSymbols? && events[i - 2].Wait? && events[i - 2].phase == "positions_ready" &&
      events[i - 2].version == v && events[i - 2].result.Ready?
    ensures events[i].PutState? && Reached(ReadState(events[i].file), "orders_ready", v) ==>
      2 <= i && events[i - 1].PutOrders? && events[i - 2].Wait? && events[i - 2].phase == "quotes_ready" &&
      events[i - 2].version == v && events[i - 2].result.Ready?
  {
    ProperPrefix(events, v, i + 1);
    assert events[..i + 1][..i] == events[..i] && events[..i + 1][i] == events[i];
    assert Fits(events[..i], events[i], v);
    if i >= 2 {
      assert events[..i][i - 1] == events[i - 1] && events[..i][i - 2] == events[i - 2];
      ProperPrefix(events, v, i - 1);
      assert events[..i - 1][..i - 2] == events[..i - 2] && events[..i - 1][i - 2] == events[i - 2];
      assert Fits(events[..i - 2], events[i - 2], v);
    }
  }

  /**
   * `_write_state` at the end of a trace: the state announces `phase` under
   * `version`. A symbols_ready (orders_ready) state may only follow the
   * symbols (orders) file, written after the venue's positions_ready
   * (quotes_ready) was seen.
   */
  method Announce(events: seq<Event>, phase: string, version: string, stamp: string, extra: map<string, StateValue>)
    returns (r: seq<Event>)
    requires "phase" !in extra && "version" !in extra
    requires Proper(events, version)
    requires phase == "symbols_ready" ==>
      2 <= |events| && events[|events| - 1].PutSymbols? && events[|events| - 2].Wait? &&
      events[|events| - 2].phase == "positions_ready" && events[|events| - 2].result.Ready?
    requires phase == "orders_ready" ==>
      2 <= |events| && events[|events| - 1].PutOrders? && events[|events| - 2].Wait? &&
      events[|events| - 2].phase == "quotes_ready" && events[|events| - 2].result.Ready?
    ensures r == events + [PutState(WriteState(phase, Str(version), stamp, extra))]
    ensures Proper(r, version)
    ensures WrittenPhases(r) == WrittenPhases(events) + [phase]
  {
    var e := PutState(WriteState(phase, Str(version), stamp, extra));
    WrittenStateReached(phase, version, stamp, extra);
    WrittenStateReadsBack(phase, Str(version), stamp, extra);
    ProperStep(events, e, version);
    r := events + [e];
  }

  /** Appending an event that writes no state keeps the trace proper and its phases. */
  lemma QuietStep(events: seq<Event>, e: Event, v: string)
    requires Proper(events, v) && !e.PutState? && (e.Wait? ==> e.version == v)
    ensures Proper(events + [e], v)
    ensures WrittenPhases(events + [e]) == WrittenPhases(events)
  {
    ProperStep(events, e, v);
  }

  /**
   * Phase 0 of `main`: reset the state file, write positions_needed and
   * wait for the venue's positions_ready under the same version.
   */
  method RequestPositions(version: string, stamp: string, timeout: int, oldState: bool, polls: seq<Poll>)
    returns (events: seq<Event>, w: WaitResult)
    ensures Proper(events, version)
    ensures WrittenPhases(events) == ["positions_needed"]
    ensures oldState <==> events[0] == RemoveState
    ensures w == WaitFrom(polls, 0, "positions_ready", version, timeout)
    ensures |events| >= 2 && events[|events| - 1] == Wait("positions_ready", version, w)
  {
    PhaseNamesDistinct();
    events := [];
    if oldState {
      QuietStep(events, RemoveState, version);
      events := events + [RemoveState];
    }
    events := Announce(events, "positions_needed", version, stamp, map[]);
    w := WaitForPhase(polls, "positions_ready", version, timeout);
    QuietStep(events, Wait("positions_ready", version, w), version);
    events := events + [Wait("positions_ready", version, w)];
  }

  /**
   * Phase 1 of `main`, once positions_ready was seen: write the symbols
   * request, then symbols_ready, and wait for the venue's quotes_ready.
   */
  method RequestQuotes(events: seq<Event>, version: string, stamp: string, timeout: int,
                       req: seq<SymbolRow>, held: set<string>, polls: seq<Poll>)
    returns (r: seq<Event>, w: WaitResult)
    requires Proper(events, version) && WrittenPhases(events) == ["positions_needed"]
    requires |events| >= 1 && events[|events| - 1].Wait? && events[|events| - 1].phase == "positions_ready" &&
      events[|events| - 1].version == version && events[|events| - 1].result.Ready?
    ensures Proper(r, version)
    ensures WrittenPhases(r) == ["positions_needed", "symbols_ready"]
    ensures |r| == |events| + 3 && r[..|events|] == events
    ensures r[|events|].PutSymbols? && IsSymbolsRequest(r[|events|].rows, req, held)
    ensures w == WaitFrom(polls, 0, "quotes_ready", version, timeout)
    ensures r[|r| - 1] == Wait("quotes_ready", version, w)
  {
    PhaseNamesDistinct();
    var rows := BuildSymbolsRequest(req, held);
    QuietStep(events, PutSymbols(rows), version);
    r := events + [PutSymbols(rows)];
    r := Announce(r, "symbols_ready", version, stamp, map["symbols" := Str("symbols_req.csv")]);
    w := WaitForPhase(polls, "quotes_ready", version, timeout);
    QuietStep(r, Wait("quotes_ready", version, w), version);
    r := r + [Wait("quotes_ready", version, w)];
  }

  /** Phase 2 of `main`, once quotes_ready was seen: write the orders, then orders_ready. */
  method SubmitOrders(events: seq<Event>, version: string, stamp: string, text: string) returns (r: seq<Event>)
    requires Proper(events, version) && WrittenPhases(events) == ["positions_needed", "symbols_ready"]
    requires |events| >= 1 && events[|events| - 1].Wait? && events[|events| - 1].phase == "quotes_ready" &&
      events[|events| - 1].version == version && events[|events| - 1].result.Ready?
    ensures Proper(r, version)
    ensures WrittenPhases(r) == GeneratorPhases
    ensures r == events + [PutOrders(text), PutState(WriteState("orders_ready", Str(version), stamp, map["orders" := Str("orders_to_exec.csv")]))]
  {
    PhaseNamesDistinct();
    QuietStep(events, PutOrders(text), version);
    r := events + [PutOrders(text)];
    r := Announce(r, "orders_ready", version, stamp, map["orders" := Str("orders_to_exec.csv")]);
  }

  /** The phases written after each step are the steps' prefixes of the whole sequence. */
  lemma GeneratorPrefixes()
    ensures ["positions_needed"] <= GeneratorPhases && ["positions_needed"] != GeneratorPhases
    ensures ["positions_needed", "symbols_ready"] <= GeneratorPhases
    ensures ["positions_needed", "symbols_ready"] != GeneratorPhases
  {
  }

  /**
   * A run that got to the end: both files parsed, the positions file was
   * not bare, the symbols file asked for the candidates and the holdings,
   * and the orders file is the one rendered from the holdings, the cash and
   * the quotes.
   */
  predicate Completed(events: seq<Event>, rt: Runtime, positionsPath: string, positions: Option<Table>,
                      quotesPath: string, quotes: Option<Table>, parse: string -> Option<real>,
                      req: seq<SymbolRow>, makeOrders: (map<string, real>, real, Quotes) -> string)
  {
    var pr := ParsePositions(positionsPath, positions, PositionsReader(parse));
    var qr := ParseQuotes(quotesPath, quotes, QuotesReader(parse));
    pr.Ok? && qr.Ok? && CompletedWith(events, req, pr.value, qr.value, rt.totalCash, makeOrders)
  }

  /** The trace ends with the symbols request for `pos`, and the orders rendered from `pos` and `q`. */
  predicate CompletedWith(events: seq<Event>, req: seq<SymbolRow>, pos: PositionsRead, q: Quotes, configured: Option<real>,
                          makeOrders: (map<string, real>, real, Quotes) -> string)
  {
    var n := |events|;
    pos.Positions? && n >= 6 &&
    events[n - 5].PutSymbols? && IsSymbolsRequest(events[n - 5].rows, req, pos.holdings.Keys) &&
    events[n - 2] == PutOrders(makeOrders(pos.holdings, ActualCash(pos.cash, configured), q))
  }

  /** Appending the orders and their state to a trace that asked for the symbols three events from its end completes it. */
  lemma CompletedByOrders(asked: seq<Event>, k: int, req: seq<SymbolRow>, pos: PositionsRead, q: Quotes,
                          configured: Option<real>, makeOrders: (map<string, real>, real, Quotes) -> string, last: Event)
    requires pos.Positions? && 1 <= k && |asked| == k + 3
    requires asked[k].PutSymbols? && IsSymbolsRequest(asked[k].rows, req, pos.holdings.Keys)
    ensures CompletedWith(asked + [PutOrders(makeOrders(pos.holdings, ActualCash(pos.cash, configured), q)), last],
                          req, pos, q, configured, makeOrders)
  {
    var r := asked + [PutOrders(makeOrders(pos.holdings, ActualCash(pos.cash, configured), q)), last];
    assert r[|r| - 5] == asked[k];
  }

  /**
   * The end of `main`: read the quotes and, when that succeeds, write the
   * orders rendered from them and announce orders_ready.
   */
  method FinishOrders(events: seq<Event>, version: string, stamp: string,
                      quotesPath: string, quotes: Option<Table>, parse: string -> Option<real>,
                      holdings: map<string, real>, cash: real, makeOrders: (map<string, real>, real, Quotes) -> string)
    returns (r: seq<Event>, end: RunEnd)
    requires Proper(events, version) && WrittenPhases(events) == ["positions_needed", "symbols_ready"]
    requires |events| >= 1 && events[|events| - 1].Wait? && events[|events| - 1].phase == "quotes_ready" &&
      events[|events| - 1].version == version && events[|events| - 1].result.Ready?
    ensures Proper(r, version)
    ensures var qr := ParseQuotes(quotesPath, quotes, QuotesReader(parse));
      (end.Finished? <==> qr.Ok?) &&
      (qr.Ok? ==> r == events + [PutOrders(makeOrders(holdings, cash, qr.value)),
                                 PutState(WriteState("orders_ready", Str(version), stamp, map["orders" := Str("orders_to_exec.csv")]))]) &&
      (qr.Raised? ==> r == events)
    ensures end.Finished? ==> WrittenPhases(r) == GeneratorPhases
  {
    var live := ReadQuotes(quotesPath, quotes, QuotesReader(parse));
    if live.Raised? {
      return events, Aborted(live.error);
    }
    var text := makeOrders(holdings, cash, live.value);
    r := SubmitOrders(events, version, stamp, text);
    end := Finished;
  }

  /**
   * `main` once the venue's positions_ready was seen: read the positions,
   * request the quotes, wait for them and finish.
   */
  method AfterPositions(events: seq<Event>, rt: Runtime, version: string, stamp: string, timeout: int,
                        positionsPath: string, positions: Option<Table>,
                        quotesPath: string, quotes: Option<Table>, parse: string -> Option<real>,
                        secondPolls: seq<Poll>, req: seq<SymbolRow>, makeOrders: (map<string, real>, real, Quotes) -> string)
    returns (r: seq<Event>, end: RunEnd)
    requires Proper(events, version) && WrittenPhases(events) == ["positions_needed"]
    requires |events| >= 1 && events[|events| - 1].Wait? && events[|events| - 1].phase == "positions_ready" &&
      events[|events| - 1].version == version && events[|events| - 1].result.Ready?
    ensures Proper(r, version)
    ensures |r| >= |events| && r[..|events|] == events
    ensures WrittenPhases(r) <= GeneratorPhases
    ensures end.Finished? <==> WrittenPhases(r) == GeneratorPhases
    ensures end.Finished? ==> Completed(r, rt, positionsPath, positions, quotesPath, quotes, parse, req, makeOrders)
  {
    GeneratorPrefixes();
    PhaseNamesDistinct();
    r := events;
    var read := ReadPositions(positionsPath, positions, PositionsReader(parse));
    if read.Raised? {
      return r, Aborted(read.error);
    }
    if read.value.BareEmpty? {
      return r, Aborted("ValueError: not enough values to unpack");
    }
    var holdings := read.value.holdings;
    var cash := ActualCash(read.value.cash, rt.totalCash);
    var w2;
    r, w2 := RequestQuotes(events, version, stamp, timeout, req, holdings.Keys, secondPolls);
    if !w2.Ready? {
      return r, Aborted(WaitError(w2));
    }
    ghost var asked := r;
    r, end := FinishOrders(r, version, stamp, quotesPath, quotes, parse, holdings, cash, makeOrders);
    if end.Finished? {
      assert r[..|asked|] == asked;
      assert r[..|events|] == asked[..|events|];
      ghost var qr := ParseQuotes(quotesPath, quotes, QuotesReader(parse));
      CompletedByOrders(asked, |events|, req, read.value, qr.value, rt.totalCash, makeOrders, r[|r| - 1]);
    }
  }

  /**
   * The handshake of `main`. The prediction pipeline is given by its
   * candidate rows `req` and by `makeOrders`, which renders the order file
   * from the holdings, the cash and the quotes.
   */
  method RunHandshake(rt: Runtime, stamp: string, oldState: bool,
              positionsPath: string, positions: Option<Table>,
              quotesPath: string, quotes: Option<Table>, parse: string -> Option<real>,
              firstPolls: seq<Poll>, secondPolls: seq<Poll>,
              req: seq<SymbolRow>, makeOrders: (map<string, real>, real, Quotes) -> string)
    returns (events: seq<Event>, end: RunEnd)
    ensures Proper(events, RunVersion(rt, stamp))
    ensures WrittenPhases(events) <= GeneratorPhases
    ensures end.Finished? <==> WrittenPhases(events) == GeneratorPhases
    ensures |events| >= 2 && (oldState <==> events[0] == RemoveState)
    ensures end.Finished? ==> Completed(events, rt, positionsPath, positions, quotesPath, quotes, parse, req, makeOrders)
  {
    var version := RunVersion(rt, stamp);
    var timeout := WaitSecs(rt);
    var w1;
    events, w1 := RequestPositions(version, stamp, timeout, oldState, firstPolls);
    if !w1.Ready? {
      GeneratorPrefixes();
      return events, Aborted(WaitError(w1));
    }
    ghost var first := events;
    events, end := AfterPositions(events, rt, version, stamp, timeout, positionsPath, positions,
                                  quotesPath, quotes, parse, secondPolls, req, makeOrders);
    assert events[0] == events[..|first|][0] == first[0];
  }
}
