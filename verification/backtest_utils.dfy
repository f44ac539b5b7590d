/**
 * The backtest's trade calendar manager and the infrastructure containers
 * strategies and executors share. Timestamps are integers (seconds), the
 * global calendar is a sorted sequence of them, and the calendar library's
 * lookups are given as arguments.
 */
module BacktestUtils {
  import opened Common

  /** numpy indexing `a[i]`: negative indices count from the end; out of range raises IndexError (None). */
  function PyIndex<T>(a: seq<T>, i: int): (r: Option<T>)
    ensures 0 <= i < |a| ==> r == Some(a[i])
    ensures -|a| <= i < 0 ==> r == Some(a[|a| + i])
    ensures r.None? <==> i < -|a| || i >= |a|
  {
    if 0 <= i < |a| then Some(a[i])
    else if -|a| <= i < 0 then Some(a[|a| + i])
    else None
  }

  /** The calendar is in increasing order. */
  predicate Sorted(cal: seq<int>) {
    forall i, j :: 0 <= i < j < |cal| ==> cal[i] <= cal[j]
  }

  /** `np.searchsorted(cal, t, side="right")`: how many entries are at most `t`. */
  function SearchSortedRight(cal: seq<int>, t: int): (r: nat)
    ensures r <= |cal|
  {
    if cal == [] then 0
    else if cal[|cal| - 1] <= t then |cal|
    else SearchSortedRight(cal[..|cal| - 1], t)
  }

  /** On a sorted calendar the search splits it into the entries at most `t` and those after. */
  lemma {:induction false} SearchSortedRightSplits(cal: seq<int>, t: int)
    requires Sorted(cal)
    ensures forall i :: 0 <= i < SearchSortedRight(cal, t) ==> cal[i] <= t
    ensures forall i :: SearchSortedRight(cal, t) <= i < |cal| ==> cal[i] > t
  {
    if cal != [] && cal[|cal| - 1] > t {
      SearchSortedRightSplits(cal[..|cal| - 1], t);
    }
  }

  /** A later timestamp is found no earlier. */
  lemma {:induction false} SearchSortedRightMonotone(cal: seq<int>, t: int, u: int)
    requires t <= u
    ensures SearchSortedRight(cal, t) <= SearchSortedRight(cal, u)
  {
    if cal != [] && cal[|cal| - 1] > t {
      if cal[|cal| - 1] > u {
        SearchSortedRightMonotone(cal[..|cal| - 1], t, u);
      }
    }
  }

  class TradeCalendarManager {
    var freq: string
    var startTime: Option<int>
    var endTime: Option<int>
    var calendar: seq<int>
    var startIndex: int
    var endIndex: int
    var tradeLen: int
    var tradeStep: int

    /**
     * `__init__`, which resets. `calendar` is the calendar library's
     * calendar for `freq`; `startIdx`/`endIdx` are what its index lookup
     * gives for the two bounds.
     */
    constructor(freq: string, startTime: Option<int>, endTime: Option<int>,
                calendar: seq<int>, startIdx: int, endIdx: int)
      ensures this.freq == freq && this.startTime == startTime && this.endTime == endTime
      ensures this.calendar == calendar
      ensures startIndex == startIdx && endIndex == endIdx
      ensures tradeLen == endIdx - startIdx + 1 && tradeStep == 0
      ensures StepInRange()
    {
      this.freq := freq;
      this.startTime := startTime;
      this.endTime := endTime;
      this.calendar := calendar;
      startIndex := startIdx;
      endIndex := endIdx;
      tradeLen := endIdx - startIdx + 1;
      tradeStep := 0;
    }

    /** `reset`: a new range, and no step taken yet. */
    method Reset(freq: string, startTime: Option<int>, endTime: Option<int>,
                 calendar: seq<int>, startIdx: int, endIdx: int)
      modifies this
      ensures this.freq == freq && this.startTime == startTime && this.endTime == endTime
      ensures this.calendar == calendar
      ensures startIndex == startIdx && endIndex == endIdx
      ensures tradeLen == endIdx - startIdx + 1 && tradeStep == 0
      ensures !Finished() <==> startIdx <= endIdx
      ensures StepInRange()
    {
      this.freq := freq;
      this.startTime := startTime;
      this.endTime := endTime;
      this.calendar := calendar;
      startIndex := startIdx;
      endIndex := endIdx;
      tradeLen := endIdx - startIdx + 1;
      tradeStep := 0;
    }

    /** The step counter stays between zero and the range length (or zero for an empty range). */
    predicate StepInRange()
      reads this
    {
      0 <= tradeStep <= MaxInt(tradeLen, 0)
    }

    /** `finished`: every step of the range has been taken. */
    predicate Finished()
      reads this
    {
      tradeStep >= tradeLen
    }

    /**
     * `step`: RuntimeError on a finished calendar; otherwise exactly one
     * more step and nothing else changes.
     */
    method Step() returns (err: Option<string>)
      modifies this
      ensures old(Finished()) ==> err.Some? && tradeStep == old(tradeStep)
      ensures !old(Finished()) ==> err.None? && tradeStep == old(tradeStep) + 1
      ensures freq == old(freq) && startTime == old(startTime) && endTime == old(endTime)
      ensures calendar == old(calendar) && startIndex == old(startIndex) && endIndex == old(endIndex)
      ensures tradeLen == old(tradeLen)
      ensures old(StepInRange()) ==> StepInRange()
    {
      if Finished() {
        return Some("The calendar is finished, please reset it if you want to call it!");
      }
      tradeStep := tradeStep + 1;
      return None;
    }

    /** The calendar index `get_step_time` reads: the current step when none is given. */
    function StepIndex(step: Option<int>, shift: int): int
      reads this
    {
      startIndex + (if step.Some? then step.value else tradeStep) - shift
    }

    /**
     * `get_step_time`: the calendar entry at the step's index and the
     * `epsilonChange` of the next entry; an index numpy rejects raises.
     */
    function GetStepTime(step: Option<int>, shift: int, epsilonChange: int -> int): (r: Outcome<(int, int)>)
      reads this
      ensures var i := StepIndex(step, shift);
              0 <= i && i + 1 < |calendar| ==> r == Ok((calendar[i], epsilonChange(calendar[i + 1])))
      ensures var i := StepIndex(step, shift);
              (i < -|calendar| || i + 1 >= |calendar|) ==> r.Raised?
    {
      var i := StepIndex(step, shift);
      var a := PyIndex(calendar, i);
      var b := PyIndex(calendar, i + 1);
      if a.Some? && b.Some? then Ok((a.value, epsilonChange(b.value))) else Raised("IndexError")
    }

    /** `clip` inside `get_range_idx`. */
    function Clip(idx: int): int
      reads this
    {
      MinInt(MaxInt(0, idx), tradeLen - 1)
    }

    /**
     * `get_range_idx`: the calendar positions of the last entries at or
     * before each bound, relative to the range start, clipped to the range.
     */
    function GetRangeIdx(startT: int, endT: int): (r: (int, int))
      reads this
      ensures tradeLen >= 1 ==> 0 <= r.0 <= tradeLen - 1 && 0 <= r.1 <= tradeLen - 1
      ensures startT <= endT ==> r.0 <= r.1
    {
      var left := SearchSortedRight(calendar, startT) - 1 - startIndex;
      var right := SearchSortedRight(calendar, endT) - 1 - startIndex;
      if startT <= endT then
        SearchSortedRightMonotone(calendar, startT, endT);
        (Clip(left), Clip(right))
      else (Clip(left), Clip(right))
    }
  }

  /** The index range inside the trading day `get_data_cal_range` is asked for. */
  datatype RangeType = Full | StepRange | OtherRange(name: string)

  /**
   * `get_data_cal_range`: the located range of the whole period ("full")
   * or of the current step ("step"), relative to the day's first index;
   * any other type raises ValueError.
   */
  function GetDataCalRange(rtype: RangeType, dayStartIdx: int, fullRange: (int, int), stepRange: (int, int)): (r: Outcome<(int, int)>)
    ensures rtype.OtherRange? <==> r.Raised?
    ensures rtype == Full ==> r == Ok((fullRange.0 - dayStartIdx, fullRange.1 - dayStartIdx))
    ensures rtype == StepRange ==> r == Ok((stepRange.0 - dayStartIdx, stepRange.1 - dayStartIdx))
  {
    match rtype
    case Full => Ok((fullRange.0 - dayStartIdx, fullRange.1 - dayStartIdx))
    case StepRange => Ok((stepRange.0 - dayStartIdx, stepRange.1 - dayStartIdx))
    case OtherRange(name) => Raised("This type of input " + name + " is not supported")
  }

  /** What an outer decision's `get_range_limit` does. */
  datatype RangeLimit = Limit(start: int, end: int) | NotImplemented | Fails(error: string)

  /**
   * `get_start_end_idx`: the outer decision's limit, or the whole calendar
   * when the decision does not implement one; other errors propagate.
   */
  function GetStartEndIdx(cal: TradeCalendarManager, limit: RangeLimit): (r: Outcome<(int, int)>)
    reads cal
    ensures limit.NotImplemented? ==> r == Ok((0, cal.tradeLen - 1))
    ensures limit.Limit? ==> r == Ok((limit.start, limit.end))
    ensures limit.Fails? ==> r == Raised(limit.error)
  {
    match limit
    case Limit(s, e) => Ok((s, e))
    case NotImplemented => Ok((0, cal.tradeLen - 1))
    case Fails(err) => Raised(err)
  }

  /** The two concrete infrastructures. */
  datatype InfraKind = CommonInfra | LevelInfra

  /** `get_support_infra` of each kind. */
  function SupportInfra(kind: InfraKind): set<string> {
    match kind
    case CommonInfra => {"trade_account", "trade_exchange"}
    case LevelInfra => {"trade_calendar", "sub_level_infra", "common_infra", "executor"}
  }

  /** An infrastructure holds named components; `setattr` becomes a map update. */
  class Infrastructure<V> {
    const kind: InfraKind
    var attrs: map<string, V>

    /** Only supported names are ever stored. */
    predicate Valid()
      reads this
    {
      attrs.Keys <= SupportInfra(kind)
    }

    /** `__init__`: an empty infrastructure reset with `kwargs`. */
    constructor(kind: InfraKind, kwargs: map<string, V>)
      ensures this.kind == kind && Valid()
      ensures attrs == Supported(kind, kwargs)
    {
      this.kind := kind;
      attrs := Supported(kind, kwargs);
    }

    /**
     * `reset_infra`: supported names are set (overwriting), the others are
     * returned as the ignored ones and leave no trace.
     */
    method ResetInfra(kwargs: map<string, V>) returns (ignored: set<string>)
      requires Valid()
      modifies this
      ensures Valid()
      ensures attrs == old(attrs) + Supported(kind, kwargs)
      ensures ignored == kwargs.Keys - SupportInfra(kind)
    {
      attrs := attrs + Supported(kind, kwargs);
      ignored := kwargs.Keys - SupportInfra(kind);
    }

    /** `get`: the component, or nothing (with a warning) when it is not set. */
    function Get(name: string): (r: Option<V>)
      reads this
      ensures r.Some? <==> name in attrs
      ensures r.Some? ==> r.value == attrs[name]
    {
      if name in attrs then Some(attrs[name]) else None
    }

    /** `has`: the name is supported and set. */
    predicate Has(name: string)
      reads this
    {
      name in SupportInfra(kind) && name in attrs
    }

    /** `update`: copy every supported component the other one has. */
    method Update(other: Infrastructure<V>) returns (ignored: set<string>)
      requires Valid() && other.Valid()
      modifies this
      ensures Valid()
      ensures attrs == old(attrs) + Supported(kind, other.attrs)
      ensures ignored == other.attrs.Keys - SupportInfra(kind)
    {
      var infraDict := map k | k in other.attrs && k in SupportInfra(other.kind) :: other.attrs[k];
      assert infraDict == other.attrs;
      ignored := ResetInfra(infraDict);
    }
  }

  /** The supported part of a keyword set. */
  function Supported<V>(kind: InfraKind, kwargs: map<string, V>): (r: map<string, V>)
    ensures r.Keys == kwargs.Keys * SupportInfra(kind)
    ensures forall k :: k in r ==> r[k] == kwargs[k]
  {
    map k | k in kwargs && k in SupportInfra(kind) :: kwargs[k]
  }

  /** After a reset, a name is present exactly when it was before or was passed and is supported. */
  lemma ResetInfraHas<V>(kind: InfraKind, before: map<string, V>, kwargs: map<string, V>, name: string)
    requires before.Keys <= SupportInfra(kind)
    ensures name in before + Supported(kind, kwargs) <==>
            name in before || (name in kwargs && name in SupportInfra(kind))
  {
  }

  /** In a valid infrastructure `has` is plain presence. */
  lemma HasIsPresence<V>(infra: Infrastructure<V>, name: string)
    requires infra.Valid()
    ensures infra.Has(name) <==> name in infra.attrs
  {
  }
}
