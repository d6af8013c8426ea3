/**
 * The algorithm executor: it builds the live clock for an algorithm and then
 * dispatches each clock event to a fixed sequence of updates and callbacks.
 * The algorithm's own reaction to a new datetime and the user callbacks are
 * outside this model; what the executor does to them is recorded as calls,
 * and whether a user callback raises at a given datetime is a parameter.
 */
module Executor {
  import opened Wrappers
  import opened TimeModel
  import opened ClockRules
  import opened ApiContext

  /** What the executor does, in order, when handling an event. */
  datatype Effect =
    | CacheClear                  // `data_portal.cache_clear()`
    | DtChanged(dt: int)          // `algo.on_dt_changed(dt)`
    | DataDatetime(dt: int)       // `current_data.datetime = dt`
    | HandleData(dt: int)         // the event manager's `handle_data`
    | PortfolioNeedsUpdate        // `algo.portfolio_needs_update = True`
    | ErrorLogged(dt: int)        // the exception of a bar, logged and swallowed
    | BeforeTradingStart(dt: int) // `algo.before_trading_start(current_data)`

  /** Which user callbacks raise, by the datetime they are called with. */
  datatype Callbacks = Callbacks(handleDataRaises: int -> bool, btsRaises: int -> bool)

  /**
   * The effects of one event, whether an exception leaves the handler, and
   * the datetime it gave the bar data, if any.
   */
  datatype Handled = Handled(effects: seq<Effect>, raised: bool, datetime: Option<int>)

  /**
   * `every_bar` under `handle_retry`: the work up to the callback happens in
   * any case; the flag is set only when the callback returned. A raising
   * callback is logged and swallowed under `retry` and propagates otherwise.
   */
  function EveryBar(cb: Callbacks, retry: bool, dt: int): Handled
  {
    var work := [CacheClear, DtChanged(dt), DataDatetime(dt), HandleData(dt)];
    if !cb.handleDataRaises(dt) then Handled(work + [PortfolioNeedsUpdate], false, Some(dt))
    else if retry then Handled(work + [ErrorLogged(dt)], false, Some(dt))
    else Handled(work, true, Some(dt))
  }

  /** The dispatch of one clock event. */
  function Handle(cb: Callbacks, retry: bool, e: ClockEvent): (h: Handled)
    ensures h.datetime.None? <==> e.kind == MinuteEnd || e.kind == SessionEnd
    ensures h.datetime.Some? ==> h.datetime.value == e.dt
    ensures h.datetime.None? ==> h.effects == [] && !h.raised
    ensures h.raised ==> e.kind == Bar || e.kind == BeforeTradingStartBar
  {
    match e.kind
    case Bar => EveryBar(cb, retry, e.dt)
    case SessionStart => Handled([DtChanged(e.dt), DataDatetime(e.dt)], false, Some(e.dt))
    case BeforeTradingStartBar =>
      Handled([DtChanged(e.dt), DataDatetime(e.dt), BeforeTradingStart(e.dt)], cb.btsRaises(e.dt), Some(e.dt))
    case MinuteEnd => Handled([], false, None)
    case SessionEnd => Handled([], false, None)
  }

  /**
   * The effects of a run, the index of the event that ended it by raising,
   * if any, and the last datetime it gave the bar data, if any.
   */
  datatype Trace = Trace(effects: seq<Effect>, raisedAt: Option<nat>, datetime: Option<int>)

  /** The loop of `run` over a finite prefix of the clock's events. */
  function Execute(cb: Callbacks, retry: bool, evs: seq<ClockEvent>): (t: Trace)
    ensures t.raisedAt.Some? ==> t.raisedAt.value < |evs|
    ensures t.datetime.None? ==> (t.raisedAt.None? && t.effects == [] &&
      forall i :: 0 <= i < |evs| ==> evs[i].kind == MinuteEnd || evs[i].kind == SessionEnd)
    decreases |evs|
  {
    if |evs| == 0 then Trace([], None, None)
    else
      var p := Execute(cb, retry, evs[..|evs| - 1]);
      if p.raisedAt.Some? then p
      else
        var h := Handle(cb, retry, evs[|evs| - 1]);
        Trace(p.effects + h.effects, if h.raised then Some(|evs| - 1) else None,
              if h.datetime.Some? then h.datetime else p.datetime)
  }

  /** Whether handling `e` raises. */
  predicate RaisesOn(cb: Callbacks, retry: bool, e: ClockEvent)
  {
    Handle(cb, retry, e).raised
  }

  /**
   * A run ends by raising exactly at the first event whose handler raises;
   * with no such event it handles every event.
   */
  lemma {:induction false} ExecuteStopsAtFirstRaise(cb: Callbacks, retry: bool, evs: seq<ClockEvent>)
    ensures var t := Execute(cb, retry, evs);
      (t.raisedAt.None? <==> forall i :: 0 <= i < |evs| ==> !RaisesOn(cb, retry, evs[i]))
      && (t.raisedAt.Some? ==>
            t.raisedAt.value < |evs| && RaisesOn(cb, retry, evs[t.raisedAt.value])
            && forall i :: 0 <= i < t.raisedAt.value ==> !RaisesOn(cb, retry, evs[i]))
    decreases |evs|
  {
    if |evs| > 0 {
      var pre := evs[..|evs| - 1];
      ExecuteStopsAtFirstRaise(cb, retry, pre);
      assert forall i :: 0 <= i < |pre| ==> pre[i] == evs[i];
    }
  }

  /**
   * The error policy covers bars only: under `retry` the one event that can
   * end a run is a before-trading-start bar whose callback raised; without
   * `retry` a raising bar callback ends it too.
   */
  lemma OnlyUnretriedCallbacksRaise(cb: Callbacks, retry: bool, e: ClockEvent)
    ensures RaisesOn(cb, retry, e) <==>
      (e.kind == BeforeTradingStartBar && cb.btsRaises(e.dt))
      || (e.kind == Bar && !retry && cb.handleDataRaises(e.dt))
  {
  }

  /** The number of events of kind `k`. */
  function CountKind(evs: seq<ClockEvent>, k: EventKind): nat
    decreases |evs|
  {
    if |evs| == 0 then 0
    else CountKind(evs[..|evs| - 1], k) + (if evs[|evs| - 1].kind == k then 1 else 0)
  }

  /** The number of `handle_data` calls among `effs`. */
  function CountHandleData(effs: seq<Effect>): nat
    decreases |effs|
  {
    if |effs| == 0 then 0
    else (if effs[0].HandleData? then 1 else 0) + CountHandleData(effs[1..])
  }

  lemma {:induction false} CountHandleDataAppend(a: seq<Effect>, b: seq<Effect>)
    ensures CountHandleData(a + b) == CountHandleData(a) + CountHandleData(b)
    decreases |a|
  {
    if |a| > 0 {
      assert (a + b)[0] == a[0] && (a + b)[1..] == a[1..] + b;
      CountHandleDataAppend(a[1..], b);
    } else {
      assert a + b == b;
    }
  }

  /**
   * A run that handles every event calls `handle_data` once per BAR event,
   * whether or not the callback raised.
   */
  lemma {:induction false} HandleDataOncePerBar(cb: Callbacks, retry: bool, evs: seq<ClockEvent>)
    requires Execute(cb, retry, evs).raisedAt.None?
    ensures CountHandleData(Execute(cb, retry, evs).effects) == CountKind(evs, Bar)
    decreases |evs|
  {
    if |evs| > 0 {
      var pre := evs[..|evs| - 1];
      var e := evs[|evs| - 1];
      HandleDataOncePerBar(cb, retry, pre);
      var h := Handle(cb, retry, e);
      CountHandleDataAppend(Execute(cb, retry, pre).effects, h.effects);
      HandleCount(cb, retry, e);
    }
  }

  /** A BAR's handler calls `handle_data` once, every other handler never. */
  lemma HandleCount(cb: Callbacks, retry: bool, e: ClockEvent)
    ensures CountHandleData(Handle(cb, retry, e).effects) == if e.kind == Bar then 1 else 0
  {
    var effs := Handle(cb, retry, e).effects;
    assert forall k :: 0 <= k < |effs| ==> (effs[k].HandleData? <==> e.kind == Bar && k == 3);
    var j := |effs|;
    while j > 0
      invariant 0 <= j <= |effs|
      invariant CountHandleData(effs[j..]) == if e.kind == Bar && j <= 3 then 1 else 0
    {
      j := j - 1;
      CountSuffix(effs, j);
    }
    assert effs[0..] == effs;
  }

  lemma CountSuffix(effs: seq<Effect>, j: nat)
    requires j <= |effs|
    ensures CountHandleData(effs[j..]) ==
      if j == |effs| then 0 else (if effs[j].HandleData? then 1 else 0) + CountHandleData(effs[j + 1..])
  {
    if j < |effs| {
      assert effs[j..][1..] == effs[j + 1..];
    }
  }

  /**
   * Every `handle_data(dt)` call comes right after the cache was cleared, the
   * algorithm's datetime moved to `dt` and the bar data's datetime set to `dt`.
   */
  predicate PreparedCallbacks(effs: seq<Effect>)
  {
    forall k :: 0 <= k < |effs| && effs[k].HandleData? ==>
      3 <= k && effs[k - 3] == CacheClear && effs[k - 2] == DtChanged(effs[k].dt)
      && effs[k - 1] == DataDatetime(effs[k].dt)
  }

  lemma {:induction false} ExecutePreparesCallbacks(cb: Callbacks, retry: bool, evs: seq<ClockEvent>)
    ensures PreparedCallbacks(Execute(cb, retry, evs).effects)
    decreases |evs|
  {
    if |evs| > 0 {
      var pre := evs[..|evs| - 1];
      ExecutePreparesCallbacks(cb, retry, pre);
      var p := Execute(cb, retry, pre);
      if p.raisedAt.None? {
        var h := Handle(cb, retry, evs[|evs| - 1]);
        HandlePrepares(cb, retry, evs[|evs| - 1]);
        PreparedAppend(p.effects, h.effects);
      }
    }
  }

  /** Within one handler, `handle_data` comes fourth, after the three preparing steps. */
  lemma HandlePrepares(cb: Callbacks, retry: bool, e: ClockEvent)
    ensures PreparedCallbacks(Handle(cb, retry, e).effects)
  {
    var effs := Handle(cb, retry, e).effects;
    forall k | 0 <= k < |effs| && effs[k].HandleData?
      ensures 3 <= k && effs[k - 3] == CacheClear && effs[k - 2] == DtChanged(effs[k].dt)
        && effs[k - 1] == DataDatetime(effs[k].dt)
    {
      assert e.kind == Bar && k == 3;
    }
  }

  lemma PreparedAppend(a: seq<Effect>, b: seq<Effect>)
    requires PreparedCallbacks(a) && PreparedCallbacks(b)
    ensures PreparedCallbacks(a + b)
  {
    var all := a + b;
    forall k | 0 <= k < |all| && all[k].HandleData?
      ensures 3 <= k && all[k - 3] == CacheClear && all[k - 2] == DtChanged(all[k].dt)
        && all[k - 1] == DataDatetime(all[k].dt)
    {
      if k < |a| {
        assert all[k] == a[k] && all[k - 1] == a[k - 1] && all[k - 2] == a[k - 2] && all[k - 3] == a[k - 3];
      } else {
        var j := k - |a|;
        assert all[k] == b[j];
        assert all[k - 3] == b[j - 3] && all[k - 2] == b[j - 2] && all[k - 1] == b[j - 1];
      }
    }
  }

  /** MINUTE_END and SESSION_END events neither act nor end a run. */
  lemma IgnoredEvents(cb: Callbacks, retry: bool, evs: seq<ClockEvent>, e: ClockEvent)
    requires e.kind == MinuteEnd || e.kind == SessionEnd
    ensures Execute(cb, retry, evs + [e]) == Execute(cb, retry, evs)
  {
    assert (evs + [e])[..|evs|] == evs;
  }

  /** The wall time of the before-trading-start bar the executor configures: 08:45 in New York. */
  function BeforeTradingStartMinute(newYork: Zone): (w: WallTime)
    ensures MinuteOfDay(w) == 525 && w.zone == newYork
  {
    WallTime(8, 45, newYork)
  }

  /**
   * The executor of one algorithm. `attached` stands for the references to
   * the algorithm, the bar data and the data portal that leaving `run` drops;
   * `calls` is what the executor has done to them so far.
   */
  class AlgorithmExecutor {
    const algo: int
    const clockConfig: ClockConfig
    const timeSkew: int
    var attached: bool
    /** `current_data.datetime` */
    var dataDatetime: Option<int>
    var calls: seq<Effect>

    /**
     * The clock is the algorithm's calendar, 08:45 New York time for the
     * before-trading-start bar, minute emission exactly for minute data, and
     * the backend's time skew.
     */
    constructor(algo: int, cal: Calendar, newYork: Zone, dataFrequency: string, backendTimeSkew: int)
      ensures this.algo == algo && attached && dataDatetime.None? && calls == []
      ensures clockConfig.cal == cal && clockConfig.bts == BeforeTradingStartMinute(newYork)
      ensures clockConfig.minuteEmission <==> dataFrequency == "minute"
      ensures timeSkew == backendTimeSkew
    {
      this.algo := algo;
      clockConfig := ClockConfig(cal, BeforeTradingStartMinute(newYork), dataFrequency == "minute");
      timeSkew := backendTimeSkew;
      attached := true;
      dataDatetime := None;
      calls := [];
    }

    /** One event's handler, applied to the executor's state. */
    method HandleEvent(cb: Callbacks, retry: bool, e: ClockEvent) returns (raised: bool)
      modifies this
      ensures var h := Handle(cb, retry, e);
        calls == old(calls) + h.effects && raised == h.raised
        && dataDatetime == if h.datetime.Some? then h.datetime else old(dataDatetime)
      ensures attached == old(attached)
    {
      raised := false;
      if e.kind == Bar {
        calls := calls + [CacheClear, DtChanged(e.dt)];
        dataDatetime := Some(e.dt);
        calls := calls + [DataDatetime(e.dt), HandleData(e.dt)];
        if cb.handleDataRaises(e.dt) {
          if !retry {
            raised := true;
            return;
          }
          calls := calls + [ErrorLogged(e.dt)];
        } else {
          calls := calls + [PortfolioNeedsUpdate];
        }
      } else if e.kind == SessionStart {
        calls := calls + [DtChanged(e.dt)];
        dataDatetime := Some(e.dt);
        calls := calls + [DataDatetime(e.dt)];
      } else if e.kind == BeforeTradingStartBar {
        calls := calls + [DtChanged(e.dt)];
        dataDatetime := Some(e.dt);
        calls := calls + [DataDatetime(e.dt), BeforeTradingStart(e.dt)];
        raised := cb.btsRaises(e.dt);
      }
    }

    /**
     * `run` over the events `evs`: while the algorithm is installed in the
     * API slot, handle the events in order until one raises. However the
     * loop ends, the references are dropped and the slot gets back the
     * algorithm it held before.
     */
    method Run(slot: ContextSlot, cb: Callbacks, retry: bool, evs: seq<ClockEvent>) returns (raisedAt: Option<nat>)
      modifies this, slot
      ensures var t := Execute(cb, retry, evs);
        calls == old(calls) + t.effects && raisedAt == t.raisedAt
        && dataDatetime == if t.datetime.Some? then t.datetime else old(dataDatetime)
      ensures !attached && slot.algorithm == old(slot.algorithm)
    {
      var api := new LiveTraderApi(algo);
      api.Enter(slot);
      raisedAt := Dispatch(cb, retry, evs);
      attached := false;
      api.Exit(slot);
    }

    /** The `for` loop of `run`: handle the events in order, stopping at the first that raises. */
    method Dispatch(cb: Callbacks, retry: bool, evs: seq<ClockEvent>) returns (raisedAt: Option<nat>)
      modifies this
      ensures var t := Execute(cb, retry, evs);
        calls == old(calls) + t.effects && raisedAt == t.raisedAt
        && dataDatetime == if t.datetime.Some? then t.datetime else old(dataDatetime)
      ensures attached == old(attached)
    {
      raisedAt := None;
      var i := 0;
      ghost var t := Trace([], None, None);
      while i < |evs| && raisedAt.None?
        invariant 0 <= i <= |evs| && attached == old(attached)
        invariant t == Execute(cb, retry, evs[..i])
        invariant calls == old(calls) + t.effects && raisedAt == t.raisedAt
        invariant dataDatetime == if t.datetime.Some? then t.datetime else old(dataDatetime)
      {
        ghost var h := Handle(cb, retry, evs[i]);
        var raised := HandleEvent(cb, retry, evs[i]);
        ExecuteStep(cb, retry, evs, i);
        AppendAssoc(old(calls), t.effects, h.effects);
        t := Trace(t.effects + h.effects, if h.raised then Some(i) else None,
                   if h.datetime.Some? then h.datetime else t.datetime);
        if raised {
          raisedAt := Some(i);
        }
        i := i + 1;
      }
      if i < |evs| {
        ExecuteAfterRaise(cb, retry, evs, i);
      } else {
        assert evs[..i] == evs;
      }
    }
  }

  lemma AppendAssoc(a: seq<Effect>, b: seq<Effect>, c: seq<Effect>)
    ensures (a + b) + c == a + (b + c)
  {
  }

  /** Before any raise, one more event appends its handler's effects. */
  lemma ExecuteStep(cb: Callbacks, retry: bool, evs: seq<ClockEvent>, i: nat)
    requires i < |evs| && Execute(cb, retry, evs[..i]).raisedAt.None?
    ensures var t, h := Execute(cb, retry, evs[..i]), Handle(cb, retry, evs[i]);
      Execute(cb, retry, evs[..i + 1])
        == Trace(t.effects + h.effects, if h.raised then Some(i) else None, if h.datetime.Some? then h.datetime else t.datetime)
  {
    assert evs[..i + 1][..i] == evs[..i] && evs[..i + 1][i] == evs[i];
  }

  lemma {:induction false} ExecuteAfterRaise(cb: Callbacks, retry: bool, evs: seq<ClockEvent>, i: nat)
    requires i <= |evs| && Execute(cb, retry, evs[..i]).raisedAt.Some?
    ensures Execute(cb, retry, evs) == Execute(cb, retry, evs[..i])
    decreases |evs| - i
  {
    if i < |evs| {
      assert evs[..i + 1][..i] == evs[..i];
      ExecuteAfterRaise(cb, retry, evs, i + 1);
    } else {
      assert evs[..i] == evs;
    }
  }
}
