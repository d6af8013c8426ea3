/**
 * One iteration of the clocks' polling loop as a pure step function, and the
 * runs it generates. The realtime clock and both fake clocks share this
 * dispatch; they differ only in where the polled minute comes from.
 */
module ClockRules {
  import opened Wrappers
  import opened TimeModel

  datatype EventKind = Bar | SessionStart | SessionEnd | MinuteEnd | BeforeTradingStartBar

  /** The integer constants the clock module exports for the kinds. */
  function KindCode(k: EventKind): (c: nat)
    ensures c <= 4
    ensures KindOfCode(c) == Some(k)
  {
    match k
    case Bar => 0
    case SessionStart => 1
    case SessionEnd => 2
    case MinuteEnd => 3
    case BeforeTradingStartBar => 4
  }

  function KindOfCode(c: int): (k: Option<EventKind>)
    ensures k.Some? <==> 0 <= c <= 4
  {
    if c == 0 then Some(Bar)
    else if c == 1 then Some(SessionStart)
    else if c == 2 then Some(SessionEnd)
    else if c == 3 then Some(MinuteEnd)
    else if c == 4 then Some(BeforeTradingStartBar)
    else None
  }

  /** An event is yielded as a (timestamp, kind) pair. */
  datatype ClockEvent = ClockEvent(dt: int, kind: EventKind)

  /** The clock's configuration: calendar, before-trading-start wall time, minute emission. */
  datatype ClockConfig = ClockConfig(cal: Calendar, bts: WallTime, minuteEmission: bool)

  /**
   * What survives between polls: the generator-local current session, the
   * `_last_emit` time and the `_before_trading_start_bar_yielded` flag.
   */
  datatype ClockState = ClockState(session: Option<int>, lastEmit: Option<int>, btsYielded: bool)

  /** The state of a freshly constructed clock whose iteration has just begun. */
  const Initial: ClockState := ClockState(None, None, false)

  /** The events of one poll and the state after it. */
  datatype Poll = Poll(events: seq<ClockEvent>, next: ClockState)

  /**
   * The before-trading-start instant of a session: session label's date read as
   * midnight in the configured zone, plus the configured hours and minutes.
   */
  function BtsTime(cfg: ClockConfig, day: int): int
  {
    cfg.bts.zone.localize(day) + MinuteOfDay(cfg.bts)
  }

  /** The one-minute gap rule: nothing emitted yet, or the last emission a minute or more ago. */
  predicate GapOk(s: ClockState, t: int)
  {
    s.lastEmit.None? || t - s.lastEmit.value >= 1
  }

  function BarEvents(cfg: ClockConfig, t: int): seq<ClockEvent>
  {
    [ClockEvent(t, Bar)] + if cfg.minuteEmission then [ClockEvent(t, MinuteEnd)] else []
  }

  /** Which arm of the branch chain a poll takes, once the session bookkeeping is done. */
  datatype Branch = Silent | BtsBar | Bars | CloseBars

  /**
   * The branch chain after the session bookkeeping, for a state `s` already
   * in session `day`. With `guardClose` false this is the chain as the
   * source writes it; with `guardClose` true the close branch also obeys the
   * one-minute gap rule.
   */
  function Choose(cfg: ClockConfig, s: ClockState, t: int, day: int, guardClose: bool): Branch
  {
    if t >= BtsTime(cfg, day) && !s.btsYielded then BtsBar
    else if t < cfg.cal.sessionOpen(day) then Silent
    else if t < cfg.cal.sessionClose(day) then (if GapOk(s, t) then Bars else Silent)
    else if t == cfg.cal.sessionClose(day) && (!guardClose || GapOk(s, t)) then CloseBars
    else Silent
  }

  /** What an arm yields at minute `t`. */
  function BranchEvents(cfg: ClockConfig, t: int, b: Branch): seq<ClockEvent>
  {
    match b
    case Silent => []
    case BtsBar => [ClockEvent(t, BeforeTradingStartBar)]
    case Bars => BarEvents(cfg, t)
    case CloseBars => BarEvents(cfg, t) + [ClockEvent(t, SessionEnd)]
  }

  /** What an arm records: every arm but the silent one sets the last-emit time. */
  function BranchState(s: ClockState, t: int, b: Branch): ClockState
  {
    match b
    case Silent => s
    case BtsBar => s.(lastEmit := Some(t), btsYielded := true)
    case Bars => s.(lastEmit := Some(t))
    case CloseBars => s.(lastEmit := Some(t))
  }

  /** Whether the poll at `t` opens a session not seen before. */
  predicate NewSession(s: ClockState, t: int)
  {
    s.session != Some(DayLabel(t))
  }

  /** SESSION_START, carrying the session label, when the poll opens a new session. */
  function StartEvents(s: ClockState, t: int): seq<ClockEvent>
  {
    if NewSession(s, t) then [ClockEvent(DayLabel(t), SessionStart)] else []
  }

  /** The state after the session bookkeeping: a new session label resets the before-trading-start flag. */
  function Enter(s: ClockState, t: int): ClockState
  {
    if NewSession(s, t) then s.(session := Some(DayLabel(t)), btsYielded := false) else s
  }

  /** The arm the poll at `t` takes (meaningful on session days). */
  function StepBranch(cfg: ClockConfig, s: ClockState, t: int, guardClose: bool): Branch
  {
    Choose(cfg, Enter(s, t), t, DayLabel(t), guardClose)
  }

  /** One poll of the loop at server minute `t`. */
  function Step(cfg: ClockConfig, s: ClockState, t: int, guardClose: bool): (p: Poll)
    ensures !cfg.cal.isSession(DayLabel(t)) ==> p == Poll([], s)
    ensures cfg.cal.isSession(DayLabel(t)) ==> p.next.session == Some(DayLabel(t))
  {
    if !cfg.cal.isSession(DayLabel(t)) then Poll([], s)
    else
      var b := StepBranch(cfg, s, t, guardClose);
      Poll(StartEvents(s, t) + BranchEvents(cfg, t, b), BranchState(Enter(s, t), t, b))
  }

  /** The polls at the minutes `ts`, in order. */
  function Run(cfg: ClockConfig, s: ClockState, ts: seq<int>, guardClose: bool): Poll
    decreases |ts|
  {
    if |ts| == 0 then Poll([], s)
    else
      var p := Run(cfg, s, ts[..|ts| - 1], guardClose);
      var q := Step(cfg, p.next, ts[|ts| - 1], guardClose);
      Poll(p.events + q.events, q.next)
  }

  predicate Has(evs: seq<ClockEvent>, k: EventKind)
  {
    exists e :: e in evs && e.kind == k
  }

  lemma HasConcat(a: seq<ClockEvent>, b: seq<ClockEvent>, k: EventKind)
    ensures Has(a + b, k) <==> Has(a, k) || Has(b, k)
  {
    if Has(a, k) {
      var e :| e in a && e.kind == k;
      assert e in a + b;
    }
    if Has(b, k) {
      var e :| e in b && e.kind == k;
      assert e in a + b;
    }
  }

  /**
   * What each arm yields: events at `t`, never SESSION_START, a BAR only
   * first, a SESSION_END only last, and which kinds occur in which arm.
   */
  lemma BranchEventsFacts(cfg: ClockConfig, t: int, b: Branch)
    ensures var evs := BranchEvents(cfg, t, b);
      (forall i :: 0 <= i < |evs| ==> evs[i].dt == t && evs[i].kind != SessionStart)
      && (forall i :: 0 <= i < |evs| && IsEmission(evs[i].kind) ==> b == Bars || b == CloseBars)
      && (forall i :: 0 <= i < |evs| && evs[i].kind == Bar ==> i == 0)
      && (forall i :: 0 <= i < |evs| && evs[i].kind == SessionEnd ==> i == |evs| - 1)
      && (Has(evs, Bar) <==> b == Bars || b == CloseBars)
      && (Has(evs, MinuteEnd) <==> (b == Bars || b == CloseBars) && cfg.minuteEmission)
      && (Has(evs, SessionEnd) <==> b == CloseBars)
      && (Has(evs, BeforeTradingStartBar) <==> b == BtsBar)
      && (b == CloseBars ==> evs[|evs| - 1] == ClockEvent(t, SessionEnd))
  {
    var evs := BranchEvents(cfg, t, b);
    var bar, me, end := ClockEvent(t, Bar), ClockEvent(t, MinuteEnd), ClockEvent(t, SessionEnd);
    match b
    case Silent =>
    case BtsBar =>
      assert ClockEvent(t, BeforeTradingStartBar) in evs;
    case Bars =>
      assert bar in evs;
      if cfg.minuteEmission {
        assert evs == [bar, me] && me in evs;
      } else {
        assert evs == [bar];
      }
    case CloseBars =>
      assert bar in evs && end in evs;
      if cfg.minuteEmission {
        assert evs == [bar, me, end] && me in evs;
      } else {
        assert evs == [bar, end];
      }
  }

  /** The arms as the before-trading-start tracker sees them. */
  lemma BranchScan(cfg: ClockConfig, t: int, b: Branch, seen: bool)
    ensures var evs := BranchEvents(cfg, t, b);
      SeenAfter(evs, seen) == (b == BtsBar || seen)
      && (BtsOnce(evs, seen) <==> (b == BtsBar ==> !seen))
      && (BarsAfterBts(evs, seen) <==> ((b == Bars || b == CloseBars) ==> seen))
  {
    var evs := BranchEvents(cfg, t, b);
    match b
    case Silent =>
    case BtsBar =>
      assert evs[1..] == [];
    case Bars =>
      var rest := evs[1..];
      if cfg.minuteEmission {
        assert rest == [ClockEvent(t, MinuteEnd)] && rest[1..] == [];
        assert SeenAfter(rest, seen) == seen && BtsOnce(rest, seen) && BarsAfterBts(rest, seen);
      } else {
        assert rest == [];
      }
    case CloseBars =>
      var end := [ClockEvent(t, SessionEnd)];
      assert end[1..] == [];
      assert SeenAfter(end, seen) == seen && BtsOnce(end, seen) && BarsAfterBts(end, seen);
      var rest := evs[1..];
      if cfg.minuteEmission {
        assert rest == [ClockEvent(t, MinuteEnd)] + end && rest[1..] == end;
        assert SeenAfter(rest, seen) == seen && BtsOnce(rest, seen) && BarsAfterBts(rest, seen);
      } else {
        assert rest == end;
      }
  }

  /** Only the before-trading-start arm changes the flag; the session is untouched. */
  lemma BranchStateFacts(s: ClockState, t: int, b: Branch)
    ensures var n := BranchState(s, t, b);
      n.session == s.session
      && n.btsYielded == (b == BtsBar || s.btsYielded)
      && n.lastEmit == if b == Silent then s.lastEmit else Some(t)
  {
  }

  // ---------------------------------------------------------------------
  // One poll
  // ---------------------------------------------------------------------

  /** A poll on a day that is not a session emits nothing and keeps the state. */
  lemma NonSessionPollIsSilent(cfg: ClockConfig, s: ClockState, t: int, g: bool)
    requires !cfg.cal.isSession(DayLabel(t))
    ensures Step(cfg, s, t, g) == Poll([], s)
  {
  }

  /**
   * SESSION_START, carrying the session label, opens the poll exactly when the
   * label differs from the current session; it records the label and clears the flag.
   */
  lemma SessionStartRule(cfg: ClockConfig, s: ClockState, t: int, g: bool)
    requires cfg.cal.isSession(DayLabel(t))
    ensures var p := Step(cfg, s, t, g);
      (Has(p.events, SessionStart) <==> NewSession(s, t))
      && (NewSession(s, t) ==> p.events[0] == ClockEvent(DayLabel(t), SessionStart))
      && (forall i :: 0 < i < |p.events| ==> p.events[i].kind != SessionStart)
      && p.next.session == Some(DayLabel(t))
  {
    var b := StepBranch(cfg, s, t, g);
    var start: seq<ClockEvent>, evs: seq<ClockEvent> := StartEvents(s, t), BranchEvents(cfg, t, b);
    BranchEventsFacts(cfg, t, b);
    BranchStateFacts(Enter(s, t), t, b);
    HasConcat(start, evs, SessionStart);
    assert !Has(evs, SessionStart);
    if NewSession(s, t) {
      assert start[0] in start;
    }
    assert forall i :: |start| <= i < |start + evs| ==> (start + evs)[i] == evs[i - |start|];
  }

  /**
   * BEFORE_TRADING_START_BAR is emitted exactly when the poll reaches the
   * before-trading-start instant with the flag clear; it then sets the flag
   * and the last-emit time, and no BAR comes in the same poll.
   */
  lemma BeforeTradingStartRule(cfg: ClockConfig, s: ClockState, t: int, g: bool)
    requires cfg.cal.isSession(DayLabel(t))
    ensures var p := Step(cfg, s, t, g);
      (Has(p.events, BeforeTradingStartBar) <==>
         (t >= BtsTime(cfg, DayLabel(t)) && !Enter(s, t).btsYielded))
      && (Has(p.events, BeforeTradingStartBar) ==>
            p.next.btsYielded && p.next.lastEmit == Some(t) && !Has(p.events, Bar))
  {
    var b := StepBranch(cfg, s, t, g);
    var start: seq<ClockEvent>, evs: seq<ClockEvent> := StartEvents(s, t), BranchEvents(cfg, t, b);
    BranchEventsFacts(cfg, t, b);
    BranchStateFacts(Enter(s, t), t, b);
    HasConcat(start, evs, BeforeTradingStartBar);
    HasConcat(start, evs, Bar);
  }

  /**
   * BAR is emitted exactly when the before-trading-start branch is not taken
   * and either the poll is inside [open, close) with the gap rule met, or it
   * is at the close (as written, unguarded). MINUTE_END follows iff minute
   * emission is on; SESSION_END comes iff the BAR is the close one, and last.
   */
  lemma BarRule(cfg: ClockConfig, s: ClockState, t: int, g: bool)
    requires cfg.cal.isSession(DayLabel(t))
    ensures var p := Step(cfg, s, t, g);
      var day := DayLabel(t);
      var open, close := cfg.cal.sessionOpen(day), cfg.cal.sessionClose(day);
      var bts := t >= BtsTime(cfg, day) && !Enter(s, t).btsYielded;
      (Has(p.events, Bar) <==>
        !bts && open <= t && ((t < close && GapOk(s, t)) || (t == close && (!g || GapOk(s, t)))))
      && (Has(p.events, MinuteEnd) <==> Has(p.events, Bar) && cfg.minuteEmission)
      && (Has(p.events, SessionEnd) <==> Has(p.events, Bar) && t == close)
      && (Has(p.events, SessionEnd) ==> p.events[|p.events| - 1] == ClockEvent(t, SessionEnd))
      && (Has(p.events, Bar) ==> p.next.lastEmit == Some(t))
  {
    var b := StepBranch(cfg, s, t, g);
    var start: seq<ClockEvent>, evs: seq<ClockEvent> := StartEvents(s, t), BranchEvents(cfg, t, b);
    BranchEventsFacts(cfg, t, b);
    BranchStateFacts(Enter(s, t), t, b);
    assert GapOk(Enter(s, t), t) == GapOk(s, t);
    HasConcat(start, evs, Bar);
    HasConcat(start, evs, MinuteEnd);
    HasConcat(start, evs, SessionEnd);
    if b == CloseBars {
      assert (start + evs)[|start + evs| - 1] == evs[|evs| - 1];
    }
  }

  /** Polls before the open (once the before-trading-start branch is passed) and after the close emit only the session start, if any. */
  lemma OutsideHoursRule(cfg: ClockConfig, s: ClockState, t: int, g: bool)
    requires cfg.cal.isSession(DayLabel(t))
    requires !(t >= BtsTime(cfg, DayLabel(t)) && !Enter(s, t).btsYielded)
    requires t < cfg.cal.sessionOpen(DayLabel(t)) || t > cfg.cal.sessionClose(DayLabel(t))
    ensures Step(cfg, s, t, g).events
      == if NewSession(s, t) then [ClockEvent(DayLabel(t), SessionStart)] else []
    ensures Step(cfg, s, t, g).next == Enter(s, t)
  {
    assert StepBranch(cfg, s, t, g) == Silent;
    assert StartEvents(s, t) + [] == StartEvents(s, t);
  }

  /**
   * Driven by minutes that each lie after the last emission (as the fake
   * clocks are), a poll inside [open, close) of the current session whose
   * before-trading-start bar is done emits exactly its bar events, and the
   * close minute exactly its bar events followed by SESSION_END.
   */
  lemma InSessionPollEmits(cfg: ClockConfig, s: ClockState, t: int, g: bool)
    requires cfg.cal.isSession(DayLabel(t)) && s.session == Some(DayLabel(t)) && s.btsYielded
    requires GapOk(s, t)
    requires cfg.cal.sessionOpen(DayLabel(t)) <= t <= cfg.cal.sessionClose(DayLabel(t))
    ensures Step(cfg, s, t, g).events
      == if t < cfg.cal.sessionClose(DayLabel(t)) then BarEvents(cfg, t)
         else BarEvents(cfg, t) + [ClockEvent(t, SessionEnd)]
    ensures Step(cfg, s, t, g).next == s.(lastEmit := Some(t))
  {
    var b := StepBranch(cfg, s, t, g);
    assert Enter(s, t) == s && StartEvents(s, t) == [];
    assert b == if t < cfg.cal.sessionClose(DayLabel(t)) then Bars else CloseBars;
    assert [] + BranchEvents(cfg, t, b) == BranchEvents(cfg, t, b);
  }

  /** When the gap rule holds, the guarded close branch behaves exactly as written. */
  lemma GuardIrrelevantWhenGapOk(cfg: ClockConfig, s: ClockState, t: int)
    requires GapOk(s, t)
    ensures Step(cfg, s, t, true) == Step(cfg, s, t, false)
  {
    assert GapOk(Enter(s, t), t);
  }

  // ---------------------------------------------------------------------
  // Runs
  // ---------------------------------------------------------------------

  predicate NonDecreasing(ts: seq<int>)
  {
    forall i, j :: 0 <= i < j < |ts| ==> ts[i] <= ts[j]
  }

  /** Successive minutes, as the fake clocks produce them. */
  predicate Consecutive(ts: seq<int>)
  {
    forall i :: 0 < i < |ts| ==> ts[i] == ts[i - 1] + 1
  }

  predicate Ordered(evs: seq<ClockEvent>)
  {
    forall i, j :: 0 <= i < j < |evs| ==> evs[i].dt <= evs[j].dt
  }

  /** Events of kind `k` have strictly increasing timestamps. */
  predicate StrictFor(evs: seq<ClockEvent>, k: EventKind)
  {
    forall i, j :: 0 <= i < j < |evs| && evs[i].kind == k && evs[j].kind == k ==> evs[i].dt < evs[j].dt
  }

  predicate IsEmission(k: EventKind)
  {
    k == Bar || k == SessionEnd
  }

  /**
   * What a run whose last poll was at `hi` leaves behind: the last emission
   * and every event lie at or before `hi`, and every event lies before the
   * end of the current session's day.
   */
  predicate Settled(st: ClockState, evs: seq<ClockEvent>, hi: int)
  {
    (st.lastEmit.Some? ==> st.lastEmit.value <= hi)
    && (evs != [] ==>
          st.session.Some? && st.session.value % MinutesPerDay == 0 && st.session.value <= DayLabel(hi))
    && (forall i :: 0 <= i < |evs| ==>
          evs[i].dt <= hi && st.session.Some? && evs[i].dt < st.session.value + MinutesPerDay)
  }

  /** Every BAR and SESSION_END so far lies at or before the last-emit time. */
  predicate EmissionsCovered(st: ClockState, evs: seq<ClockEvent>)
  {
    forall i :: 0 <= i < |evs| && IsEmission(evs[i].kind) ==>
      st.lastEmit.Some? && evs[i].dt <= st.lastEmit.value
  }

  /** The events of one poll at `z`: the session start carries the day label, the rest carry `z`. */
  lemma StepEventTimes(cfg: ClockConfig, s: ClockState, z: int, g: bool)
    ensures var q := Step(cfg, s, z, g);
      (forall i :: 0 <= i < |q.events| ==>
        (q.events[i].kind == SessionStart ==>
           (q.events[i].dt == DayLabel(z) && i == 0 && NewSession(s, z)))
        && (q.events[i].kind != SessionStart ==> q.events[i].dt == z))
      && (q.events != [] ==> cfg.cal.isSession(DayLabel(z)))
  {
    if cfg.cal.isSession(DayLabel(z)) {
      var b := StepBranch(cfg, s, z, g);
      var start: seq<ClockEvent>, evs: seq<ClockEvent> := StartEvents(s, z), BranchEvents(cfg, z, b);
      BranchEventsFacts(cfg, z, b);
      assert forall i :: 0 <= i < |start| ==> (start + evs)[i] == ClockEvent(DayLabel(z), SessionStart) && i == 0;
      assert forall i :: |start| <= i < |start + evs| ==> (start + evs)[i] == evs[i - |start|];
    }
  }

  /**
   * The state after one poll at `z`: a session day becomes the current
   * session, the last-emit time is kept or set to `z`, and with the guard an
   * emission happens only when the gap rule held and sets the last-emit time.
   */
  lemma StepStateFacts(cfg: ClockConfig, s: ClockState, z: int, g: bool)
    ensures var q := Step(cfg, s, z, g);
      (cfg.cal.isSession(DayLabel(z)) ==> q.next.session == Some(DayLabel(z)))
      && (!cfg.cal.isSession(DayLabel(z)) ==> q.next == s)
      && (q.next.lastEmit == s.lastEmit || q.next.lastEmit == Some(z))
      && (g ==> forall i :: 0 <= i < |q.events| && IsEmission(q.events[i].kind) ==>
                  GapOk(s, z) && q.next.lastEmit == Some(z))
  {
    if cfg.cal.isSession(DayLabel(z)) {
      var b := StepBranch(cfg, s, z, g);
      var start: seq<ClockEvent>, evs: seq<ClockEvent> := StartEvents(s, z), BranchEvents(cfg, z, b);
      BranchEventsFacts(cfg, z, b);
      BranchStateFacts(Enter(s, z), z, b);
      assert GapOk(Enter(s, z), z) == GapOk(s, z);
      assert forall i :: 0 <= i < |start| ==> (start + evs)[i].kind == SessionStart;
      assert forall i :: |start| <= i < |start + evs| ==> (start + evs)[i] == evs[i - |start|];
      assert g && (b == Bars || b == CloseBars) ==> GapOk(s, z);
    }
  }

  /**
   * Within one poll a BAR can only follow the session start, and a
   * SESSION_END only come last.
   */
  lemma StepKindPositions(cfg: ClockConfig, s: ClockState, z: int, g: bool)
    ensures var q := Step(cfg, s, z, g);
      (forall i :: 0 <= i < |q.events| && q.events[i].kind == Bar ==> i == |StartEvents(s, z)|)
      && (forall i :: 0 <= i < |q.events| && q.events[i].kind == SessionEnd ==> i == |q.events| - 1)
  {
    if cfg.cal.isSession(DayLabel(z)) {
      var b := StepBranch(cfg, s, z, g);
      var start: seq<ClockEvent>, evs: seq<ClockEvent> := StartEvents(s, z), BranchEvents(cfg, z, b);
      BranchEventsFacts(cfg, z, b);
      assert forall i :: 0 <= i < |start| ==> (start + evs)[i].kind == SessionStart;
      assert forall i :: |start| <= i < |start + evs| ==> (start + evs)[i] == evs[i - |start|];
    }
  }

  lemma OrderedAppend(a: seq<ClockEvent>, b: seq<ClockEvent>)
    requires Ordered(a) && Ordered(b)
    requires forall i, j :: 0 <= i < |a| && 0 <= j < |b| ==> a[i].dt <= b[j].dt
    ensures Ordered(a + b)
  {
    var all := a + b;
    assert forall i :: 0 <= i < |b| ==> all[|a| + i] == b[i];
    assert forall i, j :: 0 <= i < j < |all| ==> all[i].dt <= all[j].dt by {
      forall i, j | 0 <= i < j < |all| ensures all[i].dt <= all[j].dt {
        if j < |a| {
        } else if i >= |a| {
          assert all[i] == b[i - |a|] && all[j] == b[j - |a|];
        } else {
          assert all[j] == b[j - |a|];
        }
      }
    }
  }

  lemma StrictAppend(a: seq<ClockEvent>, b: seq<ClockEvent>, k: EventKind)
    requires StrictFor(a, k) && StrictFor(b, k)
    requires forall i, j :: 0 <= i < |a| && 0 <= j < |b| && a[i].kind == k && b[j].kind == k ==> a[i].dt < b[j].dt
    ensures StrictFor(a + b, k)
  {
    var all := a + b;
    forall i, j | 0 <= i < j < |all| && all[i].kind == k && all[j].kind == k ensures all[i].dt < all[j].dt {
      if j < |a| {
      } else if i >= |a| {
        assert all[i] == b[i - |a|] && all[j] == b[j - |a|];
      } else {
        assert all[j] == b[j - |a|];
      }
    }
  }

  /** The events of one poll are ordered, and hold at most one BAR and one SESSION_END. */
  lemma StepInternallyOrdered(cfg: ClockConfig, s: ClockState, z: int, g: bool)
    ensures var q := Step(cfg, s, z, g);
      Ordered(q.events) && StrictFor(q.events, Bar) && StrictFor(q.events, SessionEnd)
  {
    StepEventTimes(cfg, s, z, g);
    StepKindPositions(cfg, s, z, g);
  }

  /** A poll at `z >= hi` after a settled run: its events lie after the earlier ones, and the run stays settled. */
  lemma StepAfterSettled(cfg: ClockConfig, st: ClockState, evs: seq<ClockEvent>, hi: int, z: int, g: bool)
    requires Settled(st, evs, hi) && hi <= z
    ensures var q := Step(cfg, st, z, g);
      Settled(q.next, evs + q.events, z)
      && forall i, j :: 0 <= i < |evs| && 0 <= j < |q.events| ==> evs[i].dt <= q.events[j].dt
  {
    var q := Step(cfg, st, z, g);
    var all := evs + q.events;
    StepEventTimes(cfg, st, z, g);
    StepStateFacts(cfg, st, z, g);
    DayLabelFacts(hi, z);
    if q.events != [] && evs != [] {
      var cur := st.session.value;
      if NewSession(st, z) {
        DayLabelFacts(cur, hi);
        DayLabelFacts(cur, z);
        assert cur + MinutesPerDay <= DayLabel(z);
      }
    }
    assert forall i :: 0 <= i < |q.events| ==> all[|evs| + i] == q.events[i];
    assert forall i :: 0 <= i < |evs| ==> all[i] == evs[i];
  }

  /** Guarded, a poll's BAR and SESSION_END come after every earlier one, and the last-emit time covers them all. */
  lemma StepAfterCovered(cfg: ClockConfig, st: ClockState, evs: seq<ClockEvent>, z: int)
    requires EmissionsCovered(st, evs)
    requires st.lastEmit.Some? ==> st.lastEmit.value <= z
    ensures var q := Step(cfg, st, z, true);
      EmissionsCovered(q.next, evs + q.events)
      && forall i, j ::
           (0 <= i < |evs| && 0 <= j < |q.events| && IsEmission(evs[i].kind) && IsEmission(q.events[j].kind))
           ==> evs[i].dt < q.events[j].dt
  {
    var q := Step(cfg, st, z, true);
    var all := evs + q.events;
    StepEventTimes(cfg, st, z, true);
    StepStateFacts(cfg, st, z, true);
    assert forall i :: 0 <= i < |q.events| ==> all[|evs| + i] == q.events[i];
    assert forall i :: 0 <= i < |evs| ==> all[i] == evs[i];
  }

  /** One further poll at `z >= hi` keeps a settled run settled and ordered (and, guarded, strict). */
  lemma StepKeepsOrder(cfg: ClockConfig, st: ClockState, evs: seq<ClockEvent>, hi: int, z: int, g: bool)
    requires Settled(st, evs, hi) && Ordered(evs) && hi <= z
    requires g ==> EmissionsCovered(st, evs) && StrictFor(evs, Bar) && StrictFor(evs, SessionEnd)
    ensures var q := Step(cfg, st, z, g);
      Settled(q.next, evs + q.events, z) && Ordered(evs + q.events)
      && (g ==> EmissionsCovered(q.next, evs + q.events)
                && StrictFor(evs + q.events, Bar) && StrictFor(evs + q.events, SessionEnd))
  {
    var q := Step(cfg, st, z, g);
    StepAfterSettled(cfg, st, evs, hi, z, g);
    StepInternallyOrdered(cfg, st, z, g);
    OrderedAppend(evs, q.events);
    if g {
      StepAfterCovered(cfg, st, evs, z);
      StrictAppend(evs, q.events, Bar);
      StrictAppend(evs, q.events, SessionEnd);
    }
  }

  /**
   * Over non-decreasing polls, a run's timestamps never go backwards, and none
   * exceeds the last poll; with the guarded close branch the BAR timestamps,
   * and the SESSION_END timestamps, strictly increase, so no two BARs are less
   * than a minute apart and each close minute ends its session once.
   */
  lemma {:induction false} RunOrdered(cfg: ClockConfig, s: ClockState, ts: seq<int>, g: bool)
    requires |ts| > 0 && NonDecreasing(ts)
    requires s.lastEmit.Some? ==> s.lastEmit.value <= ts[0]
    ensures var r := Run(cfg, s, ts, g);
      Ordered(r.events) && Settled(r.next, r.events, ts[|ts| - 1])
      && (g ==> EmissionsCovered(r.next, r.events)
                && StrictFor(r.events, Bar) && StrictFor(r.events, SessionEnd))
    decreases |ts|
  {
    var n := |ts|;
    var p := Run(cfg, s, ts[..n - 1], g);
    if n == 1 {
      assert p == Poll([], s);
      StepKeepsOrder(cfg, s, [], ts[0], ts[0], g);
      assert [] + Step(cfg, s, ts[0], g).events == Step(cfg, s, ts[0], g).events;
    } else {
      var pre := ts[..n - 1];
      assert pre[0] == ts[0] && pre[|pre| - 1] == ts[n - 2];
      RunOrdered(cfg, s, pre, g);
      StepKeepsOrder(cfg, p.next, p.events, ts[n - 2], ts[n - 1], g);
    }
  }

  /** No event of a run lies after the latest polled minute. */
  lemma {:induction false} RunBounded(cfg: ClockConfig, s: ClockState, ts: seq<int>, g: bool, hi: int)
    requires forall i :: 0 <= i < |ts| ==> ts[i] <= hi
    ensures forall e :: e in Run(cfg, s, ts, g).events ==> e.dt <= hi
    decreases |ts|
  {
    if |ts| > 0 {
      var n := |ts|;
      var pre, z := ts[..n - 1], ts[n - 1];
      assert forall i :: 0 <= i < |pre| ==> pre[i] == ts[i];
      RunBounded(cfg, s, pre, g, hi);
      var p := Run(cfg, s, pre, g);
      var q := Step(cfg, p.next, z, g);
      StepEventTimes(cfg, p.next, z, g);
      forall e | e in q.events
        ensures e.dt <= hi
      {
        var i :| 0 <= i < |q.events| && q.events[i] == e;
      }
      assert Run(cfg, s, ts, g).events == p.events + q.events;
    }
  }

  /**
   * As written, the close branch does not consult the last-emit time, and the
   * realtime clock polls again without sleeping: two polls in the close minute
   * each emit BAR and SESSION_END for the same minute.
   */
  lemma CloseMinuteRepeats(cfg: ClockConfig, s: ClockState, c: int)
    requires cfg.cal.isSession(DayLabel(c)) && c == cfg.cal.sessionClose(DayLabel(c))
    requires cfg.cal.sessionOpen(DayLabel(c)) <= c
    requires s.session == Some(DayLabel(c)) && s.btsYielded
    ensures var evs := Run(cfg, s, [c, c], false).events;
      !StrictFor(evs, SessionEnd) && !StrictFor(evs, Bar)
  {
    var one := BarEvents(cfg, c) + [ClockEvent(c, SessionEnd)];
    CloseTwice(cfg, s, c);
    var evs := one + one;
    var k := |one|;
    assert evs[k - 1].kind == SessionEnd && evs[2 * k - 1].kind == SessionEnd;
    assert evs[0].kind == Bar && evs[k].kind == Bar;
  }

  /** The two unguarded polls of the close minute emit the close events twice. */
  lemma CloseTwice(cfg: ClockConfig, s: ClockState, c: int)
    requires cfg.cal.isSession(DayLabel(c)) && c == cfg.cal.sessionClose(DayLabel(c))
    requires cfg.cal.sessionOpen(DayLabel(c)) <= c
    requires s.session == Some(DayLabel(c)) && s.btsYielded
    ensures var one := BarEvents(cfg, c) + [ClockEvent(c, SessionEnd)];
      Run(cfg, s, [c, c], false).events == one + one
  {
    var s1 := s.(lastEmit := Some(c));
    UnguardedClose(cfg, s, c);
    UnguardedClose(cfg, s1, c);
    var one := BarEvents(cfg, c) + [ClockEvent(c, SessionEnd)];
    assert [c, c][..1] == [c] && [c][..0] == [];
    assert Run(cfg, s, [], false) == Poll([], s);
    assert Run(cfg, s, [c], false) == Poll([] + one, s1);
    assert Run(cfg, s, [c, c], false) == Poll(([] + one) + one, s1);
    assert [] + one == one;
  }

  /** An unguarded poll of the close minute, within its session, emits the close events. */
  lemma UnguardedClose(cfg: ClockConfig, s: ClockState, c: int)
    requires cfg.cal.isSession(DayLabel(c)) && c == cfg.cal.sessionClose(DayLabel(c))
    requires cfg.cal.sessionOpen(DayLabel(c)) <= c
    requires s.session == Some(DayLabel(c)) && s.btsYielded
    ensures Step(cfg, s, c, false) == Poll(BarEvents(cfg, c) + [ClockEvent(c, SessionEnd)], s.(lastEmit := Some(c)))
  {
    assert StartEvents(s, c) == [] && Enter(s, c) == s && StepBranch(cfg, s, c, false) == CloseBars;
  }

  /**
   * With the guard, a second poll in the same close minute is silent.
   */
  lemma GuardedCloseOnce(cfg: ClockConfig, s: ClockState, c: int)
    requires cfg.cal.isSession(DayLabel(c)) && c == cfg.cal.sessionClose(DayLabel(c))
    requires cfg.cal.sessionOpen(DayLabel(c)) <= c
    requires s.session == Some(DayLabel(c)) && s.btsYielded && GapOk(s, c)
    ensures var evs := Run(cfg, s, [c, c], true).events;
      evs == BarEvents(cfg, c) + [ClockEvent(c, SessionEnd)]
  {
    var one := BarEvents(cfg, c) + [ClockEvent(c, SessionEnd)];
    var s1 := s.(lastEmit := Some(c));
    assert StartEvents(s, c) == [] && Enter(s, c) == s && StepBranch(cfg, s, c, true) == CloseBars;
    assert Step(cfg, s, c, true) == Poll([] + one, s1);
    assert StartEvents(s1, c) == [] && Enter(s1, c) == s1 && StepBranch(cfg, s1, c, true) == Silent;
    assert Step(cfg, s1, c, true) == Poll([] + [], s1);
    assert [c, c][..1] == [c] && [c][..0] == [];
    assert Run(cfg, s, [c], true) == Poll(one, s1);
    assert Run(cfg, s, [c, c], true).events == one + [];
  }

  /**
   * Polled at successive minutes starting after the last emission, as the fake
   * clocks are, the gap rule holds at every poll, so the guarded and the
   * as-written clock produce the same run.
   */
  lemma {:induction false} MinuteStepsNeedNoGuard(cfg: ClockConfig, s: ClockState, ts: seq<int>)
    requires |ts| > 0 && Consecutive(ts)
    requires s.lastEmit.Some? ==> s.lastEmit.value < ts[0]
    ensures Run(cfg, s, ts, true) == Run(cfg, s, ts, false)
    ensures var r := Run(cfg, s, ts, true); r.next.lastEmit.Some? ==> r.next.lastEmit.value <= ts[|ts| - 1]
    decreases |ts|
  {
    var n := |ts|;
    var pre := ts[..n - 1];
    if n == 1 {
      GuardIrrelevantWhenGapOk(cfg, s, ts[0]);
      StepStateFacts(cfg, s, ts[0], true);
    } else {
      assert Consecutive(pre) && pre[0] == ts[0] && pre[n - 2] == ts[n - 2];
      MinuteStepsNeedNoGuard(cfg, s, pre);
      var p := Run(cfg, s, pre, true);
      assert ts[n - 1] == ts[n - 2] + 1;
      GuardIrrelevantWhenGapOk(cfg, p.next, ts[n - 1]);
      StepStateFacts(cfg, p.next, ts[n - 1], true);
    }
  }

  // ---------------------------------------------------------------------
  // Before-trading-start bookkeeping over a run
  // ---------------------------------------------------------------------

  /** The before-trading-start flag as a reader of the events would track it. */
  function Seen(e: ClockEvent, seen: bool): bool
  {
    match e.kind
    case SessionStart => false
    case BeforeTradingStartBar => true
    case _ => seen
  }

  function SeenAfter(evs: seq<ClockEvent>, seen: bool): bool
    decreases |evs|
  {
    if evs == [] then seen else SeenAfter(evs[1..], Seen(evs[0], seen))
  }

  /** No BEFORE_TRADING_START_BAR while one has already been seen since the last SESSION_START. */
  predicate BtsOnce(evs: seq<ClockEvent>, seen: bool)
    decreases |evs|
  {
    evs == [] ||
    ((evs[0].kind == BeforeTradingStartBar ==> !seen) && BtsOnce(evs[1..], Seen(evs[0], seen)))
  }

  /** Every BAR comes after a BEFORE_TRADING_START_BAR of its session. */
  predicate BarsAfterBts(evs: seq<ClockEvent>, seen: bool)
    decreases |evs|
  {
    evs == [] ||
    ((evs[0].kind == Bar ==> seen) && BarsAfterBts(evs[1..], Seen(evs[0], seen)))
  }

  lemma {:induction false} ScanAppend(a: seq<ClockEvent>, b: seq<ClockEvent>, seen: bool)
    ensures SeenAfter(a + b, seen) == SeenAfter(b, SeenAfter(a, seen))
    ensures BtsOnce(a + b, seen) <==> BtsOnce(a, seen) && BtsOnce(b, SeenAfter(a, seen))
    ensures BarsAfterBts(a + b, seen) <==> BarsAfterBts(a, seen) && BarsAfterBts(b, SeenAfter(a, seen))
    decreases |a|
  {
    if a == [] {
      assert a + b == b;
    } else {
      assert (a + b)[0] == a[0];
      assert (a + b)[1..] == a[1..] + b;
      ScanAppend(a[1..], b, Seen(a[0], seen));
    }
  }

  /** The session bookkeeping of a poll, as the tracker sees it. */
  lemma StepScan(cfg: ClockConfig, s: ClockState, t: int, g: bool)
    ensures var q := Step(cfg, s, t, g);
      BtsOnce(q.events, s.btsYielded) && SeenAfter(q.events, s.btsYielded) == q.next.btsYielded
      && (cfg.cal.isSession(DayLabel(t))
            && BtsTime(cfg, DayLabel(t)) <= cfg.cal.sessionOpen(DayLabel(t))
          ==> BarsAfterBts(q.events, s.btsYielded))
  {
    if cfg.cal.isSession(DayLabel(t)) {
      var b := StepBranch(cfg, s, t, g);
      var start, s1 := StartEvents(s, t), Enter(s, t);
      if NewSession(s, t) {
        assert start[1..] == [];
      }
      assert SeenAfter(start, s.btsYielded) == s1.btsYielded;
      assert BtsOnce(start, s.btsYielded) && BarsAfterBts(start, s.btsYielded);
      ScanAppend(start, BranchEvents(cfg, t, b), s.btsYielded);
      BranchScan(cfg, t, b, s1.btsYielded);
      BranchStateFacts(s1, t, b);
    }
  }

  /** A session's before-trading-start instant is no later than its open. */
  predicate BtsBeforeOpen(cfg: ClockConfig, t: int)
  {
    cfg.cal.isSession(DayLabel(t)) ==> BtsTime(cfg, DayLabel(t)) <= cfg.cal.sessionOpen(DayLabel(t))
  }

  /**
   * Over any polls, at most one BEFORE_TRADING_START_BAR is emitted per
   * session, and the tracker's flag agrees with the clock's; when every
   * session polled has its before-trading-start instant at or before the open,
   * no BAR of a session precedes that session's BEFORE_TRADING_START_BAR.
   */
  lemma {:induction false} RunBtsOnce(cfg: ClockConfig, s: ClockState, ts: seq<int>, g: bool)
    ensures var r := Run(cfg, s, ts, g);
      BtsOnce(r.events, s.btsYielded) && SeenAfter(r.events, s.btsYielded) == r.next.btsYielded
      && ((forall i :: 0 <= i < |ts| ==> BtsBeforeOpen(cfg, ts[i])) ==> BarsAfterBts(r.events, s.btsYielded))
    decreases |ts|
  {
    if |ts| > 0 {
      var n := |ts|;
      var pre := ts[..n - 1];
      assert forall i :: 0 <= i < |pre| ==> pre[i] == ts[i];
      RunBtsOnce(cfg, s, pre, g);
      var p := Run(cfg, s, pre, g);
      StepScan(cfg, p.next, ts[n - 1], g);
      ScanAppend(p.events, Step(cfg, p.next, ts[n - 1], g).events, s.btsYielded);
    }
  }

  /** With the flag set, a BEFORE_TRADING_START_BAR at `m` must follow a SESSION_START. */
  lemma {:induction false} BlockedUntilStart(evs: seq<ClockEvent>, m: int)
    requires BtsOnce(evs, true) && 0 <= m < |evs| && evs[m].kind == BeforeTradingStartBar
    ensures exists k :: 0 <= k < m && evs[k].kind == SessionStart
    decreases |evs|
  {
    if evs[0].kind == SessionStart {
      assert m > 0;
    } else {
      assert m > 0;
      assert Seen(evs[0], true);
      BlockedUntilStart(evs[1..], m - 1);
      var k :| 0 <= k < m - 1 && evs[1..][k].kind == SessionStart;
      assert evs[k + 1].kind == SessionStart;
    }
  }

  /**
   * The tracker's verdict, stated over positions: between any two
   * BEFORE_TRADING_START_BAR events there is a SESSION_START.
   */
  lemma {:induction false} BtsSeparatedBySessionStart(evs: seq<ClockEvent>, seen: bool)
    requires BtsOnce(evs, seen)
    ensures forall i, j ::
      (0 <= i < j < |evs| && evs[i].kind == BeforeTradingStartBar && evs[j].kind == BeforeTradingStartBar)
      ==> exists k :: i < k < j && evs[k].kind == SessionStart
    decreases |evs|
  {
    if evs != [] {
      var rest := evs[1..];
      BtsSeparatedBySessionStart(rest, Seen(evs[0], seen));
      forall i, j | 0 <= i < j < |evs| && evs[i].kind == BeforeTradingStartBar
        && evs[j].kind == BeforeTradingStartBar
        ensures exists k :: i < k < j && evs[k].kind == SessionStart
      {
        if i == 0 {
          assert rest[j - 1] == evs[j];
          BlockedUntilStart(rest, j - 1);
          var k :| 0 <= k < j - 1 && rest[k].kind == SessionStart;
          assert evs[k + 1].kind == SessionStart;
        } else {
          assert rest[i - 1] == evs[i] && rest[j - 1] == evs[j];
          var k :| i - 1 < k < j - 1 && rest[k].kind == SessionStart;
          assert evs[k + 1].kind == SessionStart;
        }
      }
    }
  }
}
