/**
 * The test clock that replays time: each pass of its loop first advances the
 * current time by exactly one minute and then classifies it with the same
 * dispatch as the live clock. It never stops by itself; `Advance(n)` runs `n`
 * passes.
 */
module FakeClocks {
  import opened Wrappers
  import opened TimeModel
  import opened ClockRules

  /** The minutes `start, start + 1, ..., start + n - 1`. */
  function Minutes(start: int, n: nat): (ts: seq<int>)
    ensures |ts| == n
    ensures forall i :: 0 <= i < n ==> ts[i] == start + i
    decreases n
  {
    if n == 0 then [] else Minutes(start, n - 1) + [start + n - 1]
  }

  /** `events` and `st` are what polling the `i` minutes from `start` yields. */
  ghost predicate Replayed(cfg: ClockConfig, s: ClockState, start: int, i: nat, g: bool,
                           events: seq<ClockEvent>, st: ClockState)
  {
    var r := Run(cfg, s, Minutes(start, i), g);
    events == r.events && st == r.next
  }

  /** Polling one more minute is one more step of the run. */
  lemma ReplayedStep(cfg: ClockConfig, s: ClockState, start: int, i: nat, g: bool,
                     events: seq<ClockEvent>, st: ClockState, z: int, more: seq<ClockEvent>, st': ClockState)
    requires Replayed(cfg, s, start, i, g, events, st) && z == start + i
    requires var q := Step(cfg, st, z, g); more == q.events && st' == q.next
    ensures Replayed(cfg, s, start, i + 1, g, events + more, st')
  {
    var ts := Minutes(start, i + 1);
    assert ts[..|ts| - 1] == Minutes(start, i);
    assert ts[|ts| - 1] == start + i;
    var p := Run(cfg, s, ts[..|ts| - 1], g);
    assert p == Poll(events, st);
    var q := Step(cfg, p.next, ts[|ts| - 1], g);
    assert q.events == more && q.next == st';
    assert Run(cfg, s, ts, g) == Poll(p.events + q.events, q.next);
  }

  class FakeClock {
    const cfg: ClockConfig
    /** `_current_time` */
    var currentTime: int
    var lastEmit: Option<int>
    var btsYielded: bool
    var session: Option<int>

    function State(): ClockState
      reads this
    {
      ClockState(session, lastEmit, btsYielded)
    }

    /** The clock only ever moves forward from its last emission. */
    predicate Valid()
      reads this
    {
      lastEmit.Some? ==> lastEmit.value <= currentTime
    }

    /**
     * The start time is the given initial time floored to a minute, or else
     * the current UTC time (given here as a minute).
     */
    constructor(cfg: ClockConfig, initSeconds: Option<int>, utcNowMinute: int)
      ensures this.cfg == cfg && State() == Initial && Valid()
      ensures currentTime == if initSeconds.Some? then initSeconds.value / 60 else utcNowMinute
    {
      this.cfg := cfg;
      lastEmit := None;
      btsYielded := false;
      session := None;
      currentTime := if initSeconds.Some? then initSeconds.value / 60 else utcNowMinute;
    }

    /** `now`: the last minute produced (shown in New York time, the same instant). */
    function Now(): int
      reads this
    {
      currentTime
    }

    /** `_next`: advance by one minute and return the new time. */
    method Next() returns (t: int)
      modifies this
      ensures t == old(currentTime) + 1 && currentTime == t
      ensures State() == old(State())
    {
      currentTime := currentTime + 1;
      t := currentTime;
    }

    /** Starting an iteration forgets the current session. */
    method StartIteration()
      modifies this
      ensures State() == old(State()).(session := None) && currentTime == old(currentTime)
      ensures Valid() == old(Valid())
    {
      session := None;
    }

    /** `n` passes of the iteration loop. */
    method Advance(n: nat) returns (events: seq<ClockEvent>)
      requires Valid()
      modifies this
      ensures var r := Run(cfg, old(State()), Minutes(old(currentTime) + 1, n), false);
        events == r.events && State() == r.next
      ensures currentTime == old(currentTime) + n && Valid()
    {
      events := [];
      var i := 0;
      ghost var s0 := State();
      ghost var t0 := currentTime;
      while i < n
        invariant 0 <= i <= n && currentTime == t0 + i
        invariant Replayed(cfg, s0, t0 + 1, i, false, events, State())
        invariant Valid()
      {
        var t := Next();
        ghost var before := State();
        var more := Tick(t);
        StepStateFacts(cfg, before, t, false);
        ReplayedStep(cfg, s0, t0 + 1, i, false, events, before, t, more, State());
        events := events + more;
        i := i + 1;
      }
    }

    /** Classify minute `t` (the loop body after `_next`). */
    method Tick(t: int) returns (events: seq<ClockEvent>)
      modifies this
      ensures var p := Step(cfg, old(State()), t, false); events == p.events && State() == p.next
      ensures currentTime == old(currentTime)
    {
      var sessionLabel := t - t % 1440;
      events := [];
      if !cfg.cal.isSession(sessionLabel) {
        return;
      }
      events := EnterSession(t);
      var more := Classify(t, sessionLabel);
      events := events + more;
    }

    /** The session bookkeeping of a pass: a new label yields SESSION_START and clears the flag. */
    method EnterSession(t: int) returns (events: seq<ClockEvent>)
      modifies this
      ensures events == StartEvents(old(State()), t) && State() == Enter(old(State()), t)
      ensures currentTime == old(currentTime)
    {
      var sessionLabel := t - t % 1440;
      events := [];
      if session.None? || session.value != sessionLabel {
        events := [ClockEvent(sessionLabel, SessionStart)];
        session := Some(sessionLabel);
        btsYielded := false;
      }
    }

    /** The branch chain of a pass at minute `t`, in session `sessionLabel`. */
    method Classify(t: int, sessionLabel: int) returns (events: seq<ClockEvent>)
      modifies this
      ensures var b := Choose(cfg, old(State()), t, sessionLabel, false);
        events == BranchEvents(cfg, t, b) && State() == BranchState(old(State()), t, b)
      ensures currentTime == old(currentTime)
    {
      var beforeTradingStart := cfg.bts.zone.localize(sessionLabel) + 60 * cfg.bts.hour + cfg.bts.minute;
      var sessionOpen := cfg.cal.sessionOpen(sessionLabel);
      var sessionClose := cfg.cal.sessionClose(sessionLabel);
      events := [];
      if t >= beforeTradingStart && !btsYielded {
        lastEmit := Some(t);
        btsYielded := true;
        events := events + [ClockEvent(t, BeforeTradingStartBar)];
      } else if t < sessionOpen {
      } else if sessionOpen <= t < sessionClose {
        if lastEmit.None? || t - lastEmit.value >= 1 {
          lastEmit := Some(t);
          events := events + [ClockEvent(t, Bar)];
          if cfg.minuteEmission {
            events := events + [ClockEvent(t, MinuteEnd)];
          }
        }
      } else if t == sessionClose {
        lastEmit := Some(t);
        events := events + [ClockEvent(t, Bar)];
        if cfg.minuteEmission {
          events := events + [ClockEvent(t, MinuteEnd)];
        }
        events := events + [ClockEvent(t, SessionEnd)];
      } else if t > sessionClose {
      }
    }
  }

  /**
   * What the replaying clock guarantees: successive minutes need no gap guard,
   * so its events are ordered, its BAR timestamps strictly increase (one BAR
   * per minute at most) and each close minute yields SESSION_END once.
   */
  lemma {:induction false} AdvanceIsStrict(cfg: ClockConfig, s: ClockState, now: int, n: nat)
    requires n > 0
    requires s.lastEmit.Some? ==> s.lastEmit.value <= now
    ensures var evs := Run(cfg, s, Minutes(now + 1, n), false).events;
      Ordered(evs) && StrictFor(evs, Bar) && StrictFor(evs, SessionEnd)
  {
    var ts := Minutes(now + 1, n);
    MinuteStepsNeedNoGuard(cfg, s, ts);
    RunOrdered(cfg, s, ts, true);
  }
}
