/**
 * The smoke-test clock: it starts one minute before the before-trading-start
 * time of the previous session close's New York date, replays minutes one at
 * a time and stops once the time passes that previous close.
 */
module SmokeClocks {
  import opened Wrappers
  import opened TimeModel
  import opened ClockRules
  import opened FakeClocks

  /**
   * `_set_before_trading_start`: the configured wall time on the local date
   * of `t`, minus one minute.
   */
  function BtsEve(w: WallTime, t: int): int
  {
    OnLocalDate(w, t) - 1
  }

  /**
   * Where the zone reads its wall-clock minutes back faithfully, the minute
   * after `BtsEve(w, t)` is the configured time of day on `t`'s local date.
   */
  lemma BtsEveIsWallTime(w: WallTime, t: int)
    requires w.hour < 24 && w.minute < 60
    requires var x := DayLabel(w.zone.toLocal(t)) + MinuteOfDay(w); w.zone.toLocal(w.zone.localize(x)) == x
    ensures var local := w.zone.toLocal(BtsEve(w, t) + 1);
      DayLabel(local) == DayLabel(w.zone.toLocal(t)) && local - DayLabel(local) == MinuteOfDay(w)
  {
    var d := DayLabel(w.zone.toLocal(t));
    var x := d + MinuteOfDay(w);
    assert 0 <= MinuteOfDay(w) < MinutesPerDay;
    assert d % MinutesPerDay == 0;
    assert DayLabel(x) == d by {
      assert x % MinutesPerDay == MinuteOfDay(w);
    }
  }

  /** The time `rollback(days)` lands on from `t`. */
  function Rollback(cal: Calendar, w: WallTime, t: int, days: nat): int
    decreases days
  {
    if days == 0 then t else BtsEve(w, cal.previousOpen(Rollback(cal, w, t, days - 1)))
  }

  /** Rolling back `a` days and then `b` days is rolling back `a + b` days. */
  lemma {:induction false} RollbackCompose(cal: Calendar, w: WallTime, t: int, a: nat, b: nat)
    ensures Rollback(cal, w, Rollback(cal, w, t, a), b) == Rollback(cal, w, t, a + b)
    decreases b
  {
    if b > 0 {
      RollbackCompose(cal, w, t, a, b - 1);
      var before := Rollback(cal, w, t, a + (b - 1));
      assert Rollback(cal, w, t, a + b) == BtsEve(w, cal.previousOpen(before));
    }
  }

  /** How many minutes after `now` are still at or before `end`. */
  function Remaining(now: int, end: int): (n: nat)
    ensures now + n == if now < end then end else now
  {
    if now < end then end - now else 0
  }

  class SmokeClock {
    var calendar: Calendar
    /** `configure` stores its calendar argument under `_calendar`, which iteration never reads. */
    var configuredCalendar: Option<Calendar>
    var bts: WallTime
    var minuteEmission: bool
    var lastEmit: Option<int>
    var btsYielded: bool
    var session: Option<int>
    var currentTime: int
    /** `_fake_end`, read through `end_time` */
    var fakeEnd: int

    function Config(): ClockConfig
      reads this
    {
      ClockConfig(calendar, bts, minuteEmission)
    }

    function State(): ClockState
      reads this
    {
      ClockState(session, lastEmit, btsYielded)
    }

    constructor(calendar: Calendar, bts: WallTime, minuteEmission: bool, utcNowMinute: int)
      ensures Config() == ClockConfig(calendar, bts, minuteEmission) && configuredCalendar.None?
      ensures State() == Initial
      ensures fakeEnd == calendar.previousClose(utcNowMinute)
      ensures currentTime == BtsEve(bts, fakeEnd)
    {
      this.calendar := calendar;
      this.bts := bts;
      this.minuteEmission := minuteEmission;
      configuredCalendar := None;
      lastEmit := None;
      btsYielded := false;
      session := None;
      var prevClose := calendar.previousClose(utcNowMinute);
      currentTime := BtsEve(bts, prevClose);
      fakeEnd := prevClose;
    }

    function EndTime(): int
      reads this
    {
      fakeEnd
    }

    function Now(): int
      reads this
    {
      currentTime
    }

    /** `rollback(days)`: step back `days` sessions and clear the before-trading-start flag. */
    method RollbackDays(days: nat)
      modifies this
      ensures currentTime == Rollback(calendar, bts, old(currentTime), days)
      ensures !btsYielded
      ensures lastEmit == old(lastEmit) && session == old(session) && fakeEnd == old(fakeEnd)
      ensures Config() == old(Config()) && configuredCalendar == old(configuredCalendar)
    {
      var current := currentTime;
      var i := 0;
      while i < days
        invariant 0 <= i <= days
        invariant current == Rollback(calendar, bts, old(currentTime), i)
      {
        current := calendar.previousOpen(current);
        current := BtsEve(bts, current);
        i := i + 1;
      }
      currentTime := current;
      btsYielded := false;
    }

    /** `configure`: only the arguments that are given change anything. */
    method Configure(calendar: Option<Calendar>, bts: Option<WallTime>,
                     minuteEmission: Option<bool>, currentTime: Option<int>)
      modifies this
      ensures configuredCalendar == if calendar.Some? then calendar else old(configuredCalendar)
      ensures this.calendar == old(this.calendar)
      ensures this.bts == if bts.Some? then bts.value else old(this.bts)
      ensures this.minuteEmission == if minuteEmission.Some? then minuteEmission.value else old(this.minuteEmission)
      ensures this.currentTime == if currentTime.Some? then currentTime.value else old(this.currentTime)
      ensures State() == old(State()) && fakeEnd == old(fakeEnd)
    {
      if calendar.Some? {
        configuredCalendar := calendar;
      }
      if bts.Some? {
        this.bts := bts.value;
      }
      if minuteEmission.Some? {
        this.minuteEmission := minuteEmission.value;
      }
      if currentTime.Some? {
        this.currentTime := currentTime.value;
      }
    }

    /** `_next`: advance one minute; past the end the iteration stops. */
    method Next() returns (t: Option<int>)
      modifies this
      ensures currentTime == old(currentTime) + 1
      ensures t == if currentTime > fakeEnd then None else Some(currentTime)
      ensures State() == old(State()) && fakeEnd == old(fakeEnd)
      ensures calendar == old(calendar) && bts == old(bts) && minuteEmission == old(minuteEmission)
    {
      currentTime := currentTime + 1;
      if currentTime > fakeEnd {
        return None;
      }
      return Some(currentTime);
    }

    /** Classify minute `t` with the current configuration. */
    method Tick(ghost cfg: ClockConfig, t: int) returns (events: seq<ClockEvent>)
      requires calendar == cfg.cal && bts == cfg.bts && minuteEmission == cfg.minuteEmission
      modifies this
      ensures var p := Step(cfg, old(State()), t, false); events == p.events && State() == p.next
      ensures currentTime == old(currentTime) && fakeEnd == old(fakeEnd)
      ensures calendar == old(calendar) && bts == old(bts) && minuteEmission == old(minuteEmission)
    {
      var sessionLabel := t - t % 1440;
      events := [];
      if !calendar.isSession(sessionLabel) {
        return;
      }
      events := EnterSession(t);
      var more := Classify(cfg, t, sessionLabel);
      events := events + more;
    }

    /** The session bookkeeping of a pass: a new label yields SESSION_START and clears the flag. */
    method EnterSession(t: int) returns (events: seq<ClockEvent>)
      modifies this
      ensures events == StartEvents(old(State()), t) && State() == Enter(old(State()), t)
      ensures currentTime == old(currentTime) && fakeEnd == old(fakeEnd)
      ensures calendar == old(calendar) && bts == old(bts) && minuteEmission == old(minuteEmission)
    {
      var sessionLabel := t - t % 1440;
      events := [];
      if session.None? || session.value != sessionLabel {
        events := [ClockEvent(sessionLabel, SessionStart)];
        session := Some(sessionLabel);
        btsYielded := false;
      }
    }

    /** The branch chain of a pass at minute `t`, in session `sessionLabel`. */
    method Classify(ghost cfg: ClockConfig, t: int, sessionLabel: int) returns (events: seq<ClockEvent>)
      requires calendar == cfg.cal && bts == cfg.bts && minuteEmission == cfg.minuteEmission
      modifies this
      ensures var b := Choose(cfg, old(State()), t, sessionLabel, false);
        events == BranchEvents(cfg, t, b) && State() == BranchState(old(State()), t, b)
      ensures currentTime == old(currentTime) && fakeEnd == old(fakeEnd)
      ensures calendar == old(calendar) && bts == old(bts) && minuteEmission == old(minuteEmission)
    {
      var beforeTradingStart := bts.zone.localize(sessionLabel) + 60 * bts.hour + bts.minute;
      var sessionOpen := calendar.sessionOpen(sessionLabel);
      var sessionClose := calendar.sessionClose(sessionLabel);
      events := [];
      if t >= beforeTradingStart && !btsYielded {
        lastEmit := Some(t);
        btsYielded := true;
        events := events + [ClockEvent(t, BeforeTradingStartBar)];
      } else if t < sessionOpen {
      } else if sessionOpen <= t < sessionClose {
        if lastEmit.None? || t - lastEmit.value >= 1 {
          lastEmit := Some(t);
          events := events + [ClockEvent(t, Bar)];
          if minuteEmission {
            events := events + [ClockEvent(t, MinuteEnd)];
          }
        }
      } else if t == sessionClose {
        lastEmit := Some(t);
        events := events + [ClockEvent(t, Bar)];
        if minuteEmission {
          events := events + [ClockEvent(t, MinuteEnd)];
        }
        events := events + [ClockEvent(t, SessionEnd)];
      } else if t > sessionClose {
      }
    }

    /**
     * A whole iteration, from a fresh session: every minute after the current
     * time up to the end is classified, and then the iteration stops.
     */
    method Iterate() returns (events: seq<ClockEvent>)
      modifies this
      ensures fakeEnd == old(fakeEnd)
      ensures calendar == old(calendar) && bts == old(bts) && minuteEmission == old(minuteEmission)
      ensures currentTime == old(currentTime) + Remaining(old(currentTime), fakeEnd) + 1
      ensures var r := Run(ClockConfig(calendar, bts, minuteEmission), ClockState(None, old(lastEmit), old(btsYielded)),
                           Minutes(old(currentTime) + 1, Remaining(old(currentTime), fakeEnd)), false);
        events == r.events && State() == r.next
    {
      session := None;
      events := Replay(Config());
    }

    /** The loop of an iteration: `_next` and classify until `_next` stops. */
    method Replay(ghost cfg: ClockConfig) returns (events: seq<ClockEvent>)
      requires calendar == cfg.cal && bts == cfg.bts && minuteEmission == cfg.minuteEmission
      modifies this
      ensures fakeEnd == old(fakeEnd)
      ensures calendar == old(calendar) && bts == old(bts) && minuteEmission == old(minuteEmission)
      ensures currentTime == old(currentTime) + Remaining(old(currentTime), fakeEnd) + 1
      ensures var r := Run(cfg, old(State()), Minutes(old(currentTime) + 1, Remaining(old(currentTime), fakeEnd)), false);
        events == r.events && State() == r.next
    {
      events := [];
      ghost var s0, t0 := State(), currentTime;
      ghost var n := Remaining(t0, fakeEnd);
      ghost var i := 0;
      while true
        invariant 0 <= i <= n && fakeEnd == old(fakeEnd) && currentTime == t0 + i
        invariant calendar == cfg.cal && bts == cfg.bts && minuteEmission == cfg.minuteEmission
        invariant Replayed(cfg, s0, t0 + 1, i, false, events, State())
        decreases n - i
      {
        var t := Next();
        if t.None? {
          break;
        }
        ghost var before := State();
        var more := Tick(cfg, t.value);
        ReplayedStep(cfg, s0, t0 + 1, i, false, events, before, t.value, more, State());
        events := events + more;
        i := i + 1;
      }
    }
  }

  /** No event of a smoke iteration is later than the end time. */
  lemma IterationEndsByEndTime(cfg: ClockConfig, s: ClockState, now: int, end: int)
    ensures var n := if now < end then end - now else 0;
      forall e :: e in Run(cfg, s, Minutes(now + 1, n), false).events ==> e.dt <= end
  {
    var n := if now < end then end - now else 0;
    RunBounded(cfg, s, Minutes(now + 1, n), false, end);
  }
}
