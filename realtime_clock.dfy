/**
 * The live clock: it polls the wall clock, shifts it by the broker's skew,
 * floors it to a minute and classifies that minute. Sleeping between polls
 * has no effect on the state and is not modelled; a session's polls are the
 * wall-clock readings given to `Poll`.
 */
module RealtimeClocks {
  import opened Wrappers
  import opened TimeModel
  import opened ClockRules

  /** The server minutes of a sequence of wall-clock readings. */
  function ServerMinutes(nows: seq<int>, skewSeconds: int): (ts: seq<int>)
    ensures |ts| == |nows|
    ensures forall i :: 0 <= i < |nows| ==> ts[i] == ServerMinute(nows[i], skewSeconds)
    decreases |nows|
  {
    if |nows| == 0 then []
    else ServerMinutes(nows[..|nows| - 1], skewSeconds) + [ServerMinute(nows[|nows| - 1], skewSeconds)]
  }

  class RealtimeClock {
    const cfg: ClockConfig
    const skewSeconds: int
    /** `_last_emit` */
    var lastEmit: Option<int>
    /** `_before_trading_start_bar_yielded` */
    var btsYielded: bool
    /** The iteration's local `current_session`. */
    var session: Option<int>

    function State(): ClockState
      reads this
    {
      ClockState(session, lastEmit, btsYielded)
    }

    constructor(cfg: ClockConfig, skewSeconds: int)
      ensures this.cfg == cfg && this.skewSeconds == skewSeconds
      ensures State() == Initial
    {
      this.cfg := cfg;
      this.skewSeconds := skewSeconds;
      lastEmit := None;
      btsYielded := false;
      session := None;
    }

    /** Starting an iteration forgets the current session; the flags persist on the object. */
    method StartIteration()
      modifies this
      ensures State() == old(State()).(session := None)
    {
      session := None;
    }

    /** One pass of the loop body, at wall-clock second `nowSeconds`. */
    method Poll(nowSeconds: int) returns (events: seq<ClockEvent>)
      modifies this
      ensures var p := Step(cfg, old(State()), ServerMinute(nowSeconds, skewSeconds), false);
        events == p.events && State() == p.next
    {
      var serverTime := (nowSeconds + skewSeconds) / 60;
      var sessionLabel := serverTime - serverTime % 1440;
      events := [];
      if !cfg.cal.isSession(sessionLabel) {
        return;
      }
      events := EnterSession(serverTime);
      var more := Classify(serverTime, sessionLabel);
      events := events + more;
    }

    /** The session bookkeeping of a pass: a new label yields SESSION_START and clears the flag. */
    method EnterSession(t: int) returns (events: seq<ClockEvent>)
      modifies this
      ensures events == StartEvents(old(State()), t) && State() == Enter(old(State()), t)
    {
      var sessionLabel := t - t % 1440;
      events := [];
      if session.None? || session.value != sessionLabel {
        events := [ClockEvent(sessionLabel, SessionStart)];
        session := Some(sessionLabel);
        btsYielded := false;
      }
    }

    /** The branch chain of a pass at server minute `serverTime`, in session `sessionLabel`. */
    method Classify(serverTime: int, sessionLabel: int) returns (events: seq<ClockEvent>)
      modifies this
      ensures var b := Choose(cfg, old(State()), serverTime, sessionLabel, false);
        events == BranchEvents(cfg, serverTime, b) && State() == BranchState(old(State()), serverTime, b)
    {
      var beforeTradingStart := cfg.bts.zone.localize(sessionLabel) + 60 * cfg.bts.hour + cfg.bts.minute;
      var sessionOpen := cfg.cal.sessionOpen(sessionLabel);
      var sessionClose := cfg.cal.sessionClose(sessionLabel);
      events := [];
      if serverTime >= beforeTradingStart && !btsYielded {
        lastEmit := Some(serverTime);
        btsYielded := true;
        events := events + [ClockEvent(serverTime, BeforeTradingStartBar)];
      } else if serverTime < sessionOpen {
      } else if sessionOpen <= serverTime < sessionClose {
        if lastEmit.None? || serverTime - lastEmit.value >= 1 {
          lastEmit := Some(serverTime);
          events := events + [ClockEvent(serverTime, Bar)];
          if cfg.minuteEmission {
            events := events + [ClockEvent(serverTime, MinuteEnd)];
          }
        }
      } else if serverTime == sessionClose {
        lastEmit := Some(serverTime);
        events := events + [ClockEvent(serverTime, Bar)];
        if cfg.minuteEmission {
          events := events + [ClockEvent(serverTime, MinuteEnd)];
        }
        events := events + [ClockEvent(serverTime, SessionEnd)];
      } else if serverTime > sessionClose {
      }
    }

    /** Successive passes of the loop at the wall-clock readings `nows`. */
    method PollAll(nows: seq<int>) returns (events: seq<ClockEvent>)
      modifies this
      ensures var r := Run(cfg, old(State()), ServerMinutes(nows, skewSeconds), false);
        events == r.events && State() == r.next
    {
      events := [];
      var i := 0;
      while i < |nows|
        invariant 0 <= i <= |nows|
        invariant var r := Run(cfg, old(State()), ServerMinutes(nows[..i], skewSeconds), false);
          events == r.events && State() == r.next
      {
        var more := Poll(nows[i]);
        assert ServerMinutes(nows[..i + 1], skewSeconds)[..i] == ServerMinutes(nows[..i], skewSeconds);
        events := events + more;
        i := i + 1;
      }
      assert nows[..i] == nows;
    }
  }
}
