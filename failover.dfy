/** The per-cycle failover transition shared by the monitoring loop of
    src/monitor_wan1.py and by the older mode-less loop of monitor_wan1.py,
    together with what it does over a run of cycles. */
module Failover {
  import opened Wrappers
  import opened StateRecord

  /** Defaults of the `FAILURE_THRESHOLD` and `RECOVERY_DELAY` settings. */
  const DefaultThreshold: int := 3
  const DefaultRecoveryDelay: int := 600

  /** The two tuning settings; both come from the environment and may be any
      integer. `recoveryDelay` is in seconds. */
  datatype Config = Config(threshold: int, recoveryDelay: int)

  /** One cycle's inputs: the health probe's verdict, the clock reading, and
      whether the outlet acknowledges a command if one is sent this cycle. */
  datatype Sample = Sample(online: bool, now: int, acked: bool)

  /** The record a cycle leaves behind and the outlet command it sent. */
  datatype Outcome = Outcome(st: State, cmd: Option<Command>)

  /** The record after a run of cycles and the command of each cycle. */
  datatype Trace = Trace(st: State, cmds: seq<Option<Command>>)

  /** The recovery timer the online branch evaluates: the stored one, or the
      current time when it starts the timer in this very cycle. */
  function TimerStart(s: State, now: int): int
  {
    s.onlineSince.GetOr(now)
  }

  /** The AUTO branch of one cycle, stated case by case. */
  function AutoStep(cfg: Config, s: State, x: Sample): (r: Outcome)
    // the count: reset by an online sample, one more for an offline one
    ensures x.online ==> r.st.failures == 0
    ensures !x.online ==> r.st.failures == s.failures + 1
    // "on" exactly when the incremented count reaches the threshold while the plug is off
    ensures r.cmd == Some(TurnOn) <==> !x.online && s.failures + 1 >= cfg.threshold && !s.plugOn
    // "off" exactly when the plug is on and the timer has run for the recovery delay
    ensures r.cmd == Some(TurnOff) <==>
              x.online && s.plugOn && x.now - TimerStart(s, x.now) >= cfg.recoveryDelay
    // only an acknowledged command changes the belief about the plug
    ensures r.st.plugOn == if r.cmd.Some? && x.acked then r.cmd == Some(TurnOn) else s.plugOn
    // an acknowledged command clears the timer; an online sample with the plug
    // on starts it if needed and otherwise leaves it as it was
    ensures r.st.onlineSince ==
              if r.cmd.Some? && x.acked then None
              else if x.online && s.plugOn then Some(TimerStart(s, x.now))
              else s.onlineSince
    ensures r.st.mode == s.mode
    ensures TimerImpliesPlug(s) ==> TimerImpliesPlug(r.st)
  {
    if x.online then
      var reset := s.(failures := 0);
      if !s.plugOn then Outcome(reset, None)
      else
        var since := TimerStart(s, x.now);
        if x.now - since < cfg.recoveryDelay then Outcome(reset.(onlineSince := Some(since)), None)
        else if x.acked then Outcome(reset.(plugOn := false, onlineSince := None), Some(TurnOff))
        else Outcome(reset.(onlineSince := Some(since)), Some(TurnOff))
    else
      var counted := s.(failures := s.failures + 1);
      if counted.failures < cfg.threshold || s.plugOn then Outcome(counted, None)
      else if x.acked then Outcome(counted.(plugOn := true, onlineSince := None), Some(TurnOn))
      else Outcome(counted, Some(TurnOn))
  }

  /** The body of one monitoring cycle as the loop runs it: updates a copy of
      the loaded record key by key and reports the command it sent. */
  method ApplySample(cfg: Config, s: State, x: Sample) returns (r: State, cmd: Option<Command>)
    ensures Outcome(r, cmd) == AutoStep(cfg, s, x)
  {
    r, cmd := s, None;
    if x.online {
      r := r.(failures := 0);
      if r.plugOn {
        if r.onlineSince.None? {
          r := r.(onlineSince := Some(x.now));
        }
        if r.onlineSince.Some? {
          var elapsed := x.now - r.onlineSince.value;
          if elapsed >= cfg.recoveryDelay {
            cmd := Some(TurnOff);
            if x.acked {
              r := r.(plugOn := false, onlineSince := None);
            }
          }
        }
      }
    } else {
      r := r.(failures := r.failures + 1);
      if r.failures >= cfg.threshold {
        if !r.plugOn {
          cmd := Some(TurnOn);
          if x.acked {
            r := r.(plugOn := true, onlineSince := None);
          }
        }
      }
    }
  }

  /** A run of AUTO cycles, each starting from the record the previous one saved. */
  function AutoRun(cfg: Config, s: State, xs: seq<Sample>): (r: Trace)
    ensures |r.cmds| == |xs|
    ensures r.st.mode == s.mode
    decreases |xs|
  {
    if xs == [] then Trace(s, [])
    else
      var o := AutoStep(cfg, s, xs[0]);
      var rest := AutoRun(cfg, o.st, xs[1..]);
      Trace(rest.st, [o.cmd] + rest.cmds)
  }

  /** One more cycle at the end of a run: the shape a loop unfolds. */
  lemma {:induction false} AutoRunSnoc(cfg: Config, s: State, xs: seq<Sample>, x: Sample)
    ensures AutoRun(cfg, s, xs + [x]) ==
            Trace(AutoStep(cfg, AutoRun(cfg, s, xs).st, x).st,
                  AutoRun(cfg, s, xs).cmds + [AutoStep(cfg, AutoRun(cfg, s, xs).st, x).cmd])
    decreases |xs|
  {
    if xs != [] {
      var o := AutoStep(cfg, s, xs[0]);
      assert (xs + [x])[1..] == xs[1..] + [x];
      AutoRunSnoc(cfg, o.st, xs[1..], x);
    }
  }

  /** Every run keeps "timer set implies plug on". */
  lemma {:induction false} AutoRunKeepsTimerImpliesPlug(cfg: Config, s: State, xs: seq<Sample>)
    requires TimerImpliesPlug(s)
    ensures TimerImpliesPlug(AutoRun(cfg, s, xs).st)
    decreases |xs|
  {
    if xs != [] {
      AutoRunKeepsTimerImpliesPlug(cfg, AutoStep(cfg, s, xs[0]).st, xs[1..]);
    }
  }

  /** Startup reconciliation: a successful live query of the outlet
      overwrites the belief about the plug and nothing else; a failed one
      keeps the loaded record. */
  function Reconciled(s: State, live: Option<bool>): (r: State)
    ensures r.plugOn == live.GetOr(s.plugOn)
    ensures r.failures == s.failures && r.onlineSince == s.onlineSince && r.mode == s.mode
    ensures live.None? ==> r == s
  {
    if live.Some? then s.(plugOn := live.value) else s
  }

  /** Reconciliation can leave a running timer behind a plug now believed off. */
  lemma ReconcileCanBreakTimerImpliesPlug()
    ensures var s := State(0, true, Some(0), Some(Auto));
      TimerImpliesPlug(s) && !TimerImpliesPlug(Reconciled(s, Some(false)))
  {
  }

  // ---------------------------------------------------------------------------
  // The failure count over a run

  /** The number of offline samples at the end of `xs`, after its last online one. */
  function TrailingOffline(xs: seq<Sample>): (n: nat)
    ensures n <= |xs|
  {
    if xs == [] || xs[|xs| - 1].online then 0 else TrailingOffline(xs[..|xs| - 1]) + 1
  }

  ghost predicate AnyOnline(xs: seq<Sample>)
  {
    exists i :: 0 <= i < |xs| && xs[i].online
  }

  /** After a run the count is the number of trailing offline samples; with no
      online sample at all it has grown by the run's length. */
  lemma {:induction false} FailureCount(cfg: Config, s: State, xs: seq<Sample>)
    ensures AutoRun(cfg, s, xs).st.failures ==
            if AnyOnline(xs) then TrailingOffline(xs) else s.failures + |xs|
    decreases |xs|
  {
    if xs != [] {
      var ys, y := xs[..|xs| - 1], xs[|xs| - 1];
      assert xs == ys + [y];
      AutoRunSnoc(cfg, s, ys, y);
      FailureCount(cfg, s, ys);
      assert AnyOnline(xs) <==> AnyOnline(ys) || y.online by {
        if AnyOnline(xs) && !y.online {
          var i :| 0 <= i < |xs| && xs[i].online;
          assert i < |ys| && ys[i] == xs[i];
        }
        if AnyOnline(ys) {
          var i :| 0 <= i < |ys| && ys[i].online;
          assert xs[i] == ys[i];
        }
      }
    }
  }

  // ---------------------------------------------------------------------------
  // An outage: a run of offline samples

  /** Whether, before cycle `i` of an outage that starts from `s`, a cycle at
      or past the threshold had its "on" command acknowledged. */
  ghost predicate SwitchedOn(cfg: Config, s: State, xs: seq<Sample>, i: int)
    requires 0 <= i <= |xs|
  {
    exists j :: 0 <= j < i && s.failures + j + 1 >= cfg.threshold && xs[j].acked
  }

  /** During an outage the count climbs by one per cycle, "off" is never sent,
      and "on" is sent in exactly the cycles that reach the threshold while
      the plug is still believed off, retried until the outlet acknowledges. */
  lemma {:induction false} Outage(cfg: Config, s: State, xs: seq<Sample>)
    requires forall i :: 0 <= i < |xs| ==> !xs[i].online
    ensures var r := AutoRun(cfg, s, xs);
      && r.st.failures == s.failures + |xs|
      && (forall i :: 0 <= i < |xs| ==>
            r.cmds[i] == if !s.plugOn && !SwitchedOn(cfg, s, xs, i) && s.failures + i + 1 >= cfg.threshold
                         then Some(TurnOn) else None)
      && r.st.plugOn == (s.plugOn || SwitchedOn(cfg, s, xs, |xs|))
    decreases |xs|
  {
    if xs != [] {
      var o := AutoStep(cfg, s, xs[0]);
      var rest := xs[1..];
      Outage(cfg, o.st, rest);
      // an acknowledgement in cycle j + 1 of xs is one in cycle j of rest
      forall i | 0 <= i <= |rest|
        ensures SwitchedOn(cfg, s, xs, i + 1) <==>
                (s.failures + 1 >= cfg.threshold && xs[0].acked) || SwitchedOn(cfg, o.st, rest, i)
      {
        if SwitchedOn(cfg, s, xs, i + 1) && !(s.failures + 1 >= cfg.threshold && xs[0].acked) {
          var j :| 0 <= j < i + 1 && s.failures + j + 1 >= cfg.threshold && xs[j].acked;
          assert j > 0 && rest[j - 1] == xs[j];
        }
        if SwitchedOn(cfg, o.st, rest, i) {
          var j :| 0 <= j < i && o.st.failures + j + 1 >= cfg.threshold && rest[j].acked;
          assert xs[j + 1] == rest[j];
        }
      }
      assert !SwitchedOn(cfg, s, xs, 0);
    }
  }

  /** At most one successful "on" per outage: after the outlet acknowledges
      "on", no later offline cycle sends anything. */
  lemma AtMostOneSwitchOn(cfg: Config, s: State, xs: seq<Sample>, i: int, j: int)
    requires forall k :: 0 <= k < |xs| ==> !xs[k].online
    requires 0 <= i < j < |xs|
    requires AutoRun(cfg, s, xs).cmds[i] == Some(TurnOn) && xs[i].acked
    ensures AutoRun(cfg, s, xs).cmds[j] == None
  {
    Outage(cfg, s, xs);
    assert s.failures + i + 1 >= cfg.threshold;
    assert SwitchedOn(cfg, s, xs, j);
  }

  // ---------------------------------------------------------------------------
  // Recovery: a run of online samples while the plug is believed on

  /** Whether, before cycle `i`, a cycle whose elapsed time had reached the
      recovery delay from timer start `t` had its "off" acknowledged. */
  ghost predicate Released(cfg: Config, t: int, xs: seq<Sample>, i: int)
    requires 0 <= i <= |xs|
  {
    exists j :: 0 <= j < i && xs[j].now - t >= cfg.recoveryDelay && xs[j].acked
  }

  /** With the plug believed off, online samples only reset the count. */
  lemma {:induction false} IdleOnline(cfg: Config, s: State, xs: seq<Sample>)
    requires !s.plugOn
    requires forall i :: 0 <= i < |xs| ==> xs[i].online
    ensures var r := AutoRun(cfg, s, xs);
      && (forall i :: 0 <= i < |xs| ==> r.cmds[i] == None)
      && r.st == if xs == [] then s else s.(failures := 0)
    decreases |xs|
  {
    if xs != [] {
      IdleOnline(cfg, AutoStep(cfg, s, xs[0]).st, xs[1..]);
    }
  }

  /** Sustained uptime while the plug is believed on, with the timer started
      at `t` (already running, or started by the first sample). "Off" is sent
      in exactly the cycles whose time since `t` has reached the recovery
      delay, until one is acknowledged; the timer is never restarted; the plug
      is released and the timer cleared only by that acknowledgement. */
  lemma {:induction false} Recovery(cfg: Config, s: State, xs: seq<Sample>, t: int)
    requires s.plugOn
    requires forall i :: 0 <= i < |xs| ==> xs[i].online
    requires s.onlineSince == Some(t) || (s.onlineSince.None? && |xs| > 0 && xs[0].now == t)
    ensures var r := AutoRun(cfg, s, xs);
      && (forall i :: 0 <= i < |xs| ==>
            r.cmds[i] == if !Released(cfg, t, xs, i) && xs[i].now - t >= cfg.recoveryDelay
                         then Some(TurnOff) else None)
      && r.st.plugOn == !Released(cfg, t, xs, |xs|)
      && r.st.onlineSince == (if Released(cfg, t, xs, |xs|) then None else Some(t))
      && r.st.failures == if xs == [] then s.failures else 0
    decreases |xs|
  {
    if xs != [] {
      var o := AutoStep(cfg, s, xs[0]);
      var rest := xs[1..];
      var first := xs[0].now - t >= cfg.recoveryDelay && xs[0].acked;
      forall i | 0 <= i <= |rest|
        ensures Released(cfg, t, xs, i + 1) <==> first || Released(cfg, t, rest, i)
      {
        if Released(cfg, t, xs, i + 1) && !first {
          var j :| 0 <= j < i + 1 && xs[j].now - t >= cfg.recoveryDelay && xs[j].acked;
          assert j > 0 && rest[j - 1] == xs[j];
        }
        if Released(cfg, t, rest, i) {
          var j :| 0 <= j < i && rest[j].now - t >= cfg.recoveryDelay && rest[j].acked;
          assert xs[j + 1] == rest[j];
        }
      }
      assert !Released(cfg, t, xs, 0);
      if first {
        IdleOnline(cfg, o.st, rest);
      } else {
        Recovery(cfg, o.st, rest, t);
      }
    }
  }

  /** Downtime during the countdown does not restart it: an offline sample
      leaves the timer running, so the plug can be released on the very next
      online sample even though the link has just come back. */
  lemma DowntimeKeepsRecoveryTimer()
    ensures var cfg := Config(DefaultThreshold, DefaultRecoveryDelay);
      var s := State(0, true, Some(0), Some(Auto));
      var r := AutoRun(cfg, s, [Sample(false, 300, true), Sample(true, 600, true)]);
      && AutoStep(cfg, s, Sample(false, 300, true)) == Outcome(State(1, true, Some(0), Some(Auto)), None)
      && r.cmds == [None, Some(TurnOff)]
      && !r.st.plugOn && r.st.onlineSince.None?
  {
    var cfg := Config(DefaultThreshold, DefaultRecoveryDelay);
    var s := State(0, true, Some(0), Some(Auto));
    var o := AutoStep(cfg, s, Sample(false, 300, true));
    assert o.st == State(1, true, Some(0), Some(Auto));
  }

  /** The outage-and-recovery scenario with a threshold of 3, a recovery delay
      of 60 s and a 10 s cadence: "on" after the third offline sample with the
      count at 3, then "off" on the seventh online sample, the first whose
      time since the timer started (at the first online sample) reaches 60 s. */
  lemma ThresholdThreeScenario()
    ensures var xs := [Sample(false, 0, true), Sample(false, 10, true), Sample(false, 20, true)];
      var ys := seq(7, k => Sample(true, 30 + 10 * k, true));
      var cfg := Config(3, 60);
      var down := AutoRun(cfg, State(0, false, None, Some(Auto)), xs);
      var up := AutoRun(cfg, down.st, ys);
      && down.cmds == [None, None, Some(TurnOn)]
      && down.st.plugOn && down.st.failures == 3
      && up.cmds == [None, None, None, None, None, None, Some(TurnOff)]
      && !up.st.plugOn && up.st.onlineSince.None? && up.st.failures == 0
  {
    var xs := [Sample(false, 0, true), Sample(false, 10, true), Sample(false, 20, true)];
    var ys := seq(7, k => Sample(true, 30 + 10 * k, true));
    var cfg := Config(3, 60);
    var s := State(0, false, None, Some(Auto));
    Outage(cfg, s, xs);
    assert SwitchedOn(cfg, s, xs, 3);
    assert !SwitchedOn(cfg, s, xs, 2);
    var down := AutoRun(cfg, s, xs);
    Recovery(cfg, down.st, ys, 30);
    forall i | 0 <= i <= 6 ensures !Released(cfg, 30, ys, i) {}
    assert Released(cfg, 30, ys, 7) by { assert ys[6].now - 30 >= 60; }
  }
}
