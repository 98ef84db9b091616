/** The monitoring service of src/monitor_wan1.py: startup reconciliation
    and the loop that runs one failover cycle per check interval, but only
    while the stored mode is AUTO. Probe and outlet answers arrive as
    samples; the shutdown signal is the end of the sample sequence. */
module Monitor {
  import opened Wrappers
  import opened StateRecord
  import opened Failover
  import opened Shelly

  /** Before the first cycle: a successful live query of the outlet is
      written into the record and saved; a failed one changes nothing. */
  method Startup(c: ShellyController, live: Option<bool>)
    modifies c
    ensures c.file == if live.Some? then Stored(Reconciled(old(c.LoadState()), live)) else old(c.file)
  {
    var state := c.LoadState();
    if live.Some? {
      state := state.(plugOn := live.value);
      c.SaveState(state);
    }
  }

  /** One pass of the loop. In ON or OFF mode it neither probes, nor sends a
      command, nor saves; in AUTO mode it runs the failover transition on the
      reloaded record and saves the result. */
  method Cycle(c: ShellyController, cfg: Config, x: Sample) returns (cmd: Option<Command>)
    modifies c
    ensures var s := old(c.LoadState());
      if EffectiveMode(s) == Auto
      then c.file == Stored(AutoStep(cfg, s, x).st) && cmd == AutoStep(cfg, s, x).cmd
      else c.file == old(c.file) && cmd == None
  {
    var state := c.LoadState();
    if EffectiveMode(state) != Auto {
      return None;
    }
    state, cmd := ApplySample(cfg, state, x);
    c.SaveState(state);
  }

  /** The service from start to shutdown: reconciliation, then one cycle per
      sample. In AUTO mode the record follows the failover transition; in ON
      or OFF mode no cycle sends a command or touches the file. */
  method RunService(c: ShellyController, cfg: Config, live: Option<bool>, xs: seq<Sample>)
    returns (cmds: seq<Option<Command>>)
    modifies c
    ensures var s0 := Reconciled(old(c.LoadState()), live);
      if EffectiveMode(s0) == Auto
      then c.LoadState() == AutoRun(cfg, s0, xs).st && cmds == AutoRun(cfg, s0, xs).cmds
      else && c.file == (if live.Some? then Stored(s0) else old(c.file))
           && |cmds| == |xs| && forall i :: 0 <= i < |xs| ==> cmds[i] == None
  {
    ghost var s0 := Reconciled(c.LoadState(), live);
    Startup(c, live);
    ghost var started := c.file;
    var auto := EffectiveMode(s0) == Auto;
    cmds := [];
    for i := 0 to |xs|
      invariant auto ==> c.LoadState() == AutoRun(cfg, s0, xs[..i]).st && cmds == AutoRun(cfg, s0, xs[..i]).cmds
      invariant !auto ==> c.file == started && c.LoadState() == s0
      invariant |cmds| == i && (!auto ==> forall k :: 0 <= k < i ==> cmds[k] == None)
    {
      AutoRunSnoc(cfg, s0, xs[..i], xs[i]);
      assert xs[..i + 1] == xs[..i] + [xs[i]];
      var cmd := Cycle(c, cfg, xs[i]);
      cmds := cmds + [cmd];
    }
    assert xs[..|xs|] == xs;
  }

  /** Forcing the plug on and then returning to AUTO keeps the plug believed
      on, so an outage of any length sends nothing; the count starts afresh
      from zero. */
  lemma ForceOnThenAutoThenOutage(cfg: Config, s: State, a: bool, xs: seq<Sample>)
    requires forall i :: 0 <= i < |xs| ==> !xs[i].online
    ensures var s2 := ModeChange(ModeChange(s, On, true).value, Auto, a).value;
      var r := AutoRun(cfg, s2, xs);
      && (forall i :: 0 <= i < |xs| ==> r.cmds[i] == None)
      && r.st.plugOn && r.st.failures == |xs|
  {
    var s2 := ModeChange(ModeChange(s, On, true).value, Auto, a).value;
    Outage(cfg, s2, xs);
  }

  /** Forcing the plug off and then returning to AUTO restarts the count: an
      outage sends nothing before its cycle number `threshold` and sends "on"
      in that cycle (index `threshold - 1`), whatever the count was before. */
  lemma ForceOffThenAutoThenOutage(cfg: Config, s: State, a: bool, xs: seq<Sample>)
    requires forall i :: 0 <= i < |xs| ==> !xs[i].online
    ensures var s2 := ModeChange(ModeChange(s, Off, true).value, Auto, a).value;
      var r := AutoRun(cfg, s2, xs);
      && (forall i :: 0 <= i < |xs| && i + 1 < cfg.threshold ==> r.cmds[i] == None)
      && (1 <= cfg.threshold <= |xs| ==> r.cmds[cfg.threshold - 1] == Some(TurnOn))
      && r.st.failures == |xs|
  {
    var s2 := ModeChange(ModeChange(s, Off, true).value, Auto, a).value;
    Outage(cfg, s2, xs);
    if 1 <= cfg.threshold <= |xs| {
      assert !SwitchedOn(cfg, s2, xs, cfg.threshold - 1);
    }
  }
}
