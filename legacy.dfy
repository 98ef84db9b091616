/** The older, mode-less monitoring service of monitor_wan1.py. It keeps its
    own state file functions, runs the failover transition on every cycle
    whatever the record's `mode` key says, and never writes that key. */
module Legacy {
  import opened Wrappers
  import opened StateRecord
  import opened Failover

  /** The record the older `load_state` returns for a missing or unreadable
      file: it has no `mode` key. */
  const LegacyDefault: State := State(0, false, None, None)

  /** The module-level state of monitor_wan1.py: its state file. */
  class LegacyMonitor {
    var file: StateFile

    constructor (initial: StateFile)
      ensures file == initial
    {
      file := initial;
    }

    function LoadState(): (r: State)
      reads this
      ensures file.Stored? ==> r == file.record
      ensures file == Missing || file == Unreadable ==> r == LegacyDefault && r.mode.None?
    {
      if file.Stored? then file.record else LegacyDefault
    }

    method SaveState(s: State)
      modifies this
      ensures file == Stored(s)
    {
      file := Stored(s);
    }

    /** Startup reconciliation, as in the newer service. */
    method Startup(live: Option<bool>)
      modifies this
      ensures file == if live.Some? then Stored(Reconciled(old(LoadState()), live)) else old(file)
    {
      var state := LoadState();
      if live.Some? {
        state := state.(plugOn := live.value);
        SaveState(state);
      }
    }

    /** One pass of the loop: there is no mode gate, so every cycle runs the
        transition and saves. */
    method Cycle(cfg: Config, x: Sample) returns (cmd: Option<Command>)
      modifies this
      ensures file == Stored(AutoStep(cfg, old(LoadState()), x).st)
      ensures cmd == AutoStep(cfg, old(LoadState()), x).cmd
      ensures LoadState().mode == old(LoadState()).mode
    {
      var state := LoadState();
      state, cmd := ApplySample(cfg, state, x);
      SaveState(state);
    }

    /** The service from start to shutdown: reconciliation, then one cycle
        per sample, even when the record carries an ON or OFF mode. */
    method RunService(cfg: Config, live: Option<bool>, xs: seq<Sample>) returns (cmds: seq<Option<Command>>)
      modifies this
      ensures LoadState() == AutoRun(cfg, Reconciled(old(LoadState()), live), xs).st
      ensures cmds == AutoRun(cfg, Reconciled(old(LoadState()), live), xs).cmds
    {
      ghost var s0 := Reconciled(LoadState(), live);
      Startup(live);
      cmds := [];
      for i := 0 to |xs|
        invariant LoadState() == AutoRun(cfg, s0, xs[..i]).st
        invariant cmds == AutoRun(cfg, s0, xs[..i]).cmds
      {
        AutoRunSnoc(cfg, s0, xs[..i], xs[i]);
        assert xs[..i + 1] == xs[..i] + [xs[i]];
        var cmd := Cycle(cfg, xs[i]);
        cmds := cmds + [cmd];
      }
      assert xs[..|xs|] == xs;
    }
  }
}
