/** The controller of src/shelly_controller.py: the state file, the operator's
    mode change and the status view. The outlet's RPC calls are not modelled;
    their answers are parameters. */
module Shelly {
  import opened Wrappers
  import opened StateRecord

  /** The record `load_state` returns when the file is missing or unreadable. */
  const DefaultState: State := State(0, false, None, Some(Auto))

  /** The outlet command a mode change sends: ON and OFF always send one,
      even when the plug already matches; AUTO sends none. */
  function ModeCommand(m: Mode): (c: Option<Command>)
    ensures c.None? <==> m == Auto
    ensures c == Some(TurnOn) <==> m == On
    ensures c == Some(TurnOff) <==> m == Off
  {
    match m
    case On => Some(TurnOn)
    case Off => Some(TurnOff)
    case Auto => None
  }

  /** The record a mode change persists, or `None` when the change is
      rejected because the outlet did not acknowledge the forced state. */
  function ModeChange(s: State, m: Mode, acked: bool): (r: Option<State>)
    ensures r.Some? <==> m == Auto || acked
    ensures r.Some? ==> r.value.mode == Some(m) && r.value.failures == 0 && r.value.onlineSince.None?
    ensures r.Some? && m == On ==> r.value.plugOn
    ensures r.Some? && m == Off ==> !r.value.plugOn
    ensures r.Some? && m == Auto ==> r.value.plugOn == s.plugOn
    ensures r.Some? ==> TimerImpliesPlug(r.value)
  {
    var cleared := s.(mode := Some(m), failures := 0, onlineSince := None);
    match m
    case Auto => Some(cleared)
    case On => if acked then Some(cleared.(plugOn := true)) else None
    case Off => if acked then Some(cleared.(plugOn := false)) else None
  }

  /** What `get_status` reports. */
  datatype Status = Status(mode: Mode, plugOn: bool, failures: nat, onlineSince: Option<int>)

  /** The status view of a record, given the live outlet query's answer. */
  function StatusOf(s: State, live: Option<bool>): (r: Status)
    ensures live.Some? ==> r.plugOn == live.value
    ensures live.None? ==> r.plugOn == s.plugOn
    ensures r.mode == EffectiveMode(s)
    ensures r.failures == s.failures && r.onlineSince == s.onlineSince
  {
    Status(EffectiveMode(s), live.GetOr(s.plugOn), s.failures, s.onlineSince)
  }

  class ShellyController {
    /** The state file; it outlives any one process. */
    var file: StateFile

    constructor (initial: StateFile)
      ensures file == initial
    {
      file := initial;
    }

    /** The record in the file, or the default one when there is none that
        parses. */
    function LoadState(): (r: State)
      reads this
      ensures file.Stored? ==> r == file.record
      ensures file == Missing || file == Unreadable ==> r == DefaultState
    {
      if file.Stored? then file.record else DefaultState
    }

    method SaveState(s: State)
      modifies this
      ensures file == Stored(s)
    {
      file := Stored(s);
    }

    /** Applies an operator mode change: loads the record, sends the forced
        command for ON or OFF, and saves only when the change is accepted. */
    method SetMode(m: Mode, acked: bool) returns (ok: bool, cmd: Option<Command>)
      modifies this
      ensures cmd == ModeCommand(m)
      ensures ok <==> ModeChange(old(LoadState()), m, acked).Some?
      ensures file == if ok then Stored(ModeChange(old(LoadState()), m, acked).value) else old(file)
    {
      var state := LoadState();
      state := state.(mode := Some(m));
      cmd := None;
      if m == On {
        cmd := Some(TurnOn);
        if acked {
          state := state.(plugOn := true, failures := 0, onlineSince := None);
        } else {
          return false, cmd;
        }
      } else if m == Off {
        cmd := Some(TurnOff);
        if acked {
          state := state.(plugOn := false, failures := 0, onlineSince := None);
        } else {
          return false, cmd;
        }
      } else {
        state := state.(failures := 0, onlineSince := None);
      }
      SaveState(state);
      ok := true;
    }

    /** The current status; a read that leaves the file as it is. */
    function GetStatus(live: Option<bool>): (r: Status)
      reads this
      ensures r == StatusOf(LoadState(), live)
      ensures file == Missing && live.None? ==> r == Status(Auto, false, 0, None)
    {
      var state := LoadState();
      StatusOf(state, live)
    }
  }

  /** Returning to AUTO twice gives the record returning once gives. */
  lemma AutoModeIdempotent(s: State, a1: bool, a2: bool)
    ensures ModeChange(s, Auto, a1).Some?
    ensures ModeChange(ModeChange(s, Auto, a1).value, Auto, a2) == ModeChange(s, Auto, a1)
  {
  }

  /** Applying an accepted mode twice gives the record applying it once gives. */
  lemma ModeChangeIdempotent(s: State, m: Mode)
    ensures ModeChange(ModeChange(s, m, true).value, m, true) == ModeChange(s, m, true)
  {
  }

  /** After an accepted mode change the status reports that mode, a zero count
      and no timer, and the plug as the live query or the change left it. */
  lemma StatusAfterModeChange(s: State, m: Mode, acked: bool, live: Option<bool>)
    requires m == Auto || acked
    ensures var st := StatusOf(ModeChange(s, m, acked).value, live);
      && st.mode == m && st.failures == 0 && st.onlineSince.None?
      && st.plugOn == live.GetOr(if m == On then true else if m == Off then false else s.plugOn)
  {
  }
}
