/** The persisted controller record and the file that holds it. */
module StateRecord {
  import opened Wrappers

  /** The operator's control mode (`ControlMode` in the controller). */
  datatype Mode = Auto | On | Off

  /** An outlet command: `control_plug(True)` or `control_plug(False)`. */
  datatype Command = TurnOn | TurnOff

  /** The JSON record kept in the state file.
      - `failures` is `consecutive_failures`;
      - `plugOn` is `plug_on`, the controller's belief about the outlet;
      - `onlineSince` is `last_wan1_online_time`, the start of the recovery
        timer, in integer seconds of the injected clock;
      - `mode` is the `mode` key, `None` when the record has no such key,
        as in records written by the older mode-less service. */
  datatype State = State(failures: nat, plugOn: bool, onlineSince: Option<int>, mode: Option<Mode>)

  /** What the state file holds: nothing yet, something that does not parse,
      or a record. */
  datatype StateFile = Missing | Unreadable | Stored(record: State)

  /** The mode a loop or a status query reads: an absent key means AUTO. */
  function EffectiveMode(s: State): (m: Mode)
    ensures s.mode.None? ==> m == Auto
    ensures s.mode.Some? ==> m == s.mode.value
  {
    s.mode.GetOr(Auto)
  }

  /** The relation between the timer and the plug that every cycle keeps:
      a running recovery timer means the controller believes the plug is on. */
  ghost predicate TimerImpliesPlug(s: State)
  {
    s.onlineSince.Some? ==> s.plugOn
  }
}
