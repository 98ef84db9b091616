# WAN1 failover controller — Dafny model

This project models the decision core of a small failover controller. The
controller watches the WAN1 port of an Omada gateway and drives a Shelly
smart plug that feeds the backup link's equipment. Once the gateway has
reported WAN1 offline for `FAILURE_THRESHOLD` consecutive checks, the plug is
switched on. Once WAN1 has been online for `RECOVERY_DELAY` seconds, counting
from the first online check, the plug is switched off. An operator can force
the plug ON or OFF, or hand control back to AUTO.

The whole state is one persisted record: `consecutive_failures`, `plug_on`,
`last_wan1_online_time` (the recovery timer) and `mode`. The model has these
modules:

- `StateRecord` (`record.dfy`): the record, the state file (missing,
  unreadable or stored), modes and outlet commands.
- `Failover` (`failover.dfy`): the per-cycle transition. Both monitoring loops
  share it, because their loop bodies are identical. `AutoStep` is the
  case-by-case specification. `ApplySample` is the key-by-key update the loop
  performs, proved equal to it. `AutoRun` runs many cycles, and the lemmas
  about runs cover the failure count, an outage, recovery and startup
  reconciliation.
- `Shelly` (`shelly.dfy`): the `ShellyController` class, whose field is the
  state file. It has `load_state`, `save_state`, `set_mode` and `get_status`.
- `Monitor` (`monitor.dfy`): the service in `src/monitor_wan1.py`. It covers
  startup reconciliation, one cycle behind the AUTO-mode gate, and the whole
  loop.
- `Legacy` (`legacy.dfy`): the older service in `monitor_wan1.py`. It has no
  mode gate, and its default record has no `mode` key.
- `Probe` (`probe.dfy`): how `check_wan1_status` reads the login reply, the
  gateway reply and the `portStats` list.

Things outside the core are inputs:
- The clock is an injected integer number of seconds, read once per cycle.
  So the cycle that starts the recovery timer sees an elapsed time of 0.
- The probe's verdict is a parameter.
- Each outlet answer is a parameter: whether a command would be acknowledged,
  and the live plug state (`Option<bool>`, `None` when the query fails).
- The shutdown signal is the end of the sequence of cycles.

Some behaviours of the code are easy to miss, and the model keeps them as
written. One might expect downtime during a recovery countdown to restart
it; the code does not. An offline sample increments the count but leaves the
recovery timer running, so the plug can be released on the first online
sample after a short outage (`Failover.DowntimeKeepsRecoveryTimer`). For the
same reason the count is not always zero while the timer runs: that lemma
shows the offline cycle leaving a count of 1 with the timer still set.
`set_mode(ON)` and `set_mode(OFF)` always send the command, even when the
plug already matches.
Returning to AUTO leaves the plug state as it is.

## Model

| member | source | states |
|---|---|---|
| `StateRecord.EffectiveMode` | src/monitor_wan1.py:98 | a record without a `mode` key counts as AUTO; otherwise its mode is the stored one |
| `Failover.AutoStep` | src/monitor_wan1.py:111-144 | an online sample sets the count to 0 and an offline one adds exactly 1; "on" is sent iff the incremented count is `>=` the threshold and the plug is believed off; "off" is sent iff the plug is believed on and `now` minus the timer (or 0, when the timer starts this cycle) is at least the recovery delay; only an acknowledged command changes `plug_on`, and it also clears the timer; an online sample with the plug on starts the timer if it is unset and otherwise leaves it untouched; an offline sample leaves the timer unchanged unless an acknowledged "on" clears it; the mode is never touched; "timer set implies plug on" is preserved |
| `Failover.ApplySample` | src/monitor_wan1.py:111-144 | the loop body's in-place updates of the loaded record (reset/increment, start timer, compare the elapsed time, send and apply on acknowledgement) give exactly the record and command of `AutoStep` |
| `Failover.AutoRun` | src/monitor_wan1.py:95-147 | a run of cycles, each from the record the previous one saved, yields one command slot per cycle and keeps the mode |
| `Failover.AutoRunSnoc` | src/monitor_wan1.py:95-147 | running one more cycle at the end of a run is one more `AutoStep` on the run's final record |
| `Failover.AutoRunKeepsTimerImpliesPlug` | monitor_wan1.py:170-203 | every run of cycles preserves "timer set implies plug on" |
| `Failover.Reconciled` | src/monitor_wan1.py:89-93 | a successful live query overwrites `plug_on` with the live value and keeps the count, timer and mode; a failed query keeps the record as loaded |
| `Failover.ReconcileCanBreakTimerImpliesPlug` | monitor_wan1.py:156-160 | reconciliation can leave a running timer while the plug is believed off, breaking the invariant the cycles keep |
| `Failover.FailureCount` | src/monitor_wan1.py:111-133 | after any run the count equals the number of trailing offline samples, or the initial count plus the run's length if no sample was online |
| `Failover.Outage` | src/monitor_wan1.py:132-144 | during a run of offline samples the count rises by one per cycle, "off" is never sent, and "on" is sent in exactly those cycles that reach the threshold while the plug is believed off and no earlier "on" was acknowledged, so a failed "on" is retried on the next cycle; the plug ends believed on iff it started so or some "on" was acknowledged |
| `Failover.AtMostOneSwitchOn` | src/monitor_wan1.py:137-144 | within an outage, once an "on" is acknowledged, no later cycle sends any command |
| `Failover.IdleOnline` | src/monitor_wan1.py:111-114 | with the plug believed off, online samples send nothing and change only the count, to 0 |
| `Failover.Recovery` | src/monitor_wan1.py:115-131 | with the plug believed on and the timer started at `t` (already set, or started by the first online sample), a run of online samples sends "off" in exactly the cycles where `now - t` has reached the recovery delay and no earlier "off" was acknowledged; the timer is never restarted; the plug is released, and the timer cleared, only by an acknowledged "off" |
| `Failover.DowntimeKeepsRecoveryTimer` | src/monitor_wan1.py:132-144 | an offline sample 300 s into a 600 s countdown sends nothing and leaves the record with a count of 1, the plug believed on and the timer still at 0; the next online sample at 600 s sends "off", and its acknowledgement releases the plug and clears the timer |
| `Failover.ThresholdThreeScenario` | src/monitor_wan1.py:111-144 | with threshold 3, delay 60 s and a 10 s cadence, "on" is sent on the third offline sample and leaves the count at 3; "off" is sent on the seventh online sample, not earlier, and leaves the plug off, the timer clear and the count at 0 |
| `Shelly.ModeCommand` | src/shelly_controller.py:122-147 | ON always sends "on" and OFF always sends "off", with no check of the current plug state; AUTO sends nothing |
| `Shelly.ModeChange` | src/shelly_controller.py:117-150 | a mode change is accepted iff the mode is AUTO or the outlet acknowledged; an accepted change stores the new mode with count 0 and no timer; ON stores the plug as on, OFF as off, and AUTO keeps `plug_on` |
| `Shelly.StatusOf` | src/shelly_controller.py:166-171 | the status reports the live plug state when the query succeeds and the stored belief otherwise; the mode defaults to AUTO; count and timer are copied from the record |
| `Shelly.ShellyController.LoadState` | src/shelly_controller.py:30-44 | a stored record is returned as is; a missing or unreadable file gives count 0, plug off, no timer, mode AUTO |
| `Shelly.ShellyController.SaveState` | src/shelly_controller.py:46-52 | the file afterwards holds exactly the given record |
| `Shelly.ShellyController.SetMode` | src/shelly_controller.py:106-154 | sends the mode's command; returns true and persists the `ModeChange` record iff the change is accepted; a rejected ON/OFF returns false and leaves the file, including its mode, unchanged |
| `Shelly.ShellyController.GetStatus` | src/shelly_controller.py:156-171 | the status of the loaded record for the live query's answer; with no file and a failed query it reports AUTO, plug off, count 0 and no timer; the file cannot change, since it is a read |
| `Shelly.AutoModeIdempotent` | src/shelly_controller.py:142-150 | returning to AUTO is always accepted, and doing it twice yields the same record as once |
| `Shelly.ModeChangeIdempotent` | src/shelly_controller.py:117-150 | an accepted mode applied a second time yields the same record |
| `Shelly.StatusAfterModeChange` | src/shelly_controller.py:117-171 | after an accepted change the status shows the new mode, count 0 and no timer, and the plug as the live query or the change left it |
| `Monitor.Startup` | src/monitor_wan1.py:89-93 | a successful live query saves the reconciled record; a failed one leaves the file untouched |
| `Monitor.Cycle` | src/monitor_wan1.py:96-147 | in ON or OFF mode the cycle sends nothing and leaves the file as it was; in AUTO mode (also when no mode is stored) it saves the `AutoStep` record and sends its command |
| `Monitor.RunService` | src/monitor_wan1.py:81-153 | after reconciliation and one cycle per sample, in AUTO mode the stored record and the commands are those of `AutoRun` from the reconciled record; in ON or OFF mode no command is sent and the file is exactly what reconciliation left |
| `Monitor.ForceOnThenAutoThenOutage` | src/shelly_controller.py:122-146 | after forcing ON and returning to AUTO, an offline run of any length sends no command, because the plug stays believed on; the count restarts, ending equal to the number of samples |
| `Monitor.ForceOffThenAutoThenOutage` | src/shelly_controller.py:132-146 | after forcing OFF and returning to AUTO, the count restarts from 0: an offline run sends nothing before the cycle that makes the count reach the threshold, sends "on" in exactly that cycle, and ends with the count equal to the number of samples |
| `Legacy.LegacyMonitor.LoadState` | monitor_wan1.py:35-48 | a stored record is returned as is; a missing or unreadable file gives count 0, plug off, no timer and no `mode` key |
| `Legacy.LegacyMonitor.SaveState` | monitor_wan1.py:51-57 | the file afterwards holds exactly the given record |
| `Legacy.LegacyMonitor.Startup` | monitor_wan1.py:156-160 | a successful live query saves the reconciled record; a failed one leaves the file untouched |
| `Legacy.LegacyMonitor.Cycle` | monitor_wan1.py:163-206 | every cycle, whatever the stored mode, saves the `AutoStep` record and sends its command; the `mode` key is left as it was |
| `Legacy.LegacyMonitor.RunService` | monitor_wan1.py:149-212 | after reconciliation and one cycle per sample, the stored record and the commands are those of `AutoRun` from the reconciled record |
| `Probe.CheckWan1Status` | src/monitor_wan1.py:35-72 | online iff all of these hold: the login reply arrived with `errorCode` 0 and a non-empty `omadacId` and `token`; the gateway reply arrived with `errorCode` 0; the first `portStats` entry with type 0 and port 1 has `internetState` 1. The check in monitor_wan1.py:60-97 is the same code |
| `Probe.FirstWan1Unique` | src/monitor_wan1.py:65-67 | at most one entry is the first one with type 0 and port 1 |
| `Probe.NoWan1Entry` | src/monitor_wan1.py:65-69 | a port list with no entry of type 0 and port 1 means offline |
| `Probe.LaterEntriesIgnored` | monitor_wan1.py:90-94 | once the list has a WAN1 entry, the first one alone decides the verdict, and appending entries does not change it |

## Left out

- HTTP transport is not modelled: the Omada login and gateway requests, and the Shelly `Switch.Set` and `Switch.GetStatus` calls. Their outcomes are parameters: a reply or `None`, an acknowledgement flag, and a live state or `None`.
- JSON file I/O is not modelled. The state file is a field holding missing, unreadable or a record. `save_state` errors are swallowed and logged in the source; the model assumes every save succeeds.
- `datetime.now()` is not modelled. The clock is one integer reading per cycle. The source reads the clock twice in the cycle that starts the timer, stores the timer as an ISO-8601 string, parses it back with `datetime.fromisoformat`, and subtracts the two datetimes into a floating-point `total_seconds()`; the model does none of this.
- JSON keys that may be missing are not modelled, apart from `mode`. Values of unexpected JSON types are not modelled either. In the source they behave in three different ways:
  - Some values raise inside the loop's catch-all `except`, and that cycle is skipped without saving, but only on the branch that reads them:
    - A non-numeric count raises only on an offline sample (src/monitor_wan1.py:133). An online sample overwrites it with 0 and saves.
    - A non-empty timer string that is not ISO-8601 raises only on an online sample with `plug_on` set (src/monitor_wan1.py:114-122). Other cycles carry it along and save.
    - An invalid mode string raises on every cycle of src/monitor_wan1.py:98. The older loop in monitor_wan1.py never reads `mode`, so it never raises there.
  - An empty timer string raises nothing. It is not `None`, so the timer is not restarted. It is falsy, so the recovery check is skipped. The cycle still saves, so the plug is never released while the string stays empty.
  - A float count keeps counting as a float. A negative count counts up from its stored value (src/monitor_wan1.py:133); `State.failures` is a `nat` and cannot hold it. An `errorCode` of `false` passes the probe's `== 0` test, because `False == 0` holds in Python.

  The model's integer and optional fields admit none of these values.
- The catch-all `except` blocks of the loop and of `set_mode` are not modelled. With the model's inputs, nothing inside them can raise.
- Concurrency between the API process and the monitor process is not modelled. Both read and write the same file without a lock. `RunService` models a run with no mode change in between. A mode change followed by cycles is covered by `Monitor.ForceOnThenAutoThenOutage` and `Monitor.ForceOffThenAutoThenOutage`.
- Signal handling, the `shutdown_event.wait` sleep, `CHECK_INTERVAL` and logging are not modelled. They are timing and I/O only.
- Configuration is not modelled: reading the environment, the `SHELLY_BASE_URL` check in the controller's constructor, and `int()` parsing of the settings. The threshold and delay are plain integer parameters.
- `src/api.py` is not modelled. It is HTTP routing, token comparison and rate limiting; it only calls `set_mode` and `get_status`.
- `src/supervisor.py` is not modelled. It is process supervision.
