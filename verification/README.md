# cellulard — a verified model of the modem power controller

`cellulard` keeps the power and online state of every oFono modem in line
with the device mode that MCE broadcasts. In normal mode every modem should
be powered and online; in any other mode (flight mode, for instance) every
modem should be powered off. The daemon reacts to events that the GLib main
loop delivers one at a time:

- MCE mode changes;
- the oFono manager becoming valid;
- modems being added, removed, becoming valid or being disposed;
- replies to power commands;
- retry timeouts;
- idle reconciliation passes.

The model covers that event-driven core of `src/cellulard.c`:

- `wrappers.dfy`: `Option`, which stands for a nullable C pointer.
- `glib_strings.dfy`: `g_strcmp0` and the `strcmp` it builds on. It is
  compared against both the MCE mode name and the oFono error name.
- `policy.dfy`: the per-modem decisions, as pure functions:
  - the mode flag that `set_mode` derives from a mode string;
  - the commands `control_modem` and `online_modem` send;
  - which failed power command `modem_powered_cb` retries.

  Commands are recorded as `Effect`s. The blocking `sleep(3)` before every
  online command is recorded as a `Sleep(3)` effect.
- `machine.dfy`: the daemon's whole state as a value `State`, with one
  transition per callback. `State` holds:
  - the `normal_mode` flag;
  - the keys of the `modems` table;
  - the `ids` table, from modem path to valid-changed handler id;
  - the connected valid-changed handlers;
  - the armed retry timeouts, each with its disposal hook;
  - the scheduled idle passes;
  - the log of commands sent.

  It also has `Event`, `Step` and `Run`, which describe a whole run of the daemon.
- `machine_properties.dfy`: what the transitions guarantee. This covers the
  invariant, each callback's behaviour, whole runs, and three scenarios.
- `cellulard.dfy`: class `Daemon`, which holds that state in fields. It has
  one method per callback, and each method updates the fields in place.
  Every method is specified by the transition it implements
  (`Abs() == Machine.X(old(Abs()), ...)`), and the object invariant
  `Valid()` is `Machine.Inv`. `IdleOnlineModems` keeps the source's loop
  over the manager's modem list.

The daemon's design describes a stricter contract than the code keeps. The
model follows the code:

- The design says a retry is not cancelled when its modem goes away, and
  that the retry finds out when it fires. The code instead removes the
  pending retry timeout as soon as the modem is disposed of
  (`g_source_remove`, `src/cellulard.c:67`).
- The design says a modem's pending readiness handler is disconnected when
  the modem is removed. The code drops the `ids` entry but leaves the
  valid-changed handler connected (`src/cellulard.c:180`, unlike `:142`).
  `ModemRemovedDropsPath` states this.
- The design allows at most one readiness handler per path. Queueing a modem
  that is not yet valid twice overwrites the `ids` entry, and the first
  handler stays connected with nothing referring to it. A path can
  therefore have more than one waiting handler (`QueueModemTwiceLeaksHandler`).
- The design allows at most one outstanding retry per modem, with a new
  retry superseding the old one. Every InProgress refusal arms a retry of its
  own (`src/cellulard.c:101-110`), and nothing looks for one already pending.
  Two refusals leave two live retries for one modem
  (`ModemPoweredTwiceArmsTwoRetries`).
- The design says two back-to-back `control_modem` calls send at most one
  command. `control_modem` does not remember a power command in flight, so
  two calls in a row on a modem whose power is wrong send `SetPowered` twice
  (`ControlModemTwiceResendsPower`). "At most one command for two calls"
  holds only for converged modems (`ControlModemNoOpIffConverged`).
- The design puts the 3-second settle delay between a confirmed power-on and
  the online command. The code sleeps before every online command.
- The design describes a registry of known modems. The code's `modems`
  table is created empty and only ever removed from, so in every reachable
  state it is empty (`ReachableStates`).
- The design has a reconciliation pass follow every mode change, to bring
  each modem to the state the mode asks for. Suppose the mode leaves normal
  while a power-on is in flight, and nothing else is pending for the modem.
  The reconciliation pass sees it still unpowered and sends nothing, and
  when the power-on succeeds, `online_modem(false)` sends nothing either.
  The modem ends up powered outside normal mode with still nothing pending
  (`ModeSwitchDuringPowerOnStrands`).

## Model

| member | source | states |
|---|---|---|
| `GLibStrings.Strcmp` | src/cellulard.c:95 | the string comparison is zero exactly on equal strings, and its sign is -1, 0 or 1 |
| `GLibStrings.Strcmp0` | src/cellulard.c:242 | `g_strcmp0` is zero exactly when both are NULL or both are equal strings; NULL sorts before any string |
| `Policy.ModeIsNormal` | src/cellulard.c:236-248 | the mode flag is true iff the broadcast string is present and equals MCE's normal-mode name; any other string or a missing one gives false |
| `Policy.ShouldRetry` | src/cellulard.c:86-101 | a failed power command is retried iff it is a remote D-Bus error named `org.ofono.Error.InProgress` |
| `Policy.SettledOnlineAppend` | src/cellulard.c:50-58 | appending command sequences keeps "every online command asks for online, right after the settle delay" |
| `Policy.ControlOnPowerMismatch` | src/cellulard.c:122-128 | when powered differs from the mode, control sends exactly one SetPowered(path, mode) and nothing else |
| `Policy.ControlOnPowerMatch` | src/cellulard.c:125-131 | when power is already right, no power command is sent, and SetOnline(path, true) is sent iff the mode is normal and the modem is offline |
| `Policy.ControlSilentIffConverged` | src/cellulard.c:46-131 | control sends nothing iff powered equals the mode and (the mode is not normal or the modem is online) |
| `Policy.ControlEffectsSettled` | src/cellulard.c:46-60 | control never sends SetOnline(_, false), always sleeps 3 seconds right before an online command, and never starts with an online command |
| `Policy.OnlineEffectsSettled` | src/cellulard.c:46-60 | online_modem sends something iff asked for online on an offline modem, and then it sends exactly the 3-second sleep followed by SetOnline(path, true); it never asks for offline |
| `Machine.Initial` | src/cellulard.c:208-222 | the startup state satisfies the invariant, and its mode flag is true iff the initial MCE mode is the normal one |
| `MachineProperties.OnlineModemKeepsInv` | src/cellulard.c:46-60 | online_modem keeps the invariant |
| `MachineProperties.ControlModemKeepsInv` | src/cellulard.c:119-132 | control_modem keeps the invariant |
| `MachineProperties.QueueModemKeepsInv` | src/cellulard.c:149-165 | queue_modem keeps the invariant: the new `ids` entry names a freshly connected handler of that modem |
| `MachineProperties.ModemValidKeepsInv` | src/cellulard.c:134-147 | modem_valid_cb keeps the invariant |
| `MachineProperties.QueueAllKeepsInv` | src/cellulard.c:194-195 | queueing a whole modem list keeps the invariant |
| `MachineProperties.ModemPoweredKeepsInv` | src/cellulard.c:81-117 | modem_powered_cb keeps the invariant on every outcome |
| `MachineProperties.ArmRetryKeepsInv` | src/cellulard.c:103-110 | arming a retry keeps the invariant: a fresh 5-second timeout |
| `MachineProperties.RetryPowerKeepsInv` | src/cellulard.c:71-79 | retry_power_cb keeps the invariant |
| `MachineProperties.ModemDisposedKeepsInv` | src/cellulard.c:62-69 | modem_disposed_cb keeps the invariant |
| `MachineProperties.ModemRemovedKeepsInv` | src/cellulard.c:174-181 | modem_removed_cb keeps the invariant |
| `MachineProperties.IdleOnlineModemsKeepsInv` | src/cellulard.c:183-198 | an idle pass keeps the invariant and the registry, and only appends to the command log |
| `MachineProperties.ControlModemOnPowerMismatch` | src/cellulard.c:122-128 | on a power mismatch, the whole new state is the old one with SetPowered(path, mode) appended to the log |
| `MachineProperties.ControlModemTwiceResendsPower` | src/cellulard.c:125-128 | two back-to-back control_modem calls on a modem whose power is wrong send SetPowered twice |
| `MachineProperties.ControlModemNoOpIffConverged` | src/cellulard.c:125-131 | control_modem leaves the whole state unchanged iff the modem is converged, so repeated calls on a converged modem send nothing |
| `MachineProperties.ModemPoweredOnSuccess` | src/cellulard.c:84-116 | a successful power reply goes through online_modem with the mode read when the reply arrives; it sends SetOnline(path, true) iff that mode is normal and the modem is offline, and in that case it appends exactly the 3-second sleep and then SetOnline(path, true) |
| `MachineProperties.ModemPoweredRetriesInProgress` | src/cellulard.c:101-111 | an InProgress refusal sends nothing and arms exactly one new 5-second timeout for that modem, under a fresh source id |
| `MachineProperties.ModemPoweredTwiceArmsTwoRetries` | src/cellulard.c:101-110 | two InProgress refusals for one modem send nothing and leave two live 5-second retries for it, under two fresh consecutive source ids; the second does not replace the first |
| `MachineProperties.ArmRetryTwiceKeepsBoth` | src/cellulard.c:103-110 | arming twice for one path keeps both timeouts, each for that path, and grows the timer table by two |
| `MachineProperties.ModeSwitchDuringPowerOnStrands` | src/cellulard.c:81-132 | starting with no pass, retry or waiting handler for the modem, a switch out of normal mode while SetPowered(true) is in flight: the pass sends nothing, the successful reply sends nothing, and afterwards there is still no pass, no retry and no waiting handler for the modem, so it stays powered outside normal mode |
| `MachineProperties.ModemPoweredGivesUp` | src/cellulard.c:112-113 | any other power failure leaves the state unchanged: no command, no retry |
| `MachineProperties.ModemPoweredFailureClassified` | src/cellulard.c:86-113 | a failed power reply sends nothing, and the number of timers grows by one iff the error is InProgress |
| `MachineProperties.ArmRetryAddsOneTimer` | src/cellulard.c:104 | a retry is armed under a source id not yet in use, so the timer set grows by exactly one |
| `MachineProperties.RetryPowerFiresOnce` | src/cellulard.c:72-78 | a firing retry removes its own timer (one-shot) and appends exactly control_modem's commands for its modem |
| `MachineProperties.ModemDisposedCancelsRetries` | src/cellulard.c:62-68 | after disposal no timer is armed for that modem, so none of its retries can fire; every other timer stays; no command is sent |
| `MachineProperties.QueueModemGatesOnValidity` | src/cellulard.c:150-165 | a valid modem is controlled and `ids` is unchanged; otherwise nothing is sent and `ids[path]` is set to a new handler id |
| `MachineProperties.QueueModemTwiceLeaksHandler` | src/cellulard.c:160-163 | queueing an invalid modem twice overwrites `ids[path]`; the first handler stays connected and is no longer named by `ids` |
| `MachineProperties.ModemValidClearsPending` | src/cellulard.c:140-146 | after modem_valid_cb the path is not in `ids`, the handler it named is disconnected, other entries stay, and control_modem runs once |
| `MachineProperties.ModemRemovedDropsPath` | src/cellulard.c:179-180 | after removal the path is in neither `ids` nor `modems`; all other keys stay; the handler stays connected |
| `MachineProperties.PassEffectsSnoc` | src/cellulard.c:194-195 | the commands of a pass over a list extended by one modem are those of the shorter list followed by that modem's |
| `MachineProperties.PendingPathsSnoc` | src/cellulard.c:194-195 | the paths left waiting by a pass over a list extended by one modem are those of the shorter list, plus that modem's path if it is not valid |
| `MachineProperties.QueueAllEffects` | src/cellulard.c:194-195 | queueing a list, in order, appends exactly the control commands of its valid modems, adds one `ids` key per invalid modem, and leaves mode, timers, idles and registry alone |
| `MachineProperties.PassSilentIffConverged` | src/cellulard.c:194-195 | a pass sends nothing iff every valid listed modem is converged |
| `MachineProperties.IdleOnlineModemsPass` | src/cellulard.c:183-198 | an idle pass consumes its scheduling; with the manager not valid it changes nothing else; otherwise it queues every listed modem |
| `MachineProperties.IdleOnlineModemsSilentIffConverged` | src/cellulard.c:189-197 | with a valid manager, a pass leaves the command log unchanged iff every valid listed modem is already converged |
| `MachineProperties.StepKeepsInv` | src/cellulard.c:134-257 | every event keeps the invariant, never adds to the `modems` table, and only appends to the command log |
| `MachineProperties.RunKeepsInv` | src/cellulard.c:134-257 | the same over any sequence of events |
| `MachineProperties.ReachableStates` | src/cellulard.c:208-222 | from startup, whatever happens: `modems` stays empty, every online command asks for online right after the sleep, and every `ids` entry names a connected handler of that path |
| `MachineProperties.ScenarioPowerOnAfterModeChange` | src/cellulard.c:236-257 | start in flight mode and add a valid unpowered modem: nothing is sent. The mode turns normal and a pass runs: exactly SetPowered(true). Power succeeds: then the sleep and SetOnline(true) |
| `MachineProperties.ScenarioModemBecomesValid` | src/cellulard.c:167-172 | a modem added before it is valid gets only a waiting handler. When it becomes valid, control runs once, and `ids` and the handler set are empty again |
| `Cellulard.Daemon.constructor` | src/cellulard.c:360-363 | the startup object is the initial state for the mode MCE reported |
| `Cellulard.Daemon.SetMode` | src/cellulard.c:236-248 | the flag becomes true iff the mode string is MCE's normal mode; nothing else changes |
| `Cellulard.Daemon.DeviceModeInd` | src/cellulard.c:250-258 | set_mode, then one more idle pass scheduled |
| `Cellulard.Daemon.ManagerValid` | src/cellulard.c:200-206 | one more idle pass scheduled |
| `Cellulard.Daemon.OnlineModem` | src/cellulard.c:46-60 | the new state is the online_modem transition of the old one |
| `Cellulard.Daemon.ControlModem` | src/cellulard.c:119-132 | the new state is the control_modem transition of the old one |
| `Cellulard.Daemon.ModemPowered` | src/cellulard.c:81-117 | the new state is the modem_powered_cb transition of the old one |
| `Cellulard.Daemon.ArmRetry` | src/cellulard.c:103-110 | a new 5-second timer for the modem, under the next source id |
| `Cellulard.Daemon.RetryPower` | src/cellulard.c:71-79 | the timer is gone, control_modem has run, and the callback returns false |
| `Cellulard.Daemon.ModemDisposed` | src/cellulard.c:62-69 | no timer for the modem remains; other timers are kept |
| `Cellulard.Daemon.QueueModem` | src/cellulard.c:149-165 | the new state is the queue_modem transition of the old one |
| `Cellulard.Daemon.ModemValid` | src/cellulard.c:134-147 | the path is no longer in `ids`, and control_modem has run |
| `Cellulard.Daemon.ModemAdded` | src/cellulard.c:167-172 | the modem is queued |
| `Cellulard.Daemon.ModemRemoved` | src/cellulard.c:174-181 | the path is in neither `ids` nor `modems` |
| `Cellulard.Daemon.IdleOnlineModems` | src/cellulard.c:183-198 | the loop queues the listed modems in order, nothing happens if the manager is not valid, and the callback returns false |

## Left out

- Process plumbing is outside the model: `main`, option parsing and `usage`,
  `daemon()`, logging, connecting to the system bus, and subscribing to the
  MCE signal (`src/cellulard.c:290-375`).
- The blocking startup query `get_device_mode_ind` is left out
  (`src/cellulard.c:260-288`), and so is the exit when that query fails. The
  `Daemon` constructor takes the mode string the query returned.
- Library lifetime management is left out: `ofono_manager_exit`, reference
  counts, weak-reference bookkeeping beyond the disposal hook, and freeing
  memory.
- gofono internals are left out. A modem's `powered`, `online` and `valid`
  fields are inputs, supplied with each event. The manager's `valid` flag and
  modem list are arguments of the idle pass. `MCE_NORMAL_MODE` is taken to be
  `"normal"`, because the MCE header that defines it is not part of this model.
- Time is not modelled. `sleep(3)` is a `Sleep(3)` entry in the command log,
  and `g_timeout_add_seconds(5, ...)` is a timer entry with `seconds == 5`.
  When the main loop dispatches a timeout or an idle source is up to the
  caller of the model. The model only requires that the source exists.
- The online command's reply is not modelled: the source ignores it. No
  in-flight power commands are tracked, because the source tracks none.
- GLib signal emission is not modelled in detail. It is not modelled which
  handlers of a modem run for one valid-changed emission. `modem_valid_cb` is
  an event that may be delivered for any modem, whatever its `valid` field,
  as the source does not test it.
- GLib draws idle and timeout ids from one counter. The model counts only
  the timeout ids and counts idle passes separately. Modems are identified by
  path only.
- Liveness is not stated: "every ready modem eventually converges" depends
  on how external commands complete.
- GLibStrings.Strcmp: only the sign of `strcmp` is modelled, and strings
  are assumed to hold no NUL character (D-Bus strings cannot).
- Machine.ModemDisposed: only the retry timeouts are cleared. GObject also
  disconnects every signal handler of an object it disposes of, but the
  model keeps the modem's valid-changed handlers in `handlers`. The leaked
  handler of `QueueModemTwiceLeaksHandler` therefore lasts only until the
  modem is disposed of, which the model does not show.
