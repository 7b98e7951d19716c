/**
 * The whole state of the cellular daemon as a value, with one transition
 * per callback of src/cellulard.c. Every callback runs to completion on the
 * GLib main loop before the next one starts, so a run of the daemon is a
 * sequence of these transitions.
 */
module Machine {
  import opened Wrappers
  import opened Policy

  /** A pending 5-second retry: the GLib timeout source and the modem it was armed for. */
  datatype RetryTimer = RetryTimer(path: string, seconds: nat)

  datatype State = State(
    normalMode: bool,                 // the global normal_mode flag
    modems: set<string>,              // keys of the `modems` hash table
    ids: map<string, nat>,            // the `ids` table: path -> valid-changed handler id
    handlers: map<nat, string>,       // valid-changed handlers still connected, by id
    nextHandler: nat,                 // the id the next connected handler receives
    timers: map<nat, RetryTimer>,     // armed retry timeouts (each with its disposal hook), by source id
    nextSource: nat,                  // the id the next timeout source receives
    idles: nat,                       // idle reconciliation passes scheduled but not yet run
    log: seq<Effect>)                 // every command sent, in order

  /**
   * What every reachable state satisfies: the log has the settled-online
   * shape, ids are fresh, each `ids` entry names a connected handler of the
   * same modem, and every timer is a 5-second one.
   */
  ghost predicate Inv(s: State)
  {
    && SettledOnline(s.log)
    && (forall h :: h in s.handlers ==> h < s.nextHandler)
    && (forall p :: p in s.ids ==> s.ids[p] in s.handlers && s.handlers[s.ids[p]] == p)
    && (forall t :: t in s.timers ==> t < s.nextSource && s.timers[t].seconds == RetryDelay)
  }

  /** Startup: the mode read once from MCE, then empty tables (ofono_manager_init). */
  function Initial(mode: Option<string>): (s: State)
    ensures Inv(s)
    ensures s.normalMode <==> mode == Some(NormalModeName)
  {
    State(ModeIsNormal(mode), {}, map[], map[], 1, map[], 1, 0, [])
  }

  function SetMode(s: State, mode: Option<string>): State
  {
    s.(normalMode := ModeIsNormal(mode))
  }

  /** device_mode_ind_cb: take the new mode, then schedule a reconciliation pass. */
  function DeviceModeInd(s: State, mode: Option<string>): State
  {
    SetMode(s, mode).(idles := s.idles + 1)
  }

  /** manager_valid_cb: schedule a reconciliation pass (validity is re-read when it runs). */
  function ManagerValid(s: State): State
  {
    s.(idles := s.idles + 1)
  }

  function OnlineModem(s: State, m: Modem, online: bool): State
  {
    s.(log := s.log + OnlineEffects(m, online))
  }

  function ControlModem(s: State, m: Modem): State
  {
    s.(log := s.log + ControlEffects(s.normalMode, m))
  }

  /** modem_powered_cb: go online on success, arm a retry on an in-progress refusal, else give up. */
  function ModemPowered(s: State, m: Modem, outcome: PowerOutcome): State
  {
    if outcome.Ok? then OnlineModem(s, m, s.normalMode)
    else if ShouldRetry(outcome) then ArmRetry(s, m.path)
    else s
  }

  /** g_timeout_add_seconds with the retry delay, plus the weak reference that carries the disposal hook. */
  function ArmRetry(s: State, path: string): State
  {
    s.(timers := s.timers[s.nextSource := RetryTimer(path, RetryDelay)], nextSource := s.nextSource + 1)
  }

  /** retry_power_cb: the timeout fires once, drops its disposal hook and controls the modem. */
  function RetryPower(s: State, id: nat, m: Modem): State
    requires id in s.timers && s.timers[id].path == m.path
  {
    ControlModem(s.(timers := s.timers - {id}), m)
  }

  /**
   * The disposal of a modem as a whole: modem_disposed_cb runs for each retry
   * armed for it, and together they remove every such timeout.
   */
  function ModemDisposed(s: State, path: string): State
  {
    s.(timers := map id | id in s.timers && s.timers[id].path != path :: s.timers[id])
  }

  /** queue_modem: control a valid modem, or connect a valid-changed handler and record it in `ids`. */
  function QueueModem(s: State, m: Modem): State
  {
    if m.valid then ControlModem(s, m)
    else
      s.(ids := s.ids[m.path := s.nextHandler],
         handlers := s.handlers[s.nextHandler := m.path],
         nextHandler := s.nextHandler + 1)
  }

  /** modem_added_cb: queue the modem the manager reports. */
  function ModemAdded(s: State, m: Modem): State
  {
    QueueModem(s, m)
  }

  /** modem_valid_cb: disconnect the handler `ids` names for the modem, forget it, control the modem. */
  function ModemValid(s: State, m: Modem): State
  {
    var cleared :=
      if m.path in s.ids then s.(handlers := s.handlers - {s.ids[m.path]}, ids := s.ids - {m.path})
      else s;
    ControlModem(cleared, m)
  }

  /** modem_removed_cb: drop the path from both tables; the handler itself stays connected. */
  function ModemRemoved(s: State, path: string): State
  {
    s.(modems := s.modems - {path}, ids := s.ids - {path})
  }

  /** queue_modem on each modem of the list, in list order. */
  function QueueAll(s: State, ms: seq<Modem>): State
  {
    if ms == [] then s else QueueModem(QueueAll(s, ms[..|ms| - 1]), ms[|ms| - 1])
  }

  /** idle_online_modems, one scheduled pass: nothing unless the manager is valid. */
  function IdleOnlineModems(s: State, managerValid: bool, ms: seq<Modem>): State
    requires s.idles > 0
  {
    var s1 := s.(idles := s.idles - 1);
    if managerValid then QueueAll(s1, ms) else s1
  }

  // ---------------------------------------------------------------------
  // Reference definitions for a reconciliation pass

  /** The commands a pass over `ms` sends: control of every valid modem, front to back. */
  function PassEffects(normal: bool, ms: seq<Modem>): seq<Effect>
  {
    if ms == [] then []
    else (if ms[0].valid then ControlEffects(normal, ms[0]) else []) + PassEffects(normal, ms[1..])
  }

  /** The paths a pass over `ms` leaves waiting for validity. */
  function PendingPaths(ms: seq<Modem>): set<string>
  {
    set i | 0 <= i < |ms| && !ms[i].valid :: ms[i].path
  }

  // ---------------------------------------------------------------------
  // Events and runs

  /** The events the main loop delivers to the daemon. */
  datatype Event =
    | ModeSignal(mode: Option<string>)
    | ManagerValidSignal
    | ModemAddedSignal(modem: Modem)
    | ModemRemovedSignal(path: string)
    | ModemValidSignal(modem: Modem)
    | PowerReply(modem: Modem, outcome: PowerOutcome)
    | RetryTimeout(source: nat, modem: Modem)
    | Disposal(path: string)
    | IdleDispatch(managerValid: bool, modems: seq<Modem>)

  /** The main loop only dispatches sources that exist: an armed timer, a scheduled idle pass. */
  predicate Enabled(s: State, e: Event)
  {
    match e
    case RetryTimeout(id, m) => id in s.timers && s.timers[id].path == m.path
    case IdleDispatch(_, _) => s.idles > 0
    case _ => true
  }

  function Step(s: State, e: Event): State
    requires Enabled(s, e)
  {
    match e
    case ModeSignal(mode) => DeviceModeInd(s, mode)
    case ManagerValidSignal => ManagerValid(s)
    case ModemAddedSignal(m) => ModemAdded(s, m)
    case ModemRemovedSignal(path) => ModemRemoved(s, path)
    case ModemValidSignal(m) => ModemValid(s, m)
    case PowerReply(m, outcome) => ModemPowered(s, m, outcome)
    case RetryTimeout(id, m) => RetryPower(s, id, m)
    case Disposal(path) => ModemDisposed(s, path)
    case IdleDispatch(valid, ms) => IdleOnlineModems(s, valid, ms)
  }

  /** The state after delivering `es` in order, or None if one of them cannot be dispatched. */
  function Run(s: State, es: seq<Event>): Option<State>
    decreases |es|
  {
    if es == [] then Some(s)
    else if Enabled(s, es[0]) then Run(Step(s, es[0]), es[1..])
    else None
  }

}
