/**
 * The cellular daemon as it runs: one object holding the global state of
 * src/cellulard.c (the normal_mode flag, the `modems` and `ids` hash tables,
 * the connected valid-changed handlers, the armed retry timeouts, the
 * scheduled idle passes) and one method per callback, each of which updates
 * that state in place. Every method is specified by the transition of the
 * Machine module it implements; the properties of those transitions are
 * proved in MachineProperties.
 */
module Cellulard {
  import opened Wrappers
  import opened GLibStrings
  import opened Policy
  import Machine
  import opened MachineProperties

  class Daemon {
    var normalMode: bool
    var modems: set<string>
    var ids: map<string, nat>
    var handlers: map<nat, string>
    var nextHandler: nat
    var timers: map<nat, Machine.RetryTimer>
    var nextSource: nat
    var idles: nat
    var log: seq<Effect>

    /** The daemon's state as a value. */
    ghost function Abs(): Machine.State
      reads this
    {
      Machine.State(normalMode, modems, ids, handlers, nextHandler, timers, nextSource, idles, log)
    }

    ghost predicate Valid()
      reads this
    {
      Machine.Inv(Abs())
    }

    /** Startup: the mode read from MCE (get_device_mode_ind), then ofono_manager_init's empty tables. */
    constructor (initialMode: Option<string>)
      ensures Valid() && Abs() == Machine.Initial(initialMode)
    {
      normalMode := false;
      modems, ids, handlers, nextHandler := {}, map[], map[], 1;
      timers, nextSource, idles, log := map[], 1, 0, [];
      new;
      SetMode(initialMode);
    }

    /** set_mode: the flag is set exactly when the broadcast string is MCE's normal mode. */
    method SetMode(mode: Option<string>)
      requires Valid()
      modifies this
      ensures Valid() && Abs() == Machine.SetMode(old(Abs()), mode)
      ensures normalMode <==> mode == Some(NormalModeName)
    {
      if Strcmp0(mode, Some(NormalModeName)) == 0 {
        normalMode := true;
      } else {
        normalMode := false;
      }
    }

    /** device_mode_ind_cb: take the new mode and schedule a reconciliation pass. */
    method DeviceModeInd(mode: Option<string>)
      requires Valid()
      modifies this
      ensures Valid() && Abs() == Machine.DeviceModeInd(old(Abs()), mode)
    {
      SetMode(mode);
      idles := idles + 1;
    }

    /** manager_valid_cb: schedule a reconciliation pass at high idle priority. */
    method ManagerValid()
      requires Valid()
      modifies this
      ensures Valid() && Abs() == Machine.ManagerValid(old(Abs()))
    {
      idles := idles + 1;
    }

    /** online_modem: after the settle delay, ask for online; never ask for offline. */
    method OnlineModem(m: Modem, online: bool)
      requires Valid()
      modifies this
      ensures Valid() && Abs() == Machine.OnlineModem(old(Abs()), m, online)
    {
      ghost var s0 := Abs();
      if online && m.online != online {
        log := log + [Sleep(SettleDelay)];
        log := log + [SetOnline(m.path, online)];
      }
      OnlineModemKeepsInv(s0, m, online);
    }

    /** control_modem: send the power the mode asks for, or, with power right, go online. */
    method ControlModem(m: Modem)
      requires Valid()
      modifies this
      ensures Valid() && Abs() == Machine.ControlModem(old(Abs()), m)
    {
      ghost var s0 := Abs();
      var val := normalMode;
      if m.powered != val {
        log := log + [SetPowered(m.path, val)];
        ControlModemKeepsInv(s0, m);
      } else {
        OnlineModem(m, val);
      }
    }

    /** modem_powered_cb: on success go online; on InProgress arm a 5-second retry; else give up. */
    method ModemPowered(m: Modem, outcome: PowerOutcome)
      requires Valid()
      modifies this
      ensures Valid() && Abs() == Machine.ModemPowered(old(Abs()), m, outcome)
    {
      var val := normalMode;
      if outcome.Ok? {
        OnlineModem(m, val);
      } else if ShouldRetry(outcome) {
        ArmRetry(m.path);
      }
    }

    /** g_timeout_add_seconds(5, retry_power_cb, ...) and g_object_weak_ref(modem, modem_disposed_cb, ...). */
    method ArmRetry(path: string)
      requires Valid()
      modifies this
      ensures Valid() && Abs() == Machine.ArmRetry(old(Abs()), path)
    {
      ghost var s0 := Abs();
      var id := nextSource;
      nextSource := nextSource + 1;
      timers := timers[id := Machine.RetryTimer(path, RetryDelay)];
      ArmRetryKeepsInv(s0, path);
    }

    /**
     * retry_power_cb: drop the disposal hook, control the modem once, and
     * return false so that the timeout source is destroyed.
     */
    method RetryPower(id: nat, m: Modem) returns (again: bool)
      requires Valid() && id in timers && timers[id].path == m.path
      modifies this
      ensures Valid() && Abs() == Machine.RetryPower(old(Abs()), id, m)
      ensures !again && id !in timers
    {
      timers := timers - {id};
      ControlModem(m);
      again := false;
    }

    /** The disposal of a modem: modem_disposed_cb for each of its retries, each a g_source_remove. */
    method ModemDisposed(path: string)
      requires Valid()
      modifies this
      ensures Valid() && Abs() == Machine.ModemDisposed(old(Abs()), path)
      ensures forall id | id in timers :: timers[id].path != path
    {
      timers := map id | id in timers && timers[id].path != path :: timers[id];
    }

    /** queue_modem: control a valid modem, otherwise wait for it to become valid. */
    method QueueModem(m: Modem)
      requires Valid()
      modifies this
      ensures Valid() && Abs() == Machine.QueueModem(old(Abs()), m)
    {
      if m.valid {
        ControlModem(m);
      } else {
        var id := nextHandler;
        nextHandler := nextHandler + 1;
        handlers := handlers[id := m.path];
        ids := ids[m.path := id];
      }
    }

    /** modem_valid_cb: disconnect and forget the handler recorded for the modem, then control it. */
    method ModemValid(m: Modem)
      requires Valid()
      modifies this
      ensures Valid() && Abs() == Machine.ModemValid(old(Abs()), m)
      ensures m.path !in ids
    {
      ghost var s0 := Abs();
      if m.path in ids {
        var id := ids[m.path];
        handlers := handlers - {id};
        ids := ids - {m.path};
      }
      ControlModem(m);
      ModemValidKeepsInv(s0, m);
    }

    /** modem_added_cb: queue the new modem. */
    method ModemAdded(m: Modem)
      requires Valid()
      modifies this
      ensures Valid() && Abs() == Machine.ModemAdded(old(Abs()), m)
    {
      QueueModem(m);
    }

    /** modem_removed_cb: remove the path from `modems` and from `ids`. */
    method ModemRemoved(path: string)
      requires Valid()
      modifies this
      ensures Valid() && Abs() == Machine.ModemRemoved(old(Abs()), path)
      ensures path !in ids && path !in modems
    {
      modems := modems - {path};
      ids := ids - {path};
    }

    /**
     * idle_online_modems: one scheduled pass. If the manager is valid, queue
     * every modem it lists, in order. Returns false, so the pass runs once.
     */
    method IdleOnlineModems(managerValid: bool, list: seq<Modem>) returns (again: bool)
      requires Valid() && idles > 0
      modifies this
      ensures Valid() && Abs() == Machine.IdleOnlineModems(old(Abs()), managerValid, list)
      ensures !again
    {
      idles := idles - 1;
      if !managerValid {
        return false;
      }
      ghost var start := Abs();
      var i := 0;
      while i < |list|
        invariant 0 <= i <= |list|
        invariant Valid()
        invariant Abs() == Machine.QueueAll(start, list[..i])
      {
        assert list[..i + 1][..i] == list[..i];
        QueueModem(list[i]);
        i := i + 1;
      }
      assert list[..|list|] == list;
      return false;
    }
  }
}
