/**
 * What the transitions of the cellular daemon guarantee: the invariant is
 * kept by every callback, and each callback does what src/cellulard.c
 * makes it do, stated one callback at a time and over whole runs.
 */
module MachineProperties {
  import opened Wrappers
  import opened Policy
  import opened Machine

  // ---------------------------------------------------------------------
  // The invariant is kept by every transition

  lemma OnlineModemKeepsInv(s: State, m: Modem, online: bool)
    requires Inv(s)
    ensures Inv(OnlineModem(s, m, online))
  {
    OnlineEffectsSettled(m, online);
    SettledOnlineAppend(s.log, OnlineEffects(m, online));
  }

  lemma ControlModemKeepsInv(s: State, m: Modem)
    requires Inv(s)
    ensures Inv(ControlModem(s, m))
  {
    ControlEffectsSettled(s.normalMode, m);
    SettledOnlineAppend(s.log, ControlEffects(s.normalMode, m));
  }

  lemma QueueModemKeepsInv(s: State, m: Modem)
    requires Inv(s)
    ensures Inv(QueueModem(s, m))
  {
    if m.valid {
      ControlModemKeepsInv(s, m);
    }
  }

  lemma ModemValidKeepsInv(s: State, m: Modem)
    requires Inv(s)
    ensures Inv(ModemValid(s, m))
  {
    var cleared :=
      if m.path in s.ids then s.(handlers := s.handlers - {s.ids[m.path]}, ids := s.ids - {m.path})
      else s;
    assert Inv(cleared);
    ControlModemKeepsInv(cleared, m);
  }

  lemma {:induction false} QueueAllKeepsInv(s: State, ms: seq<Modem>)
    requires Inv(s)
    ensures Inv(QueueAll(s, ms))
  {
    if ms != [] {
      QueueAllKeepsInv(s, ms[..|ms| - 1]);
      QueueModemKeepsInv(QueueAll(s, ms[..|ms| - 1]), ms[|ms| - 1]);
    }
  }

  lemma ModemPoweredKeepsInv(s: State, m: Modem, outcome: PowerOutcome)
    requires Inv(s)
    ensures Inv(ModemPowered(s, m, outcome))
  {
    if outcome.Ok? {
      OnlineModemKeepsInv(s, m, s.normalMode);
    } else if ShouldRetry(outcome) {
      ArmRetryKeepsInv(s, m.path);
    }
  }

  lemma ArmRetryKeepsInv(s: State, path: string)
    requires Inv(s)
    ensures Inv(ArmRetry(s, path))
  {
  }

  lemma RetryPowerKeepsInv(s: State, id: nat, m: Modem)
    requires Inv(s) && id in s.timers && s.timers[id].path == m.path
    ensures Inv(RetryPower(s, id, m))
  {
    ControlModemKeepsInv(s.(timers := s.timers - {id}), m);
  }

  lemma ModemDisposedKeepsInv(s: State, path: string)
    requires Inv(s)
    ensures Inv(ModemDisposed(s, path))
  {
  }

  lemma ModemRemovedKeepsInv(s: State, path: string)
    requires Inv(s)
    ensures Inv(ModemRemoved(s, path))
  {
  }

  lemma IdleOnlineModemsKeepsInv(s: State, managerValid: bool, ms: seq<Modem>)
    requires Inv(s) && s.idles > 0
    ensures Inv(IdleOnlineModems(s, managerValid, ms))
    ensures IdleOnlineModems(s, managerValid, ms).modems == s.modems
    ensures s.log <= IdleOnlineModems(s, managerValid, ms).log
  {
    QueueAllKeepsInv(s.(idles := s.idles - 1), ms);
    QueueAllEffects(s.(idles := s.idles - 1), ms);
  }

  // ---------------------------------------------------------------------
  // control_modem and online_modem

  /** A power mismatch sends exactly one SetPowered with the current mode and changes nothing else. */
  lemma ControlModemOnPowerMismatch(s: State, m: Modem)
    requires m.powered != s.normalMode
    ensures ControlModem(s, m) == s.(log := s.log + [SetPowered(m.path, s.normalMode)])
  {
    ControlOnPowerMismatch(s.normalMode, m);
  }

  /**
   * control_modem does not remember a power command in flight: two calls in
   * a row on a modem whose power is still wrong send SetPowered twice.
   */
  lemma ControlModemTwiceResendsPower(s: State, m: Modem)
    requires m.powered != s.normalMode
    ensures ControlModem(ControlModem(s, m), m).log
         == s.log + [SetPowered(m.path, s.normalMode), SetPowered(m.path, s.normalMode)]
  {
  }

  /** control_modem leaves the state as it was exactly when the modem is already converged. */
  lemma ControlModemNoOpIffConverged(s: State, m: Modem)
    ensures ControlModem(s, m) == s <==> Converged(s.normalMode, m)
  {
    ControlSilentIffConverged(s.normalMode, m);
    if ControlModem(s, m) == s {
      assert |s.log + ControlEffects(s.normalMode, m)| == |s.log|;
    }
  }

  // ---------------------------------------------------------------------
  // modem_powered_cb, retry_power_cb, modem_disposed_cb

  /**
   * A successful power command goes through online_modem with the mode read
   * when the reply arrives: after a mode change in between, the new mode decides.
   */
  lemma ModemPoweredOnSuccess(s: State, mode: Option<string>, m: Modem)
    ensures ModemPowered(SetMode(s, mode), m, Ok).log == s.log + OnlineEffects(m, ModeIsNormal(mode))
    ensures SetOnline(m.path, true) in ModemPowered(SetMode(s, mode), m, Ok).log[|s.log|..]
        <==> mode == Some(NormalModeName) && !m.online
    ensures mode == Some(NormalModeName) && !m.online ==>
      ModemPowered(SetMode(s, mode), m, Ok).log == s.log + [Sleep(SettleDelay), SetOnline(m.path, true)]
  {
    var tail := ModemPowered(SetMode(s, mode), m, Ok).log[|s.log|..];
    assert tail == OnlineEffects(m, ModeIsNormal(mode));
  }

  /**
   * A power command refused with oFono's InProgress error sends nothing and
   * arms exactly one new 5-second retry for the modem.
   */
  lemma ModemPoweredRetriesInProgress(s: State, m: Modem)
    requires Inv(s)
    ensures var r := ModemPowered(s, m, RemoteError(InProgressError));
            && r.log == s.log
            && s.nextSource !in s.timers
            && r.timers == s.timers[s.nextSource := RetryTimer(m.path, RetryDelay)]
            && |r.timers| == |s.timers| + 1
            && r == ArmRetry(s, m.path)
  {
    assert ShouldRetry(RemoteError(InProgressError));
    ArmRetryAddsOneTimer(s, m.path);
  }

  /** Any other failure of a power command is only logged: the state does not change. */
  lemma ModemPoweredGivesUp(s: State, m: Modem, outcome: PowerOutcome)
    requires !outcome.Ok? && outcome != RemoteError(InProgressError)
    ensures ModemPowered(s, m, outcome) == s
  {
  }

  /** A failed power command arms a retry (one more timer) exactly on the InProgress error. */
  lemma ModemPoweredFailureClassified(s: State, m: Modem, outcome: PowerOutcome)
    requires Inv(s) && !outcome.Ok?
    ensures ModemPowered(s, m, outcome).log == s.log
    ensures |ModemPowered(s, m, outcome).timers| == |s.timers| + 1
        <==> outcome == RemoteError(InProgressError)
  {
    if outcome == RemoteError(InProgressError) {
      ModemPoweredRetriesInProgress(s, m);
    } else {
      ModemPoweredGivesUp(s, m, outcome);
    }
  }

  /**
   * Two InProgress refusals for the same modem arm two retries for it: each
   * refusal gets its own timeout and neither supersedes the other.
   */
  lemma ModemPoweredTwiceArmsTwoRetries(s: State, m: Modem)
    requires Inv(s)
    ensures var once := ModemPowered(s, m, RemoteError(InProgressError));
            var twice := ModemPowered(once, m, RemoteError(InProgressError));
            && s.nextSource !in s.timers && s.nextSource + 1 !in s.timers
            && s.nextSource in twice.timers && twice.timers[s.nextSource].path == m.path
            && s.nextSource + 1 in twice.timers && twice.timers[s.nextSource + 1].path == m.path
            && |twice.timers| == |s.timers| + 2
            && twice.log == s.log
  {
    assert ShouldRetry(RemoteError(InProgressError));
    assert ModemPowered(ModemPowered(s, m, RemoteError(InProgressError)), m, RemoteError(InProgressError))
      == ArmRetry(ArmRetry(s, m.path), m.path);
    ArmRetryTwiceKeepsBoth(s, m.path);
  }

  /** Arming twice for one path leaves both timeouts armed, under consecutive fresh ids. */
  lemma ArmRetryTwiceKeepsBoth(s: State, path: string)
    requires Inv(s)
    ensures var twice := ArmRetry(ArmRetry(s, path), path);
            && s.nextSource !in s.timers && s.nextSource + 1 !in s.timers
            && s.nextSource in twice.timers && twice.timers[s.nextSource].path == path
            && s.nextSource + 1 in twice.timers && twice.timers[s.nextSource + 1].path == path
            && |twice.timers| == |s.timers| + 2
            && twice.log == s.log
  {
    ArmRetryAddsOneTimer(s, path);
    ArmRetryKeepsInv(s, path);
    ArmRetryAddsOneTimer(ArmRetry(s, path), path);
  }

  lemma ArmRetryAddsOneTimer(s: State, path: string)
    requires Inv(s)
    ensures s.nextSource !in s.timers
    ensures |ArmRetry(s, path).timers| == |s.timers| + 1
  {
    assert ArmRetry(s, path).timers.Keys == s.timers.Keys + {s.nextSource};
  }

  /** A retry fires once: its timer is gone afterwards and control_modem runs once for its modem. */
  lemma RetryPowerFiresOnce(s: State, id: nat, m: Modem)
    requires id in s.timers && s.timers[id].path == m.path
    ensures id !in RetryPower(s, id, m).timers
    ensures RetryPower(s, id, m).timers == s.timers - {id}
    ensures |RetryPower(s, id, m).timers| == |s.timers| - 1
    ensures RetryPower(s, id, m).log == s.log + ControlEffects(s.normalMode, m)
  {
  }

  /**
   * Disposing of a modem removes every retry armed for it and no other, so
   * none of its retries can fire afterwards.
   */
  lemma ModemDisposedCancelsRetries(s: State, path: string)
    ensures forall id | id in ModemDisposed(s, path).timers ::
              ModemDisposed(s, path).timers[id].path != path
    ensures forall id | id in s.timers && s.timers[id].path != path ::
              id in ModemDisposed(s, path).timers && ModemDisposed(s, path).timers[id] == s.timers[id]
    ensures ModemDisposed(s, path).timers.Keys <= s.timers.Keys
    ensures ModemDisposed(s, path).log == s.log
  {
  }

  // ---------------------------------------------------------------------
  // queue_modem, modem_valid_cb, modem_removed_cb

  /**
   * queue_modem on a valid modem is control_modem and leaves `ids` alone; on
   * a modem not yet valid it sends nothing and records a fresh handler.
   */
  lemma QueueModemGatesOnValidity(s: State, m: Modem)
    requires Inv(s)
    ensures m.valid ==> QueueModem(s, m) == ControlModem(s, m) && QueueModem(s, m).ids == s.ids
    ensures !m.valid ==>
              && QueueModem(s, m).log == s.log
              && s.nextHandler !in s.handlers
              && QueueModem(s, m).ids == s.ids[m.path := s.nextHandler]
              && QueueModem(s, m).handlers == s.handlers[s.nextHandler := m.path]
  {
  }

  /**
   * Queueing a modem that is not valid twice overwrites its `ids` entry:
   * the first handler stays connected and nothing refers to it any more.
   */
  lemma QueueModemTwiceLeaksHandler(s: State, m: Modem)
    requires Inv(s) && !m.valid
    ensures var twice := QueueModem(QueueModem(s, m), m);
            && twice.ids[m.path] == s.nextHandler + 1
            && s.nextHandler in twice.handlers && twice.handlers[s.nextHandler] == m.path
            && s.nextHandler !in twice.ids.Values
            && |twice.handlers| == |s.handlers| + 2
  {
    var twice := QueueModem(QueueModem(s, m), m);
    forall p | p in twice.ids
      ensures twice.ids[p] != s.nextHandler
    {
      if p != m.path {
        assert twice.ids[p] == s.ids[p];
      }
    }
  }

  /**
   * modem_valid_cb forgets the modem's `ids` entry and disconnects the
   * handler it named, keeps every other entry, then runs control_modem once.
   */
  lemma ModemValidClearsPending(s: State, m: Modem)
    requires Inv(s)
    ensures m.path !in ModemValid(s, m).ids
    ensures ModemValid(s, m).ids == s.ids - {m.path}
    ensures m.path in s.ids ==> s.ids[m.path] !in ModemValid(s, m).handlers
    ensures ModemValid(s, m).log == s.log + ControlEffects(s.normalMode, m)
  {
  }

  /**
   * modem_removed_cb drops the path from both tables and keeps every other
   * key, but leaves the modem's valid-changed handler connected.
   */
  lemma ModemRemovedDropsPath(s: State, path: string)
    requires Inv(s)
    ensures path !in ModemRemoved(s, path).ids && path !in ModemRemoved(s, path).modems
    ensures ModemRemoved(s, path).ids == s.ids - {path}
    ensures ModemRemoved(s, path).modems == s.modems - {path}
    ensures path in s.ids ==> s.ids[path] in ModemRemoved(s, path).handlers
    ensures ModemRemoved(s, path).log == s.log && ModemRemoved(s, path).timers == s.timers
  {
  }

  // ---------------------------------------------------------------------
  // idle_online_modems

  lemma {:induction false} PassEffectsSnoc(normal: bool, ms: seq<Modem>, m: Modem)
    ensures PassEffects(normal, ms + [m])
         == PassEffects(normal, ms) + (if m.valid then ControlEffects(normal, m) else [])
  {
    if ms != [] {
      assert (ms + [m])[1..] == ms[1..] + [m];
      PassEffectsSnoc(normal, ms[1..], m);
    }
  }

  lemma PendingPathsSnoc(ms: seq<Modem>, m: Modem)
    ensures PendingPaths(ms + [m]) == PendingPaths(ms) + (if m.valid then {} else {m.path})
  {
    var all := ms + [m];
    forall p | p in PendingPaths(all)
      ensures p in PendingPaths(ms) + (if m.valid then {} else {m.path})
    {
      var i :| 0 <= i < |all| && !all[i].valid && all[i].path == p;
      if i < |ms| { assert ms[i] == all[i]; }
    }
    forall p | p in PendingPaths(ms)
      ensures p in PendingPaths(all)
    {
      var i :| 0 <= i < |ms| && !ms[i].valid && ms[i].path == p;
      assert all[i] == ms[i];
    }
    if !m.valid {
      assert all[|ms|] == m;
    }
  }

  /**
   * A pass queues the modems in list order: its commands are PassEffects,
   * appended to the log; it only adds `ids` entries, one per modem not yet
   * valid; and it touches neither the mode, nor the timers, nor the registry.
   */
  lemma {:induction false} QueueAllEffects(s: State, ms: seq<Modem>)
    ensures QueueAll(s, ms).log == s.log + PassEffects(s.normalMode, ms)
    ensures QueueAll(s, ms).ids.Keys == s.ids.Keys + PendingPaths(ms)
    ensures QueueAll(s, ms).(log := s.log, ids := s.ids, handlers := s.handlers,
                             nextHandler := s.nextHandler) == s
  {
    if ms != [] {
      var init, last := ms[..|ms| - 1], ms[|ms| - 1];
      assert ms == init + [last];
      QueueAllEffects(s, init);
      PassEffectsSnoc(s.normalMode, init, last);
      PendingPathsSnoc(init, last);
    } else {
      assert PendingPaths(ms) == {};
    }
  }

  /** A pass sends nothing exactly when every valid modem in the list is already converged. */
  lemma {:induction false} PassSilentIffConverged(normal: bool, ms: seq<Modem>)
    ensures PassEffects(normal, ms) == []
        <==> forall i | 0 <= i < |ms| && ms[i].valid :: Converged(normal, ms[i])
  {
    if ms != [] {
      PassSilentIffConverged(normal, ms[1..]);
      ControlSilentIffConverged(normal, ms[0]);
      if forall i | 0 <= i < |ms| && ms[i].valid :: Converged(normal, ms[i]) {
        assert forall i | 0 <= i < |ms[1..]| && ms[1..][i].valid :: Converged(normal, ms[1..][i]) by {
          forall i | 0 <= i < |ms[1..]| && ms[1..][i].valid ensures Converged(normal, ms[1..][i]) {
            assert ms[1..][i] == ms[i + 1];
          }
        }
      }
      if PassEffects(normal, ms) == [] {
        forall i | 0 <= i < |ms| && ms[i].valid ensures Converged(normal, ms[i]) {
          if i > 0 { assert ms[i] == ms[1..][i - 1]; }
        }
      }
    }
  }

  /**
   * idle_online_modems consumes its scheduled pass; with the manager not
   * valid it does nothing else, otherwise it queues every listed modem.
   */
  lemma IdleOnlineModemsPass(s: State, managerValid: bool, ms: seq<Modem>)
    requires s.idles > 0
    ensures IdleOnlineModems(s, managerValid, ms).idles == s.idles - 1
    ensures !managerValid ==> IdleOnlineModems(s, managerValid, ms) == s.(idles := s.idles - 1)
    ensures IdleOnlineModems(s, managerValid, ms).log
         == s.log + (if managerValid then PassEffects(s.normalMode, ms) else [])
    ensures IdleOnlineModems(s, managerValid, ms).ids.Keys
         == s.ids.Keys + (if managerValid then PendingPaths(ms) else {})
    ensures IdleOnlineModems(s, managerValid, ms).timers == s.timers
  {
    QueueAllEffects(s.(idles := s.idles - 1), ms);
  }

  /** On a valid manager, a pass leaves the log as it was iff every valid modem is converged. */
  lemma IdleOnlineModemsSilentIffConverged(s: State, ms: seq<Modem>)
    requires s.idles > 0
    ensures IdleOnlineModems(s, true, ms).log == s.log
        <==> forall i | 0 <= i < |ms| && ms[i].valid :: Converged(s.normalMode, ms[i])
  {
    IdleOnlineModemsPass(s, true, ms);
    PassSilentIffConverged(s.normalMode, ms);
    if IdleOnlineModems(s, true, ms).log == s.log {
      assert |s.log + PassEffects(s.normalMode, ms)| == |s.log|;
    }
  }

  /** Every event keeps the invariant, never adds to the registry and only appends to the log. */
  lemma StepKeepsInv(s: State, e: Event)
    requires Inv(s) && Enabled(s, e)
    ensures Inv(Step(s, e))
    ensures Step(s, e).modems <= s.modems
    ensures s.log <= Step(s, e).log
  {
    match e
    case ModeSignal(mode) =>
    case ManagerValidSignal =>
    case ModemAddedSignal(m) => QueueModemKeepsInv(s, m);
    case ModemRemovedSignal(path) => ModemRemovedKeepsInv(s, path);
    case ModemValidSignal(m) => ModemValidKeepsInv(s, m);
    case PowerReply(m, outcome) => ModemPoweredKeepsInv(s, m, outcome);
    case RetryTimeout(id, m) => RetryPowerKeepsInv(s, id, m);
    case Disposal(path) => ModemDisposedKeepsInv(s, path);
    case IdleDispatch(valid, ms) => IdleOnlineModemsKeepsInv(s, valid, ms);
  }

  /** What holds after any run: the invariant, a registry that never grew, an append-only log. */
  lemma {:induction false} RunKeepsInv(s: State, es: seq<Event>)
    requires Inv(s)
    decreases |es|
    ensures Run(s, es).Some? ==>
              Inv(Run(s, es).value) && Run(s, es).value.modems <= s.modems && s.log <= Run(s, es).value.log
  {
    if es != [] && Enabled(s, es[0]) {
      StepKeepsInv(s, es[0]);
      RunKeepsInv(Step(s, es[0]), es[1..]);
    }
  }

  /**
   * From startup, whatever the events: the registry stays empty, every
   * online command asks for online right after the settle delay, and every
   * `ids` entry names a connected handler of that modem.
   */
  lemma ReachableStates(mode: Option<string>, es: seq<Event>)
    ensures Run(Initial(mode), es).Some? ==>
              var r := Run(Initial(mode), es).value;
              && r.modems == {}
              && SettledOnline(r.log)
              && (forall p | p in r.ids :: r.ids[p] in r.handlers && r.handlers[r.ids[p]] == p)
  {
    RunKeepsInv(Initial(mode), es);
  }

  // ---------------------------------------------------------------------
  // Three scenarios of the daemon's life

  /**
   * A switch away from normal mode while a power-on is in flight strands the
   * modem: the pass sees it still unpowered and sends nothing, the power-on
   * then succeeds and online_modem(false) sends nothing either. Starting with
   * no pass, retry or waiting handler for the modem, none is left afterwards,
   * so the modem stays powered outside normal mode.
   */
  lemma ModeSwitchDuringPowerOnStrands(s: State, path: string, mode: Option<string>)
    requires s.normalMode && mode != Some(NormalModeName)
    requires s.idles == 0 && path !in s.ids
    requires forall t | t in s.timers :: s.timers[t].path != path
    ensures
      var off := Modem(path, false, false, true);
      var on := Modem(path, true, false, true);
      var sent := ControlModem(s, off);
      var passed := IdleOnlineModems(DeviceModeInd(sent, mode), true, [off]);
      var done := ModemPowered(passed, on, Ok);
      && sent.log == s.log + [SetPowered(path, true)]
      && passed.log == sent.log
      && done.log == sent.log
      && done.timers == s.timers && done.idles == 0 && path !in done.ids
      && (forall t | t in done.timers :: done.timers[t].path != path)
      && !Converged(done.normalMode, on)
  {
    var off := Modem(path, false, false, true);
    var sent := ControlModem(s, off);
    var d := DeviceModeInd(sent, mode);
    assert !d.normalMode;
    assert [off][..0] == [];
    assert QueueAll(d.(idles := d.idles - 1), [off]).log == sent.log;
  }

  /**
   * Startup in flight mode, a valid modem that is off: nothing is sent.
   * The mode becomes normal and the pass runs: exactly one SetPowered(true).
   * The power command succeeds: the settle delay, then exactly one SetOnline(true).
   */
  lemma ScenarioPowerOnAfterModeChange()
    ensures
      var off := Modem("/modem0", false, false, true);
      var on := Modem("/modem0", true, false, true);
      var added := ModemAdded(Initial(Some("flight")), off);
      var passed := IdleOnlineModems(DeviceModeInd(added, Some(NormalModeName)), true, [off]);
      && added.log == []
      && passed.log == [SetPowered("/modem0", true)]
      && ModemPowered(passed, on, Ok).log
           == [SetPowered("/modem0", true), Sleep(SettleDelay), SetOnline("/modem0", true)]
  {
    var off := Modem("/modem0", false, false, true);
    var s0 := Initial(Some("flight"));
    assert !s0.normalMode;
    var s2 := DeviceModeInd(ModemAdded(s0, off), Some(NormalModeName));
    assert s2.normalMode;
    assert [off][..0] == [];
    assert QueueAll(s2.(idles := s2.idles - 1), [off]).log == [SetPowered("/modem0", true)];
  }

  /**
   * A modem added before it is valid: nothing is sent and a handler waits.
   * When it becomes valid, control_modem runs once and the handler is
   * disconnected and forgotten.
   */
  lemma ScenarioModemBecomesValid(mode: Option<string>)
    ensures
      var early := Modem("/modem0", false, false, false);
      var ready := Modem("/modem0", false, false, true);
      var added := ModemAdded(Initial(mode), early);
      var validated := ModemValid(added, ready);
      && added.log == [] && "/modem0" in added.ids && added.ids["/modem0"] in added.handlers
      && validated.log == ControlEffects(Initial(mode).normalMode, ready)
      && validated.ids == map[] && validated.handlers == map[]
  {
  }
}
