/**
 * The decisions the cellular daemon takes for one modem, as pure functions:
 * how the device-mode string maps to the mode flag (set_mode), which power
 * or online command to send (control_modem, online_modem), and which failed
 * power command is worth a retry (modem_powered_cb).
 */
module Policy {
  import opened Wrappers
  import opened GLibStrings

  /** The device-mode name MCE broadcasts for normal operation (MCE_NORMAL_MODE). */
  const NormalModeName: string := "normal"

  /** The D-Bus error oFono answers while a power change is still under way. */
  const InProgressError: string := "org.ofono.Error.InProgress"

  /** Seconds the daemon blocks before every online command. */
  const SettleDelay: nat := 3

  /** Seconds after which a power command refused as in progress is retried. */
  const RetryDelay: nat := 5

  /** What the daemon reads of an oFono modem object; the library keeps it up to date. */
  datatype Modem = Modem(path: string, powered: bool, online: bool, valid: bool)

  /** One observable action of the daemon, in the order it happens. */
  datatype Effect =
    | SetPowered(path: string, on: bool)   // ofono_modem_set_powered_full
    | Sleep(seconds: nat)                  // the blocking sleep before going online
    | SetOnline(path: string, on: bool)    // ofono_modem_set_online

  /** How an asynchronous power command completed. */
  datatype PowerOutcome = Ok | RemoteError(name: string) | OtherError

  /** The mode flag set_mode derives from the broadcast mode string (`None` is a missing string). */
  function ModeIsNormal(mode: Option<string>): (normal: bool)
    ensures normal <==> mode == Some(NormalModeName)
  {
    Strcmp0(mode, Some(NormalModeName)) == 0
  }

  /** online_modem: never takes a modem offline, and sleeps before every online command. */
  function OnlineEffects(m: Modem, online: bool): seq<Effect>
  {
    if online && m.online != online then [Sleep(SettleDelay), SetOnline(m.path, online)] else []
  }

  /** control_modem under the mode flag `normal`: fix power first, otherwise go online. */
  function ControlEffects(normal: bool, m: Modem): seq<Effect>
  {
    if m.powered != normal then [SetPowered(m.path, normal)] else OnlineEffects(m, normal)
  }

  /** A modem already in the state the mode asks for. */
  predicate Converged(normal: bool, m: Modem)
  {
    m.powered == normal && (!normal || m.online)
  }

  /** modem_powered_cb's test on a failed power command: retry only an in-progress refusal. */
  function ShouldRetry(outcome: PowerOutcome): (retry: bool)
    ensures retry <==> outcome == RemoteError(InProgressError)
  {
    match outcome
    case RemoteError(name) => Strcmp0(Some(name), Some(InProgressError)) == 0
    case _ => false
  }

  /**
   * The shape every log of the daemon has: each online command asks for
   * online (never offline) and comes right after the settle delay.
   */
  predicate SettledOnline(log: seq<Effect>)
  {
    forall i :: 0 <= i < |log| && log[i].SetOnline? ==>
      log[i].on && 0 < i && log[i - 1] == Sleep(SettleDelay)
  }

  /** Appending a well-formed log keeps the shape (a well-formed log never opens with an online command). */
  lemma SettledOnlineAppend(a: seq<Effect>, b: seq<Effect>)
    requires SettledOnline(a) && SettledOnline(b)
    ensures SettledOnline(a + b)
  {
    forall i | 0 <= i < |a + b| && (a + b)[i].SetOnline?
      ensures (a + b)[i].on && 0 < i && (a + b)[i - 1] == Sleep(SettleDelay)
    {
      if i >= |a| {
        assert (a + b)[i] == b[i - |a|];
        assert (a + b)[i - 1] == b[i - 1 - |a|];
      }
    }
  }

  /** A powered state different from the mode's gives exactly one power command and nothing else. */
  lemma ControlOnPowerMismatch(normal: bool, m: Modem)
    requires m.powered != normal
    ensures ControlEffects(normal, m) == [SetPowered(m.path, normal)]
  {
  }

  /**
   * With power already right, no power command is sent, and an online
   * command is sent exactly when the mode is normal and the modem is offline.
   */
  lemma ControlOnPowerMatch(normal: bool, m: Modem)
    requires m.powered == normal
    ensures forall e | e in ControlEffects(normal, m) :: !e.SetPowered?
    ensures SetOnline(m.path, true) in ControlEffects(normal, m) <==> normal && !m.online
  {
  }

  /** control_modem is silent exactly on a modem that is already converged. */
  lemma ControlSilentIffConverged(normal: bool, m: Modem)
    ensures ControlEffects(normal, m) == [] <==> Converged(normal, m)
  {
  }

  /**
   * Whatever the modem and the mode, control_modem never asks for offline,
   * sleeps before any online command, and does not open with an online command.
   */
  lemma ControlEffectsSettled(normal: bool, m: Modem)
    ensures SettledOnline(ControlEffects(normal, m))
    ensures forall e | e in ControlEffects(normal, m) :: e != SetOnline(m.path, false)
    ensures ControlEffects(normal, m) == [] || !ControlEffects(normal, m)[0].SetOnline?
  {
  }

  /** The same for online_modem on its own, as the power-completion path calls it. */
  lemma OnlineEffectsSettled(m: Modem, online: bool)
    ensures SettledOnline(OnlineEffects(m, online))
    ensures OnlineEffects(m, online) == [] || !OnlineEffects(m, online)[0].SetOnline?
    ensures OnlineEffects(m, online) != [] <==> online && !m.online
    ensures online && !m.online ==> OnlineEffects(m, online) == [Sleep(SettleDelay), SetOnline(m.path, true)]
  {
  }
}
