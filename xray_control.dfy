/**
 * The X-ray panel (XrayControl): connect and power interlocks, the warm-up
 * dialog, the delayed warm-up completion, and the voltage, current and focus
 * controls (enabled only once warm).
 *
 * The two-second warm-up timer is a count of pending completions; its
 * firing is an event of its own.  `StepAsWritten` is the panel as written;
 * `Step` is the panel with a power-off discarding the pending warm-up, the
 * behaviour the panel's own status display assumes (see `WarmImpliesPowered`).
 */
module XrayControl {

  const MaxVoltage: int := 200
  const MaxCurrent: int := 500

  datatype XrayState = XrayState(
    connected: bool, isPowered: bool, isWarmedUp: bool,
    voltage: int, current: int, focus: int, status: string)

  datatype Panel = Panel(
    xray: XrayState, showWarning: bool, warningMessage: string,
    showWarmupDialog: bool, pendingWarmups: nat)

  const Initial := Panel(XrayState(false, false, false, 130, 300, 0, "XR_NOT_READY"), false, "", false, 0)

  const DisconnectWarning := "Please turn off X-ray before disconnecting."
  const NotConnectedWarning := "X-ray not connected. Please check connection."

  datatype Event =
    | ConnectClick
    | PowerClick
    | WarmupYes
    | WarmupNo
    | WarmupTimerFires
    | Adjust(kind: string, amount: int)
    | VoltageSlider(value: int)
    | CurrentSlider(value: int)
    | FocusButton(mode: int)
    | DismissWarning

  /** `Math.min(hi, Math.max(0, v))` */
  function Clamp(v: int, hi: int): (r: int)
    requires hi >= 0
    ensures 0 <= r <= hi
    ensures 0 <= v <= hi ==> r == v
    ensures v < 0 ==> r == 0
    ensures v > hi ==> r == hi
  {
    if v < 0 then 0 else if v > hi then hi else v
  }

  /** `adjustValue(type, amount)`: step voltage or current and clamp; other kinds change nothing. */
  function AdjustValue(x: XrayState, kind: string, amount: int): XrayState {
    if kind == "voltage" then x.(voltage := Clamp(x.voltage + amount, MaxVoltage))
    else if kind == "current" then x.(current := Clamp(x.current + amount, MaxCurrent))
    else x
  }

  /** `handleConnect` */
  function Connect(p: Panel): Panel {
    if p.xray.connected then
      if p.xray.isPowered then p.(warningMessage := DisconnectWarning, showWarning := true)
      else p.(xray := p.xray.(connected := false, status := "XR_NOT_READY"))
    else p.(xray := p.xray.(connected := true, status := "XR_READY"))
  }

  /** `handlePowerToggle`; `discardTimer` says whether a power-off also cancels the pending warm-up. */
  function PowerToggle(p: Panel, discardTimer: bool): Panel {
    if !p.xray.connected then p.(warningMessage := NotConnectedWarning, showWarning := true)
    else if !p.xray.isPowered then
      p.(xray := p.xray.(isPowered := true, status := "XR_IS_COLD"), showWarmupDialog := true)
    else
      p.(xray := p.xray.(isPowered := false, isWarmedUp := false, status := "XR_IS_OFF"),
         pendingWarmups := if discardTimer then 0 else p.pendingWarmups)
  }

  /** Events the full-screen warm-up dialog lets through while it is shown. */
  predicate PassesDialog(e: Event) {
    e.WarmupYes? || e.WarmupNo? || e.WarmupTimerFires?
  }

  /**
   * One event; `discardTimer` selects the corrected power-off.  Disabled or
   * absent controls do nothing, and the open warm-up dialog covers every
   * other control.
   */
  function StepWith(p: Panel, e: Event, discardTimer: bool): Panel {
    if p.showWarmupDialog && !PassesDialog(e) then p
    else match e
    case ConnectClick => Connect(p)
    case PowerClick => PowerToggle(p, discardTimer)
    case WarmupYes =>
      if p.showWarmupDialog then p.(showWarmupDialog := false, pendingWarmups := p.pendingWarmups + 1) else p
    case WarmupNo =>
      if p.showWarmupDialog then p.(showWarmupDialog := false, xray := p.xray.(isPowered := false, status := "XR_IS_OFF")) else p
    case WarmupTimerFires =>
      if p.pendingWarmups > 0 then p.(pendingWarmups := p.pendingWarmups - 1, xray := p.xray.(isWarmedUp := true, status := "XR_IS_ON")) else p
    case Adjust(kind, amount) =>
      if p.xray.isWarmedUp then p.(xray := AdjustValue(p.xray, kind, amount)) else p
    case VoltageSlider(v) =>
      if p.xray.isWarmedUp && 0 <= v <= MaxVoltage then p.(xray := p.xray.(voltage := v)) else p
    case CurrentSlider(v) =>
      if p.xray.isWarmedUp && 0 <= v <= MaxCurrent then p.(xray := p.xray.(current := v)) else p
    case FocusButton(m) =>
      if p.xray.isWarmedUp && 0 <= m <= 3 then p.(xray := p.xray.(focus := m)) else p
    case DismissWarning =>
      if p.showWarning then p.(showWarning := false) else p
  }

  /** The panel as written: a power-off leaves the warm-up timer running. */
  function StepAsWritten(p: Panel, e: Event): Panel { StepWith(p, e, false) }

  /** The corrected panel: a power-off discards the pending warm-up. */
  function Step(p: Panel, e: Event): Panel { StepWith(p, e, true) }

  function RunAsWritten(p: Panel, es: seq<Event>): Panel
    decreases |es|
  {
    if es == [] then p else RunAsWritten(StepAsWritten(p, es[0]), es[1..])
  }

  function Run(p: Panel, es: seq<Event>): Panel
    decreases |es|
  {
    if es == [] then p else Run(Step(p, es[0]), es[1..])
  }

  /** Settings stay in range and the tube is only powered while connected. */
  predicate Safe(p: Panel) {
    0 <= p.xray.voltage <= MaxVoltage && 0 <= p.xray.current <= MaxCurrent && 0 <= p.xray.focus <= 3 &&
    (p.xray.isPowered ==> p.xray.connected)
  }

  /** `Safe` holds however the panel as written is driven. */
  lemma {:induction false} SafeAlways(p: Panel, es: seq<Event>)
    requires Safe(p)
    ensures Safe(RunAsWritten(p, es))
    decreases |es|
  {
    if es != [] {
      SafeAlways(StepAsWritten(p, es[0]), es[1..]);
    }
  }

  /**
   * As written, the delayed completion marks the tube warm and on after it
   * was switched off and disconnected.
   */
  lemma WarmWhileOffAsWritten()
    ensures var p := RunAsWritten(Initial, [ConnectClick, PowerClick, WarmupYes, PowerClick, ConnectClick, WarmupTimerFires]);
      p.xray.isWarmedUp && !p.xray.isPowered && !p.xray.connected && p.xray.status == "XR_IS_ON"
  {
  }

  /** The invariant of the corrected panel: warm, or waiting to become warm, only while powered. */
  predicate Interlocked(p: Panel) {
    Safe(p) &&
    (p.xray.isWarmedUp ==> p.xray.isPowered) &&
    (p.pendingWarmups > 0 ==> p.xray.isPowered) &&
    (p.showWarmupDialog ==> p.pendingWarmups == 0 && !p.xray.isWarmedUp && p.xray.isPowered)
  }

  lemma StepInterlocked(p: Panel, e: Event)
    requires Interlocked(p)
    ensures Interlocked(Step(p, e))
  {
  }

  /** In the corrected panel a warm tube is always powered and connected. */
  lemma {:induction false} WarmImpliesPowered(p: Panel, es: seq<Event>)
    requires Interlocked(p)
    ensures Interlocked(Run(p, es))
    ensures Run(p, es).xray.isWarmedUp ==> Run(p, es).xray.isPowered && Run(p, es).xray.connected
    decreases |es|
  {
    if es != [] {
      StepInterlocked(p, es[0]);
      WarmImpliesPowered(Step(p, es[0]), es[1..]);
    }
  }

  function Distance(a: int, b: int): nat {
    if a < b then b - a else a - b
  }

  /** adjustValue keeps the chosen setting in range, changes nothing else, and leaves the state alone for any other kind. */
  lemma AdjustInRange(x: XrayState, kind: string, amount: int)
    ensures kind == "voltage" ==> var r := AdjustValue(x, kind, amount);
      0 <= r.voltage <= MaxVoltage && r == x.(voltage := r.voltage)
    ensures kind == "current" ==> var r := AdjustValue(x, kind, amount);
      0 <= r.current <= MaxCurrent && r == x.(current := r.current)
    ensures kind != "voltage" && kind != "current" ==> AdjustValue(x, kind, amount) == x
  {
  }

  /** The adjusted setting is the in-range value nearest the requested one: no value `c` in range is closer. */
  lemma AdjustIsNearest(x: XrayState, kind: string, amount: int, c: int)
    ensures kind == "voltage" && 0 <= c <= MaxVoltage ==>
      Distance(AdjustValue(x, kind, amount).voltage, x.voltage + amount) <= Distance(c, x.voltage + amount)
    ensures kind == "current" && 0 <= c <= MaxCurrent ==>
      Distance(AdjustValue(x, kind, amount).current, x.current + amount) <= Distance(c, x.current + amount)
  {
  }

  /** The panel's state variables, replaced by each handler. */
  class Control {
    var xrayState: XrayState
    var showWarning: bool
    var warningMessage: string
    var showWarmupDialog: bool
    var pendingWarmups: nat

    function Snapshot(): Panel
      reads this
    {
      Panel(xrayState, showWarning, warningMessage, showWarmupDialog, pendingWarmups)
    }

    constructor ()
      ensures Snapshot() == Initial
    {
      xrayState := Initial.xray;
      showWarning, warningMessage := false, "";
      showWarmupDialog := false;
      pendingWarmups := 0;
    }

    method HandleConnect()
      requires !showWarmupDialog
      modifies this
      ensures Snapshot() == Step(old(Snapshot()), ConnectClick)
    {
      if xrayState.connected {
        if xrayState.isPowered {
          warningMessage := DisconnectWarning;
          showWarning := true;
          return;
        }
        xrayState := xrayState.(connected := false, status := "XR_NOT_READY");
      } else {
        xrayState := xrayState.(connected := true, status := "XR_READY");
      }
    }

    method HandlePowerToggle()
      requires !showWarmupDialog
      modifies this
      ensures Snapshot() == Step(old(Snapshot()), PowerClick)
    {
      if !xrayState.connected {
        warningMessage := NotConnectedWarning;
        showWarning := true;
        return;
      }
      if !xrayState.isPowered {
        xrayState := xrayState.(isPowered := true, status := "XR_IS_COLD");
        showWarmupDialog := true;
      } else {
        xrayState := xrayState.(isPowered := false, isWarmedUp := false, status := "XR_IS_OFF");
        pendingWarmups := 0;
      }
    }

    /** The dialog's "Yes": close it and start the warm-up timer. */
    method HandleWarmupConfirm()
      requires showWarmupDialog
      modifies this
      ensures Snapshot() == Step(old(Snapshot()), WarmupYes)
    {
      showWarmupDialog := false;
      pendingWarmups := pendingWarmups + 1;
    }

    /** The dialog's "No": close it and switch the tube off. */
    method HandleWarmupCancel()
      requires showWarmupDialog
      modifies this
      ensures Snapshot() == Step(old(Snapshot()), WarmupNo)
    {
      showWarmupDialog := false;
      xrayState := xrayState.(isPowered := false, status := "XR_IS_OFF");
    }

    /** The warm-up timer's callback. */
    method WarmupDone()
      requires pendingWarmups > 0
      modifies this
      ensures Snapshot() == Step(old(Snapshot()), WarmupTimerFires)
    {
      pendingWarmups := pendingWarmups - 1;
      xrayState := xrayState.(isWarmedUp := true, status := "XR_IS_ON");
    }

    method HandleAdjust(kind: string, amount: int)
      requires xrayState.isWarmedUp && !showWarmupDialog
      modifies this
      ensures Snapshot() == Step(old(Snapshot()), Adjust(kind, amount))
    {
      if kind == "voltage" {
        xrayState := xrayState.(voltage := Clamp(xrayState.voltage + amount, MaxVoltage));
      } else if kind == "current" {
        xrayState := xrayState.(current := Clamp(xrayState.current + amount, MaxCurrent));
      }
    }
  }
}
