/**
 * The manipulator panel (ManipulatorControl): one-time axis configuration,
 * the move-value field with its pattern filter, relative moves of the
 * selected axis rounded to three decimals, stop, and the referencing run
 * whose two-second completion is an event of its own.
 */
module ManipulatorControl {
  import opened JsText

  const MaxAxes: int := 12

  datatype Manipulator = Manipulator(
    status: string, isJoyEnabled: bool, isDoorOpen: bool, isCollisionDetected: bool,
    isReferencing: bool, axisCount: int, currentPositions: seq<real>)

  /** The manipulator record and the panel's own state variables. */
  datatype Panel = Panel(
    m: Manipulator, tempAxisCount: string, editingAxis: Option<nat>, moveValue: string,
    pendingReferenceTimers: nat)

  const Initial := Panel(Manipulator("CNC_NOT_READY", false, false, false, false, 0, []), "", None, "", 0)

  datatype Event =
    | TypeAxisCount(text: string)
    | ConfigureClick
    | AxisClick(index: nat)
    | EditMoveValue(value: string)
    | MoveClick
    | StopClick
    | ReferenceClick
    | ReferenceTimerFires
    | JoyToggle
    | CollisionToggle

  function Zeros(n: nat): (z: seq<real>)
    ensures |z| == n && forall i :: 0 <= i < n ==> z[i] == 0.0
  {
    seq(n, _ => 0.0)
  }

  /** `handleSetAxisCount`: a count read by parseInt in 1..12 sets that many zero positions and clears the field. */
  function SetAxisCount(p: Panel): (r: Panel)
    ensures var n := ParseInt(p.tempAxisCount);
      if n.Some? && 0 < n.value <= MaxAxes then
        r.m.axisCount == n.value && r.m.currentPositions == Zeros(n.value) && r.tempAxisCount == ""
      else r == p
  {
    var count := ParseInt(p.tempAxisCount);
    if count.Some? && count.value > 0 && count.value <= MaxAxes then
      p.(m := p.m.(axisCount := count.value, currentPositions := Zeros(count.value)), tempAxisCount := "")
    else p
  }

  /** The new positions after moving `axis` by `delta`: `parseFloat((old + delta).toFixed(3))`. */
  function MovedPositions(positions: seq<real>, axis: nat, delta: real): (r: seq<real>)
    requires axis < |positions|
    ensures |r| == |positions|
    ensures forall j :: 0 <= j < |positions| && j != axis ==> r[j] == positions[j]
    ensures -1.0 / 2000.0 <= r[axis] - (positions[axis] + delta) <= 1.0 / 2000.0 ||
            positions[axis] + delta >= 1000000000000000000000.0 || positions[axis] + delta <= -1000000000000000000000.0
  {
    positions[axis := Round3(positions[axis] + delta)]
  }

  /** `handleMove`: no-op without a selected axis, with an empty value, or when the value reads as NaN. */
  function Move(p: Panel): Panel {
    if p.editingAxis.None? || p.moveValue == "" then p
    else match ParseMoveValue(p.moveValue)
      case None => p
      case Some(v) =>
        if p.editingAxis.value < |p.m.currentPositions| then
          p.(m := p.m.(status := "CNC_REACHED", currentPositions := MovedPositions(p.m.currentPositions, p.editingAxis.value, v)),
             editingAxis := None, moveValue := "")
        else
          // An axis beyond the positions is never selected (see `Valid`);
          // for such an axis the model leaves the positions as they are.
          p.(m := p.m.(status := "CNC_REACHED"), editingAxis := None, moveValue := "")
  }

  /**
   * One event as the panel's markup wires it: the configure field and button
   * exist only while no axes are configured, an axis cell is clickable only
   * while it is not being edited, the value field only for the edited axis,
   * and the move button is disabled without a selected axis.
   */
  function Step(p: Panel, e: Event): Panel {
    match e
    case TypeAxisCount(t) => if p.m.axisCount == 0 then p.(tempAxisCount := t) else p
    case ConfigureClick => if p.m.axisCount == 0 then SetAxisCount(p) else p
    case AxisClick(i) =>
      if p.m.axisCount > 0 && i < |p.m.currentPositions| && p.editingAxis != Some(i) then p.(editingAxis := Some(i), moveValue := "") else p
    case EditMoveValue(v) =>
      if p.m.axisCount > 0 && p.editingAxis.Some? && MatchesMoveValue(v) then p.(moveValue := v) else p
    case MoveClick => if p.m.axisCount > 0 && p.editingAxis.Some? then Move(p) else p
    case StopClick =>
      if p.m.axisCount > 0 then p.(editingAxis := None, moveValue := "", m := p.m.(status := "CNC_IS_READY")) else p
    case ReferenceClick =>
      p.(m := p.m.(isReferencing := true, status := "CNC_DRIVING_REF"), pendingReferenceTimers := p.pendingReferenceTimers + 1)
    case ReferenceTimerFires =>
      if p.pendingReferenceTimers > 0 then
        p.(m := p.m.(isReferencing := false, status := "CNC_STAND_STILL"), pendingReferenceTimers := p.pendingReferenceTimers - 1)
      else p
    case JoyToggle => p.(m := p.m.(isJoyEnabled := !p.m.isJoyEnabled))
    case CollisionToggle => p.(m := p.m.(isCollisionDetected := !p.m.isCollisionDetected))
  }

  function Run(p: Panel, es: seq<Event>): Panel
    decreases |es|
  {
    if es == [] then p else Run(Step(p, es[0]), es[1..])
  }

  /** One position per configured axis, at most twelve, a selection inside the list, and a value the pattern accepts. */
  predicate Valid(p: Panel) {
    0 <= p.m.axisCount <= MaxAxes && |p.m.currentPositions| == p.m.axisCount &&
    (p.editingAxis.Some? ==> p.editingAxis.value < |p.m.currentPositions|) &&
    MatchesMoveValue(p.moveValue)
  }

  lemma EmptyValueMatches()
    ensures MatchesMoveValue("")
  {
    PatternAcceptsDecimals(Decimal(false, "", false, ""));
    assert DecimalText(Decimal(false, "", false, "")) == "";
  }

  lemma StepValid(p: Panel, e: Event)
    requires Valid(p)
    ensures Valid(Step(p, e))
  {
    EmptyValueMatches();
  }

  /** Every reachable panel is `Valid`. */
  lemma {:induction false} RunValid(p: Panel, es: seq<Event>)
    requires Valid(p)
    ensures Valid(Run(p, es))
    decreases |es|
  {
    if es != [] {
      StepValid(p, es[0]);
      RunValid(Step(p, es[0]), es[1..]);
    }
  }

  /** A move with a readable value changes only the selected axis, keeps the length, and clears the selection. */
  lemma {:induction false} MoveTouchesSelectedAxis(p: Panel)
    requires Valid(p) && p.m.axisCount > 0 && p.editingAxis.Some? && p.moveValue != ""
    requires ParseMoveValue(p.moveValue).Some?
    ensures var q := Step(p, MoveClick);
      var a := p.editingAxis.value;
      |q.m.currentPositions| == |p.m.currentPositions| &&
      q.m.currentPositions[a] == Round3(p.m.currentPositions[a] + ParseMoveValue(p.moveValue).value) &&
      (forall j :: 0 <= j < |p.m.currentPositions| && j != a ==> q.m.currentPositions[j] == p.m.currentPositions[j]) &&
      q.m.status == "CNC_REACHED" && q.editingAxis.None? && q.moveValue == ""
  {
    var a, v := p.editingAxis.value, ParseMoveValue(p.moveValue).value;
    assert Step(p, MoveClick) == Move(p);
    assert Move(p).m.currentPositions == MovedPositions(p.m.currentPositions, a, v);
  }

  /** handleMove does nothing without a selected axis, with an empty value, or with a value that reads as NaN. */
  lemma MoveNoOps(p: Panel)
    requires p.editingAxis.None? || p.moveValue == "" || ParseMoveValue(p.moveValue).None?
    ensures Step(p, MoveClick) == p
  {
  }

  /** Stop clears the selection and value and keeps every position. */
  lemma StopKeepsPositions(p: Panel)
    requires p.m.axisCount > 0
    ensures Step(p, StopClick).m == p.m.(status := "CNC_IS_READY")
    ensures Step(p, StopClick).editingAxis.None? && Step(p, StopClick).moveValue == ""
  {
  }

  /** After the last pending reference timer fires the manipulator is standing still, not referencing. */
  lemma ReferenceCompletes(p: Panel)
    ensures Step(p, ReferenceClick).m.isReferencing && Step(p, ReferenceClick).m.status == "CNC_DRIVING_REF"
    ensures var q := Step(Step(p, ReferenceClick), ReferenceTimerFires);
      !q.m.isReferencing && q.m.status == "CNC_STAND_STILL" && q.pendingReferenceTimers == p.pendingReferenceTimers
  {
  }

  class Control {
    var manipulatorState: Manipulator
    var tempAxisCount: string
    var editingAxis: Option<nat>
    var moveValue: string
    var pendingReferenceTimers: nat

    function Snapshot(): Panel
      reads this
    {
      Panel(manipulatorState, tempAxisCount, editingAxis, moveValue, pendingReferenceTimers)
    }

    constructor ()
      ensures Snapshot() == Initial
    {
      manipulatorState := Initial.m;
      tempAxisCount, editingAxis, moveValue := "", None, "";
      pendingReferenceTimers := 0;
    }

    method HandleSetAxisCount()
      requires manipulatorState.axisCount == 0
      modifies this
      ensures Snapshot() == Step(old(Snapshot()), ConfigureClick)
    {
      ghost var p := Snapshot();
      var count := ParseInt(tempAxisCount);
      if count.Some? && count.value > 0 && count.value <= MaxAxes {
        manipulatorState := manipulatorState.(axisCount := count.value, currentPositions := Zeros(count.value));
        tempAxisCount := "";
      }
      assert Snapshot() == SetAxisCount(p);
    }

    method HandleMoveValueChange(value: string)
      requires manipulatorState.axisCount > 0 && editingAxis.Some?
      modifies this
      ensures Snapshot() == Step(old(Snapshot()), EditMoveValue(value))
    {
      if MatchesMoveValue(value) {
        moveValue := value;
      }
    }

    method HandleMove()
      requires manipulatorState.axisCount > 0 && editingAxis.Some?
      modifies this
      ensures Snapshot() == Step(old(Snapshot()), MoveClick)
    {
      if editingAxis.None? || moveValue == "" {
        return;
      }
      var moveVal := ParseMoveValue(moveValue);
      if moveVal.None? {
        return;
      }
      var newPositions := manipulatorState.currentPositions;
      if editingAxis.value < |newPositions| {
        newPositions := newPositions[editingAxis.value := Round3(newPositions[editingAxis.value] + moveVal.value)];
      }
      manipulatorState := manipulatorState.(status := "CNC_REACHED", currentPositions := newPositions);
      editingAxis := None;
      moveValue := "";
    }

    method HandleStop()
      requires manipulatorState.axisCount > 0
      modifies this
      ensures Snapshot() == Step(old(Snapshot()), StopClick)
    {
      editingAxis := None;
      moveValue := "";
      manipulatorState := manipulatorState.(status := "CNC_IS_READY");
    }

    /** The reference button: start referencing and the two-second completion timer. */
    method HandleReference()
      modifies this
      ensures Snapshot() == Step(old(Snapshot()), ReferenceClick)
    {
      manipulatorState := manipulatorState.(isReferencing := true, status := "CNC_DRIVING_REF");
      pendingReferenceTimers := pendingReferenceTimers + 1;
    }

    method ReferenceDone()
      requires pendingReferenceTimers > 0
      modifies this
      ensures Snapshot() == Step(old(Snapshot()), ReferenceTimerFires)
    {
      manipulatorState := manipulatorState.(isReferencing := false, status := "CNC_STAND_STILL");
      pendingReferenceTimers := pendingReferenceTimers - 1;
    }
  }
}
