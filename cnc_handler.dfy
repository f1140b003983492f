/**
 * `CncHandler`, the stand-alone IDispatch host object for the manipulator.
 * The CNC library is an oracle: the handler holds no controller (a null
 * `m_cnc`) or one whose readings are given, and the answer of the library
 * call an operation makes is a parameter.
 */
module CncHandler {
  import opened JsText
  import opened Com
  import opened CncHeader

  /** The readings the handler takes from the CNC library. */
  datatype Cnc = Cnc(
    state: CncState,
    isOpen: bool,
    refDone: bool,
    moving: bool,
    allJoyDisabled: bool,
    interlockClosed: bool,
    hwCollDetected: bool,
    nrAxis: nat,
    axisNames: seq<string>,
    lastPositions: seq<real>)

  /** What the library guarantees: at most `CNC_MAX_AXIS` axes, each with a name and a position. */
  predicate Valid(c: Cnc) {
    c.nrAxis <= CncMaxAxis && |c.axisNames| >= c.nrAxis && |c.lastPositions| >= c.nrAxis
  }

  /** The library calls the handler makes, with their arguments. */
  datatype Command =
    | Open
    | StartReference(axis: int)
    | StartTo(axis: int, position: real)
    | StartToAll(positions: seq<real>)
    | Stop(axis: int)
    | EnableJoy(axis: int)
    | DisableJoy(axis: int)

  /** `GetStateString`. */
  function StateName(state: CncState): (s: string)
    ensures state == CNC_DRIVING_REF ==> s == "CNC_DRIVING_REF"
    ensures state == CNC_WAS_STARTED ==> s == "CNC_MOVING"
    ensures state == CNC_STAND_STILL ==> s == "CNC_STAND_STILL"
    ensures state !in {CNC_DRIVING_REF, CNC_WAS_STARTED, CNC_STAND_STILL} <==> s == "CNC_NOT_READY"
  {
    if state == CNC_NOT_INIT_YET then "CNC_NOT_READY"
    else if state == CNC_DRIVING_REF then "CNC_DRIVING_REF"
    else if state == CNC_WAS_STARTED then "CNC_MOVING"
    else if state == CNC_STAND_STILL then "CNC_STAND_STILL"
    else if state == CNC_NOT_READY then "CNC_NOT_READY"
    else "CNC_NOT_READY"
  }

  /** The names `StateName` can give, and so the only values of the status field. */
  lemma StateNamesAreFour(state: CncState)
    ensures StateName(state) in {"CNC_NOT_READY", "CNC_DRIVING_REF", "CNC_MOVING", "CNC_STAND_STILL"}
  {
  }

  // ----- moveAllAxes -----

  /**
   * The six targets `moveAllAxes` hands to `StartTo`: the first `NrAxis()`
   * values of the argument array, and 0 for every other slot.
   */
  function AllAxesTargets(values: seq<real>, nrAxis: nat): (r: seq<real>)
    requires nrAxis <= CncMaxAxis && |values| >= nrAxis
    ensures |r| == CncMaxAxis
    ensures r[..nrAxis] == values[..nrAxis]
    ensures forall i :: nrAxis <= i < CncMaxAxis ==> r[i] == 0.0
  {
    seq(CncMaxAxis, i requires 0 <= i < CncMaxAxis => if i < nrAxis then values[i] else 0.0)
  }

  /** The `double positions[CNC_MAX_AXIS] = { 0 }` array and the loop that fills it. */
  method FillTargets(values: seq<real>, nrAxis: nat) returns (positions: array<real>)
    requires nrAxis <= CncMaxAxis && |values| >= nrAxis
    ensures fresh(positions)
    ensures positions[..] == AllAxesTargets(values, nrAxis)
  {
    positions := new real[CncMaxAxis](_ => 0.0);
    var i := 0;
    while i < nrAxis
      invariant 0 <= i <= nrAxis
      invariant forall k :: 0 <= k < i ==> positions[k] == values[k]
      invariant forall k :: i <= k < CncMaxAxis ==> positions[k] == 0.0
    {
      positions[i] := values[i];
      i := i + 1;
    }
  }

  // ----- JSON -----

  /** The fields `getStatus` writes, in order. */
  function StatusFields(c: Cnc): seq<(string, string)> {
    [("status", Quoted(StateName(c.state))),
     ("isOpen", BoolText(c.isOpen)),
     ("isRefDone", BoolText(c.refDone)),
     ("isMoving", BoolText(c.moving)),
     ("isJoyEnabled", BoolText(!c.allJoyDisabled)),
     ("isDoorOpen", BoolText(!c.interlockClosed)),
     ("isCollisionDetected", BoolText(c.hwCollDetected))]
  }

  /** The status reads back field by field; the door is reported open exactly when the interlock is not closed. */
  lemma StatusReadsBack(c: Cnc)
    ensures ParseObject(ObjectText(StatusFields(c))) == Some(StatusFields(c))
    ensures StatusFields(c)[5] == ("isDoorOpen", "true") <==> !c.interlockClosed
    ensures StatusFields(c)[4] == ("isJoyEnabled", "true") <==> !c.allJoyDisabled
  {
    ObjectRoundTrip(StatusFields(c));
  }

  /** `{"name":"…"}` for one axis. */
  function AxisObject(name: string): string {
    "{\"name\":\"" + name + "\"}"
  }

  /** The axis objects of `getAxesInfo`, one per axis, in axis order. */
  function AxisObjects(c: Cnc): (r: seq<string>)
    requires Valid(c)
    ensures |r| == c.nrAxis
    ensures forall i :: 0 <= i < c.nrAxis ==> r[i] == AxisObject(c.axisNames[i])
  {
    seq(c.nrAxis, i requires 0 <= i < c.nrAxis => AxisObject(c.axisNames[i]))
  }

  /** `{"axisCount":n,"axes":[…]}` */
  function AxesInfoJson(c: Cnc): string
    requires Valid(c)
  {
    "{\"axisCount\":" + NatText(c.nrAxis) + ",\"axes\":[" + Join(AxisObjects(c)) + "]}"
  }

  /**
   * As long as no axis name holds a comma, the `axes` list splits back into
   * exactly one object per axis, in order.
   */
  lemma AxesInfoListsEveryAxis(c: Cnc)
    requires Valid(c) && c.nrAxis > 0
    requires forall i :: 0 <= i < c.nrAxis ==> ',' !in c.axisNames[i]
    ensures |Split(Join(AxisObjects(c)))| == c.nrAxis
    ensures Split(Join(AxisObjects(c))) == AxisObjects(c)
  {
    var objs := AxisObjects(c);
    forall i | 0 <= i < |objs|
      ensures ',' !in objs[i]
    {
      assert objs[i] == "{\"name\":\"" + c.axisNames[i] + "\"}";
    }
    SplitJoin(objs);
  }

  /** The position texts of `getPositions`, written with the stream's default formatting `format`. */
  function PositionTexts(c: Cnc, format: real -> string): (r: seq<string>)
    requires Valid(c)
    ensures |r| == c.nrAxis
    ensures forall i :: 0 <= i < c.nrAxis ==> r[i] == format(c.lastPositions[i])
  {
    seq(c.nrAxis, i requires 0 <= i < c.nrAxis => format(c.lastPositions[i]))
  }

  /** A position list reads back as one text per axis. */
  lemma PositionsReadBack(c: Cnc, format: real -> string)
    requires Valid(c) && c.nrAxis > 0
    requires forall x :: ',' !in format(x)
    ensures Split(Join(PositionTexts(c, format))) == PositionTexts(c, format)
  {
    var texts := PositionTexts(c, format);
    forall i | 0 <= i < |texts|
      ensures ',' !in texts[i]
    {
      var x := c.lastPositions[i];
      assert ',' !in format(x);
      assert texts[i] == format(x);
    }
    SplitJoin(texts);
  }

  // ----- dispatch -----

  /** What `Invoke` returns, the library calls it made and what it stored in the result. */
  datatype Invoked = Invoked(hr: HResult, commands: seq<Command>, result: Option<Value>)

  /** `cmd ? S_OK : E_FAIL` for a library call whose answer is `ok`. */
  function Call(cmd: Command, ok: bool): Invoked {
    Invoked(if ok then S_OK else E_FAIL, [cmd], None)
  }

  /** The array argument of `moveAllAxes` holds a value for every axis. */
  predicate ArrayArgCovers(dispId: int, params: Params, cnc: Option<Cnc>) {
    dispId == 4 && HasArgs(params, 1) && cnc.Some? ==> |params.value[0].doubles| >= cnc.value.nrAxis
  }

  /**
   * `Invoke`. `ok` is the answer of the library call the operation makes and
   * `format` the stream's formatting of a double.
   */
  function Invoke(dispId: int, params: Params, resultPresent: bool, cnc: Option<Cnc>, ok: bool, format: real -> string): (r: Invoked)
    requires cnc.Some? ==> Valid(cnc.value)
    requires ArrayArgCovers(dispId, params, cnc)
    ensures cnc.None? ==> r == Invoked(E_FAIL, [], None)
    ensures cnc.Some? && !(1 <= dispId <= 9) ==> r == Invoked(DISP_E_MEMBERNOTFOUND, [], None)
    ensures cnc.Some? && dispId in {2, 4, 5} && !HasArgs(params, 1) ==> r == Invoked(E_INVALIDARG, [], None)
    ensures cnc.Some? && dispId in {3, 6} && !HasArgs(params, 2) ==> r == Invoked(E_INVALIDARG, [], None)
    ensures cnc.Some? && dispId in {7, 8, 9} && !resultPresent ==> r == Invoked(E_INVALIDARG, [], None)
    ensures r.result.Some? ==> r.hr == S_OK && resultPresent
    ensures |r.commands| <= 1
  {
    if cnc.None? then Invoked(E_FAIL, [], None)
    else
      var c := cnc.value;
      if dispId == 1 then Call(Open, ok)
      else if dispId == 2 then
        if !HasArgs(params, 1) then Invoked(E_INVALIDARG, [], None)
        else Call(StartReference(params.value[0].intVal), ok)
      else if dispId == 3 then
        if !HasArgs(params, 2) then Invoked(E_INVALIDARG, [], None)
        else Call(StartTo(params.value[1].intVal, params.value[0].dblVal), ok)
      else if dispId == 4 then
        if !HasArgs(params, 1) then Invoked(E_INVALIDARG, [], None)
        else Call(StartToAll(AllAxesTargets(params.value[0].doubles, c.nrAxis)), ok)
      else if dispId == 5 then
        if !HasArgs(params, 1) then Invoked(E_INVALIDARG, [], None)
        else Invoked(S_OK, [Stop(params.value[0].intVal)], None)
      else if dispId == 6 then
        if !HasArgs(params, 2) then Invoked(E_INVALIDARG, [], None)
        else if params.value[0].boolVal then Invoked(S_OK, [EnableJoy(params.value[1].intVal)], None)
        else Invoked(S_OK, [DisableJoy(params.value[1].intVal)], None)
      else if dispId == 7 then
        if !resultPresent then Invoked(E_INVALIDARG, [], None)
        else Invoked(S_OK, [], Some(VBstr(ObjectText(StatusFields(c)))))
      else if dispId == 8 then
        if !resultPresent then Invoked(E_INVALIDARG, [], None)
        else Invoked(S_OK, [], Some(VBstr(AxesInfoJson(c))))
      else if dispId == 9 then
        if !resultPresent then Invoked(E_INVALIDARG, [], None)
        else Invoked(S_OK, [], Some(VBstr("[" + Join(PositionTexts(c, format)) + "]")))
      else Invoked(DISP_E_MEMBERNOTFOUND, [], None)
  }

  /**
   * `moveAxis` and `enableJoy` take the axis from the LAST argument slot
   * (`rgvarg[1]`, the first argument a script passes) and the position or the
   * on/off flag from `rgvarg[0]`.
   */
  lemma ArgumentOrder(a0: Arg, a1: Arg, c: Cnc, ok: bool, format: real -> string)
    requires Valid(c)
    ensures Invoke(3, Some([a0, a1]), false, Some(c), ok, format).commands == [StartTo(a1.intVal, a0.dblVal)]
    ensures a0.boolVal ==> Invoke(6, Some([a0, a1]), false, Some(c), ok, format) == Invoked(S_OK, [EnableJoy(a1.intVal)], None)
    ensures !a0.boolVal ==> Invoke(6, Some([a0, a1]), false, Some(c), ok, format) == Invoked(S_OK, [DisableJoy(a1.intVal)], None)
  {
  }

  /** `moveAllAxes` sends the script's values for the existing axes and 0 for the rest. */
  lemma MoveAllAxesTargets(a: Arg, c: Cnc, ok: bool, format: real -> string)
    requires Valid(c) && |a.doubles| >= c.nrAxis
    ensures var r := Invoke(4, Some([a]), false, Some(c), ok, format);
      r.hr == (if ok then S_OK else E_FAIL) && |r.commands| == 1 && r.commands[0].StartToAll?
      && r.commands[0].positions[..c.nrAxis] == a.doubles[..c.nrAxis]
      && forall i :: c.nrAxis <= i < CncMaxAxis ==> r.commands[0].positions[i] == 0.0
  {
  }

  /** `GetIDsOfNames` table. */
  const Methods: seq<Entry> := [
    Entry("initialize", 1), Entry("startReference", 2), Entry("moveAxis", 3),
    Entry("moveAllAxes", 4), Entry("stop", 5), Entry("enableJoy", 6),
    Entry("getStatus", 7), Entry("getAxesInfo", 8), Entry("getPositions", 9)]

  /**
   * `GetIDsOfNames`: `E_INVALIDARG` for a null name array or id pointer.
   * Only the first name is looked up, whatever `cNames` says.
   */
  method GetIDsOfNames(names: Option<seq<string>>, idPresent: bool) returns (hr: HResult, id: Option<int>)
    requires names.Some? ==> |names.value| >= 1
    ensures names.None? || !idPresent ==> hr == E_INVALIDARG && id.None?
    ensures hr == S_OK <==> id.Some?
    ensures names.Some? && idPresent ==> id == Lookup(Methods, names.value[0])
    ensures id.Some? ==> 1 <= id.value <= 9
    ensures hr != S_OK && names.Some? && idPresent ==> hr == DISP_E_UNKNOWNNAME
  {
    if names.None? || !idPresent {
      return E_INVALIDARG, None;
    }
    id := FindId(Methods, names.value[0]);
    if id.Some? {
      return S_OK, id;
    }
    return DISP_E_UNKNOWNNAME, None;
  }

  /** Every name in the table resolves to its own id, so every id 1..9 is reachable by name. */
  lemma EveryIdHasAName(k: nat)
    requires k < |Methods|
    ensures Lookup(Methods, Methods[k].name) == Some(k + 1)
  {
    LookupDistinct(Methods, k);
  }
}
