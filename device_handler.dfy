/**
 * `DeviceHandler`, the host object the UI scripts call for the tube, the
 * manipulator and the detector. The device libraries are oracles: each
 * device is absent (a null pointer) or given by its readings, and the answer
 * of the one library call an operation makes is a parameter. The text
 * conversions of the C runtime (`_wtoi`, `_wtof`, stream formatting of a
 * double) are parameters too.
 */
module DeviceHandler {
  import opened JsText
  import opened Bytes
  import opened Com
  import opened XrayHeader
  import opened CncHeader
  import XrayHandler
  import CncHandler

  /** The readings taken from the tube library. */
  datatype Xray = Xray(state: XrState, beamOn: bool, cold: bool, beaming: bool, kvSet: nat, uaSet: nat)

  /** The readings taken from the CNC library. */
  datatype Cnc = Cnc(
    state: CncState,
    moving: bool,
    reached: bool,
    drivingRef: bool,
    allJoyDisabled: bool,
    interlockClosed: bool,
    hwCollDetDisabled: bool,
    temperature: real,
    axisNames: seq<string>,
    setPositions: seq<real>,
    minPos: seq<real>,
    maxPos: seq<real>)

  /**
   * The handler's devices: `m_xray`, `m_cnc`, whether `m_dig` is set, the
   * `axisCount` read from `NrAxis()` when the CNC was opened, and the shared
   * image buffer.
   */
  datatype Devices = Devices(xray: Option<Xray>, cnc: Option<Cnc>, dig: bool, axisCount: nat, buffer: Option<seq<u8>>)

  /** The library guarantees one name, position and limit pair per axis, for at most `CNC_MAX_AXIS` axes. */
  predicate Valid(d: Devices) {
    d.axisCount <= CncMaxAxis
    && (d.cnc.Some? ==>
          var c := d.cnc.value;
          |c.axisNames| >= d.axisCount && |c.setPositions| >= d.axisCount
          && |c.minPos| >= d.axisCount && |c.maxPos| >= d.axisCount)
  }

  /** The C runtime's text conversions, which the model takes as given. */
  datatype Conversions = Conversions(
    wtoi: string -> int,
    wtof: string -> real,
    fixed3: real -> string,
    number: real -> string)

  /** The library calls the handler makes, with their arguments. */
  datatype Call =
    | SetkV(kv: int)
    | SetuA(ua: int)
    | SetSpotsize(mode: int)
    | StartToAxis(axis: int, position: real)
    | StartToAll(positions: seq<real>)
    | StopAxis(axis: int)
    | EnableJoy
    | DisableJoy
    | SetGain(gain: int)
    | SetFps(fps: int)
    | XrayOpen
    | StartWarmUp
    | TurnOn
    | TurnOff
    | CncOpen
    | StartReference
    | InitializeDetector
    | StartLive
    | StopLive

  /** What `Invoke` returns, the library calls it made and what it stored in `*pVarResult`. */
  datatype Outcome = Outcome(hr: HResult, calls: seq<Call>, result: Option<Value>)

  function Fail(hr: HResult): Outcome {
    Outcome(hr, [], None)
  }

  /** `call ? S_OK : E_FAIL` for a library call whose answer is `ok`. */
  function Checked(call: Call, ok: bool): Outcome {
    Outcome(if ok then S_OK else E_FAIL, [call], None)
  }

  // ----- state names -----

  /** `GetXrayStateString`. */
  function XrayStateName(state: XrState): (s: string)
    ensures s in {"XR_NOT_READY", "XR_IS_COLD", "XR_IS_OFF", "XR_IS_ON"}
    ensures s == "XR_IS_ON" <==> state == XR_IS_ON || state == XR_IS_RAMPINGUP
    ensures s == "XR_IS_COLD" <==> state == XR_IS_COLD
    ensures s == "XR_IS_OFF" <==> state == XR_IS_OFF
  {
    if state == XR_NOT_INIT_YET then "XR_NOT_READY"
    else if state == XR_NOT_READY then "XR_NOT_READY"
    else if state == XR_IS_COLD then "XR_IS_COLD"
    else if state == XR_IS_OFF then "XR_IS_OFF"
    else if state == XR_IS_ON then "XR_IS_ON"
    else if state == XR_IS_RAMPINGUP then "XR_IS_ON"
    else "XR_NOT_READY"
  }

  /**
   * The stand-alone `XrayHandler` names the same states differently: it
   * agrees on the four states both list, but reports `XR_NOT_READY` and
   * `XR_IS_RAMPINGUP` (and every other state) as `UNKNOWN`.
   */
  lemma XrayNamesDisagree(state: XrState)
    ensures state in {XR_NOT_INIT_YET, XR_IS_COLD, XR_IS_OFF, XR_IS_ON} ==> XrayStateName(state) == XrayHandler.StatusName(state)
    ensures state !in {XR_NOT_INIT_YET, XR_IS_COLD, XR_IS_OFF, XR_IS_ON} ==> XrayStateName(state) != XrayHandler.StatusName(state)
  {
  }

  /** `GetCncStateString`. */
  function CncStateName(state: CncState): (s: string)
    ensures s in {"CNC_NOT_READY", "CNC_DRIVING_REF", "CNC_MOVING", "CNC_STAND_STILL"}
    ensures s == "CNC_DRIVING_REF" <==> state == CNC_DRIVING_REF
    ensures s == "CNC_MOVING" <==> state == CNC_WAS_STARTED
    ensures s == "CNC_STAND_STILL" <==> state == CNC_STAND_STILL
  {
    if state == CNC_NOT_INIT_YET then "CNC_NOT_READY"
    else if state == CNC_DRIVING_REF then "CNC_DRIVING_REF"
    else if state == CNC_WAS_STARTED then "CNC_MOVING"
    else if state == CNC_STAND_STILL then "CNC_STAND_STILL"
    else if state == CNC_NOT_READY then "CNC_NOT_READY"
    else "CNC_NOT_READY"
  }

  /** Both hosts name the CNC states alike. */
  lemma CncNamesAgree(state: CncState)
    ensures CncStateName(state) == CncHandler.StateName(state)
  {
  }

  /**
   * The status `GetCncStatus` reports: a started controller is standing still
   * once it has stopped on target and moving otherwise; every other state
   * keeps its own name.
   */
  function DerivedCncStatus(state: CncState, moving: bool, reached: bool): (s: string)
    ensures s == "CNC_STAND_STILL" <==> state == CNC_STAND_STILL || (state == CNC_WAS_STARTED && !moving && reached)
    ensures s == "CNC_MOVING" <==> state == CNC_WAS_STARTED && (moving || !reached)
    ensures state != CNC_WAS_STARTED ==> s == CncStateName(state)
  {
    if state == CNC_WAS_STARTED && !moving && reached then "CNC_STAND_STILL"
    else if state == CNC_WAS_STARTED && moving then "CNC_MOVING"
    else CncStateName(state)
  }

  // ----- status objects -----

  /** The fields `GetXrayStatus` writes, in order. */
  function XrayFields(x: Xray): seq<(string, string)> {
    [("status", Quoted(XrayStateName(x.state))),
     ("isPowered", BoolText(x.beamOn)),
     ("isWarmedUp", BoolText(!x.cold)),
     ("isBeaming", BoolText(x.beaming)),
     ("voltage", NatText(x.kvSet)),
     ("current", NatText(x.uaSet))]
  }

  /** The tube status reads back field by field, with the set voltage and current as decimal numbers. */
  lemma XrayStatusReadsBack(x: Xray)
    ensures ParseObject(ObjectText(XrayFields(x))) == Some(XrayFields(x))
    ensures DigitsValue(XrayFields(x)[4].1) == x.kvSet && DigitsValue(XrayFields(x)[5].1) == x.uaSet
  {
    var fs := XrayFields(x);
    NoCommaInDigits(fs[4].1);
    NoCommaInDigits(fs[5].1);
    ObjectRoundTrip(fs);
  }

  lemma NoCommaInDigits(s: string)
    requires AllDigits(s)
    ensures ',' !in s
  {
    forall k | 0 <= k < |s|
      ensures s[k] != ','
    {
      assert IsDigit(s[k]);
    }
  }

  /** The fields `GetCncStatus` writes, in order; `temperature` is written with the stream's formatting. */
  function CncFields(c: Cnc, number: real -> string): seq<(string, string)> {
    [("status", Quoted(DerivedCncStatus(c.state, c.moving, c.reached))),
     ("isMoving", BoolText(c.moving)),
     ("isDrivingRef", BoolText(c.drivingRef)),
     ("isPositionReached", BoolText(c.reached)),
     ("isJoyEnabled", BoolText(!c.allJoyDisabled)),
     ("isDoorOpen", BoolText(!c.interlockClosed)),
     ("isCollisionDetected", BoolText(c.hwCollDetDisabled)),
     ("temperature", number(c.temperature))]
  }

  /**
   * The CNC status reads back field by field. `isCollisionDetected` is the
   * negation of "collision detection enabled", so it is true exactly when the
   * hardware collision detection is switched off.
   */
  lemma CncStatusReadsBack(c: Cnc, number: real -> string)
    requires ',' !in number(c.temperature)
    ensures ParseObject(ObjectText(CncFields(c, number))) == Some(CncFields(c, number))
    ensures CncFields(c, number)[6] == ("isCollisionDetected", BoolText(c.hwCollDetDisabled))
    ensures CncFields(c, number)[5] == ("isDoorOpen", BoolText(!c.interlockClosed))
  {
    var fs := CncFields(c, number);
    CncFieldsPlain(c, number);
    ObjectRoundTrip(fs);
  }

  lemma CncFieldsPlain(c: Cnc, number: real -> string)
    requires ',' !in number(c.temperature)
    ensures forall i :: 0 <= i < |CncFields(c, number)| ==> PlainField(CncFields(c, number)[i])
  {
    var fs := CncFields(c, number);
    CncFieldsPlainLow(c, number);
    CncFieldsPlainHigh(c, number);
    forall i | 0 <= i < |fs|
      ensures PlainField(fs[i])
    {
      if i < 4 {
        assert PlainField(fs[i]);
      }
    }
  }

  lemma CncFieldsPlainLow(c: Cnc, number: real -> string)
    ensures PlainField(CncFields(c, number)[0]) && PlainField(CncFields(c, number)[1])
    ensures PlainField(CncFields(c, number)[2]) && PlainField(CncFields(c, number)[3])
  {
    var status := DerivedCncStatus(c.state, c.moving, c.reached);
    assert status in {"CNC_NOT_READY", "CNC_DRIVING_REF", "CNC_MOVING", "CNC_STAND_STILL"};
  }

  lemma CncFieldsPlainHigh(c: Cnc, number: real -> string)
    requires ',' !in number(c.temperature)
    ensures PlainField(CncFields(c, number)[4]) && PlainField(CncFields(c, number)[5])
    ensures PlainField(CncFields(c, number)[6]) && PlainField(CncFields(c, number)[7])
  {
  }

  /** `GetXrayStatus`: `E_INVALIDARG` without a result pointer or a tube. */
  function GetXrayStatus(resultPresent: bool, xray: Option<Xray>): (r: Outcome)
    ensures r.hr == S_OK <==> resultPresent && xray.Some?
    ensures r.hr != S_OK ==> r == Fail(E_INVALIDARG)
    ensures r.hr == S_OK ==> r.result == Some(VBstr(ObjectText(XrayFields(xray.value))))
  {
    if !resultPresent || xray.None? then Fail(E_INVALIDARG)
    else Outcome(S_OK, [], Some(VBstr(ObjectText(XrayFields(xray.value)))))
  }

  /** `GetCncStatus`: `E_INVALIDARG` without a result pointer or a CNC. */
  function GetCncStatus(resultPresent: bool, cnc: Option<Cnc>, number: real -> string): (r: Outcome)
    ensures r.hr == S_OK <==> resultPresent && cnc.Some?
    ensures r.hr != S_OK ==> r == Fail(E_INVALIDARG)
    ensures r.hr == S_OK ==> r.result == Some(VBstr(ObjectText(CncFields(cnc.value, number))))
  {
    if !resultPresent || cnc.None? then Fail(E_INVALIDARG)
    else Outcome(S_OK, [], Some(VBstr(ObjectText(CncFields(cnc.value, number)))))
  }

  // ----- positions and axes -----

  /** The `axisCount` set positions, each written with fixed precision 3. */
  function PositionTexts(c: Cnc, axisCount: nat, fixed3: real -> string): (r: seq<string>)
    requires |c.setPositions| >= axisCount
    ensures |r| == axisCount
    ensures forall i :: 0 <= i < axisCount ==> r[i] == fixed3(c.setPositions[i])
  {
    seq(axisCount, i requires 0 <= i < axisCount => fixed3(c.setPositions[i]))
  }

  /** `GetPositions`: `E_INVALIDARG` without a result pointer, `E_FAIL` (the caught throw) without a CNC. */
  function GetPositions(resultPresent: bool, d: Devices, fixed3: real -> string): (r: Outcome)
    requires Valid(d)
    ensures !resultPresent ==> r == Fail(E_INVALIDARG)
    ensures resultPresent && d.cnc.None? ==> r == Fail(E_FAIL)
    ensures r.hr == S_OK <==> resultPresent && d.cnc.Some?
    ensures r.hr == S_OK ==> r.result == Some(VBstr("[" + Join(PositionTexts(d.cnc.value, d.axisCount, fixed3)) + "]"))
  {
    if !resultPresent then Fail(E_INVALIDARG)
    else if d.cnc.None? then Fail(E_FAIL)
    else Outcome(S_OK, [], Some(VBstr("[" + Join(PositionTexts(d.cnc.value, d.axisCount, fixed3)) + "]")))
  }

  /** The position list holds exactly one entry per axis, in axis order, when no entry writes a comma. */
  lemma PositionsOnePerAxis(d: Devices, fixed3: real -> string)
    requires Valid(d) && d.cnc.Some? && d.axisCount > 0
    requires forall x :: ',' !in fixed3(x)
    ensures var texts := PositionTexts(d.cnc.value, d.axisCount, fixed3);
      Split(Join(texts)) == texts && |Split(Join(texts))| == d.axisCount
  {
    var texts := PositionTexts(d.cnc.value, d.axisCount, fixed3);
    forall i | 0 <= i < |texts|
      ensures ',' !in texts[i]
    {
      var x := d.cnc.value.setPositions[i];
      assert ',' !in fixed3(x);
      assert texts[i] == fixed3(x);
    }
    SplitJoin(texts);
  }

  /** The fields of axis `i` in `getAxesInfo`: id, name, lower and upper limit. */
  function AxisFields(c: Cnc, i: nat, number: real -> string): seq<(string, string)>
    requires i < |c.axisNames| && i < |c.minPos| && i < |c.maxPos|
  {
    [("id", NatText(i)), ("name", Quoted(c.axisNames[i])), ("minPos", number(c.minPos[i])), ("maxPos", number(c.maxPos[i]))]
  }

  /** One object per axis, in axis order. */
  function AxisObjects(d: Devices, number: real -> string): (r: seq<string>)
    requires Valid(d) && d.cnc.Some?
    ensures |r| == d.axisCount
    ensures forall i :: 0 <= i < d.axisCount ==> r[i] == ObjectText(AxisFields(d.cnc.value, i, number))
  {
    seq(d.axisCount, i requires 0 <= i < d.axisCount => ObjectText(AxisFields(d.cnc.value, i, number)))
  }

  /**
   * `GetAxesInfo`: `E_INVALIDARG` without a result pointer. It reads the CNC
   * without checking for one, so the model requires it.
   */
  function GetAxesInfo(resultPresent: bool, d: Devices, number: real -> string): (r: Outcome)
    requires Valid(d)
    requires resultPresent ==> d.cnc.Some?
    ensures r.hr == S_OK <==> resultPresent
    ensures !resultPresent ==> r == Fail(E_INVALIDARG)
    ensures r.hr == S_OK ==> r.result == Some(VBstr("{\"axisCount\":" + NatText(d.axisCount) + ",\"axes\":[" + Join(AxisObjects(d, number)) + "]}"))
  {
    if !resultPresent then Fail(E_INVALIDARG)
    else Outcome(S_OK, [], Some(VBstr("{\"axisCount\":" + NatText(d.axisCount) + ",\"axes\":[" + Join(AxisObjects(d, number)) + "]}")))
  }

  /**
   * Each axis object reads back as its id, name and limits, and the id of
   * the `i`-th object is `i`.
   */
  lemma AxisObjectReadsBack(d: Devices, number: real -> string, i: nat)
    requires Valid(d) && d.cnc.Some? && i < d.axisCount
    requires ',' !in d.cnc.value.axisNames[i]
    requires ',' !in number(d.cnc.value.minPos[i]) && ',' !in number(d.cnc.value.maxPos[i])
    ensures ParseObject(AxisObjects(d, number)[i]) == Some(AxisFields(d.cnc.value, i, number))
    ensures DigitsValue(AxisFields(d.cnc.value, i, number)[0].1) == i
  {
    var fs := AxisFields(d.cnc.value, i, number);
    NoCommaInDigits(fs[0].1);
    ObjectRoundTrip(fs);
  }

  // ----- shared memory -----

  /** The size of the pages a file-mapping view is made of. */
  const PageSize: nat := 4096

  /** The bytes a view of an `n`-byte mapping spans: `n` rounded up to whole pages. */
  function ViewSize(n: nat): (v: nat)
    ensures n <= v < n + PageSize
    ensures v % PageSize == 0
  {
    ((n + PageSize - 1) / PageSize) * PageSize
  }

  /**
   * What can be read from the mapped address on: the mapping's bytes, then
   * the rest of its last page, which a page-file-backed section fills with
   * zeros.
   */
  function View(buffer: seq<u8>): (v: seq<u8>)
    ensures |v| == ViewSize(|buffer|) && buffer <= v
    ensures forall i :: |buffer| <= i < |v| ==> v[i] == 0
  {
    buffer + seq(ViewSize(|buffer|) - |buffer|, _ => 0 as u8)
  }

  /** The end of a read as written: an answer, or an access violation raised by `memcpy`. */
  datatype Read = Answered(outcome: Outcome) | AccessViolation

  /**
   * `ReadSharedMemory` as it is written: the copy of `size` bytes is not
   * compared with the mapping's size. A copy that stays inside the view's
   * pages succeeds and returns whatever lies there; one that runs past them
   * reads unmapped memory and faults. `allocOk` and `accessHr` are the
   * answers of `SafeArrayCreate` and `SafeArrayAccessData`.
   */
  function ReadSharedMemoryAsWritten(size: nat, resultPresent: bool, buffer: Option<seq<u8>>, allocOk: bool, accessHr: HResult): (r: Read)
    ensures !resultPresent || size == 0 ==> r == Answered(Fail(E_INVALIDARG))
    ensures r.AccessViolation? <==> resultPresent && 0 < size && buffer.Some? && allocOk && Succeeded(accessHr) && size > ViewSize(|buffer.value|)
    ensures r.Answered? && r.outcome.hr == S_OK <==> resultPresent && 0 < size && buffer.Some? && allocOk && Succeeded(accessHr) && size <= ViewSize(|buffer.value|)
    ensures r.Answered? && r.outcome.hr == S_OK ==> r.outcome.result == Some(VBytes(View(buffer.value)[..size]))
  {
    if !resultPresent || size == 0 then Answered(Fail(E_INVALIDARG))
    else if buffer.None? then Answered(Fail(E_FAIL))
    else if !allocOk then Answered(Fail(E_OUTOFMEMORY))
    else if !Succeeded(accessHr) then Answered(Fail(accessHr))
    else if size > |View(buffer.value)| then AccessViolation
    else Answered(Outcome(S_OK, [], Some(VBytes(View(buffer.value)[..size]))))
  }

  /**
   * Any size past the mapping but inside its last page succeeds and hands
   * the script the mapping followed by bytes the mapping does not hold.
   */
  lemma ReadPastTheMapping(buffer: seq<u8>, size: nat)
    requires |buffer| < size <= ViewSize(|buffer|)
    ensures var r := ReadSharedMemoryAsWritten(size, true, Some(buffer), true, S_OK);
      r.Answered? && r.outcome.hr == S_OK &&
      r.outcome.result == Some(VBytes(buffer + seq(size - |buffer|, _ => 0 as u8)))
  {
    var v := View(buffer);
    assert v[..size] == buffer + seq(size - |buffer|, _ => 0 as u8);
  }

  /** A 2x2 frame maps 8 bytes; a read of 4096 bytes succeeds and returns 4088 zeros past them. */
  lemma ReadPastTheFrame(frame: seq<u8>)
    requires |frame| == 2 * 2 * 2
    ensures var r := ReadSharedMemoryAsWritten(4096, true, Some(frame), true, S_OK);
      r.Answered? && r.outcome.hr == S_OK && r.outcome.result == Some(VBytes(frame + seq(4088, _ => 0 as u8)))
    ensures ReadSharedMemory(4096, true, Some(frame), true, S_OK) == Fail(E_INVALIDARG)
  {
    assert ViewSize(8) == 4096;
    ReadPastTheMapping(frame, 4096);
  }

  /**
   * `ReadSharedMemory` with the bound the mapping evidently needs: a size
   * past the end of the buffer is rejected with `E_INVALIDARG`.
   */
  function ReadSharedMemory(size: nat, resultPresent: bool, buffer: Option<seq<u8>>, allocOk: bool, accessHr: HResult): (r: Outcome)
    ensures !resultPresent || size == 0 ==> r == Fail(E_INVALIDARG)
    ensures resultPresent && size > 0 && buffer.None? ==> r == Fail(E_FAIL)
    ensures r.hr == S_OK <==> resultPresent && 0 < size && buffer.Some? && size <= |buffer.value| && allocOk && Succeeded(accessHr)
    ensures r.hr == S_OK ==> r.result == Some(VBytes(buffer.value[..size]))
    ensures r.hr != S_OK ==> r.result.None?
  {
    if !resultPresent || size == 0 then Fail(E_INVALIDARG)
    else if buffer.None? then Fail(E_FAIL)
    else if size > |buffer.value| then Fail(E_INVALIDARG)
    else if !allocOk then Fail(E_OUTOFMEMORY)
    else if !Succeeded(accessHr) then Fail(accessHr)
    else Outcome(S_OK, [], Some(VBytes(buffer.value[..size])))
  }

  /**
   * Within the mapping both versions agree, and the bounded one only ever
   * returns bytes of the mapping: reading the whole buffer gives it back.
   */
  lemma ReadSharedMemoryBounded(size: nat, buffer: seq<u8>, allocOk: bool, accessHr: HResult)
    requires size <= |buffer|
    ensures ReadSharedMemoryAsWritten(size, true, Some(buffer), allocOk, accessHr)
      == Answered(ReadSharedMemory(size, true, Some(buffer), allocOk, accessHr))
    ensures size == |buffer| > 0 && allocOk && accessHr == S_OK ==>
      ReadSharedMemory(size, true, Some(buffer), allocOk, accessHr).result == Some(VBytes(buffer))
  {
    assert View(buffer)[..size] == buffer[..size];
    assert buffer[..|buffer|] == buffer;
  }

  // ----- dispatch -----

  /**
   * The property puts (`DISPATCH_PROPERTYPUT`): each needs its device and
   * exactly one argument, except `positionReached` (none) and
   * `ReadSharedMemory` (two, and no device). This is the corrected dispatch:
   * `ReadSharedMemory` goes through the bounded read. The host's own
   * dispatch is `PropertyPutAsWritten`.
   */
  function PropertyPut(dispId: int, params: Params, resultPresent: bool, d: Devices, ok: bool, conv: Conversions, allocOk: bool, accessHr: HResult): (r: Outcome)
    ensures dispId !in {11, 12, 13, 111, 112, 114, 115, 116, 204, 205, 301} ==> r == Fail(DISP_E_MEMBERNOTFOUND)
    ensures dispId in {11, 12, 13} && (d.xray.None? || !HasArgs(params, 1)) ==> r == Fail(E_INVALIDARG)
    ensures dispId in {111, 112, 114, 115} && (d.cnc.None? || !HasArgs(params, 1)) ==> r == Fail(E_INVALIDARG)
    ensures dispId == 116 && (d.cnc.None? || !HasArgs(params, 0)) ==> r == Fail(E_INVALIDARG)
    ensures dispId in {204, 205} && (!d.dig || !HasArgs(params, 1)) ==> r == Fail(E_INVALIDARG)
    ensures dispId == 301 && !HasArgs(params, 2) ==> r == Fail(E_INVALIDARG)
    ensures |r.calls| <= 1
  {
    if dispId in {11, 12, 13} then
      if d.xray.None? || !HasArgs(params, 1) then Fail(E_INVALIDARG)
      else
        var v := params.value[0].intVal;
        Checked(if dispId == 11 then SetkV(v) else if dispId == 12 then SetuA(v) else SetSpotsize(v), ok)
    else if dispId in {111, 112, 114, 115} then
      if d.cnc.None? || !HasArgs(params, 1) then Fail(E_INVALIDARG)
      else
        var a := params.value[0];
        if dispId == 111 then TargetPosition(a.bstrVal, ok, conv)
        else if dispId == 112 then Checked(StartToAll(a.doubles), ok)
        else if dispId == 114 then Outcome(S_OK, [StopAxis(a.intVal)], None)
        else Outcome(S_OK, [if a.boolVal then EnableJoy else DisableJoy], if resultPresent then Some(VBool(true)) else None)
    else if dispId == 116 then
      if d.cnc.None? || !HasArgs(params, 0) then Fail(E_INVALIDARG)
      else Outcome(S_OK, [], if resultPresent then Some(VBool(d.cnc.value.reached)) else None)
    else if dispId in {204, 205} then
      if !d.dig || !HasArgs(params, 1) then Fail(E_INVALIDARG)
      else
        var v := params.value[0].intVal;
        Checked(if dispId == 204 then SetGain(v) else SetFps(v), ok)
    else if dispId == 301 then
      if !HasArgs(params, 2) then Fail(E_INVALIDARG)
      else ReadSharedMemory(params.value[0].uintVal, resultPresent, d.buffer, allocOk, accessHr)
    else Fail(DISP_E_MEMBERNOTFOUND)
  }

  /**
   * The property puts as the host runs them: `ReadSharedMemory` (301) with
   * its two arguments reads through the unbounded copy; every other put
   * answers as `PropertyPut` does.
   */
  function PropertyPutAsWritten(dispId: int, params: Params, resultPresent: bool, d: Devices, ok: bool, conv: Conversions, allocOk: bool, accessHr: HResult): (r: Read)
    ensures dispId != 301 || !HasArgs(params, 2) ==> r == Answered(PropertyPut(dispId, params, resultPresent, d, ok, conv, allocOk, accessHr))
    ensures dispId == 301 && HasArgs(params, 2) ==> r == ReadSharedMemoryAsWritten(params.value[0].uintVal, resultPresent, d.buffer, allocOk, accessHr)
  {
    if dispId == 301 && HasArgs(params, 2) then ReadSharedMemoryAsWritten(params.value[0].uintVal, resultPresent, d.buffer, allocOk, accessHr)
    else Answered(PropertyPut(dispId, params, resultPresent, d, ok, conv, allocOk, accessHr))
  }

  /** A shared-memory put whose size stays within the mapping answers alike in both versions. */
  lemma PutsAgreeWithinTheMapping(dispId: int, params: Params, resultPresent: bool, d: Devices, ok: bool, conv: Conversions, allocOk: bool, accessHr: HResult)
    requires dispId == 301 && HasArgs(params, 2) && d.buffer.Some? ==> params.value[0].uintVal <= |d.buffer.value|
    ensures PropertyPutAsWritten(dispId, params, resultPresent, d, ok, conv, allocOk, accessHr)
      == Answered(PropertyPut(dispId, params, resultPresent, d, ok, conv, allocOk, accessHr))
  {
    if dispId == 301 && HasArgs(params, 2) && d.buffer.Some? && resultPresent {
      ReadSharedMemoryBounded(params.value[0].uintVal, d.buffer.value, allocOk, accessHr);
    }
  }

  /**
   * The script's put of 301 with size 4096 on a 2x2 frame: the host answers
   * `S_OK` with the frame and 4088 bytes of its page, where the bounded put
   * answers `E_INVALIDARG`.
   */
  lemma PutPastTheFrame(size: Arg, name: Arg, frame: seq<u8>, d: Devices, ok: bool, conv: Conversions)
    requires size.uintVal == 4096 && d.buffer == Some(frame) && |frame| == 2 * 2 * 2
    ensures var r := PropertyPutAsWritten(301, Some([size, name]), true, d, ok, conv, true, S_OK);
      r.Answered? && r.outcome.hr == S_OK && r.outcome.result == Some(VBytes(frame + seq(4088, _ => 0 as u8)))
    ensures PropertyPut(301, Some([size, name]), true, d, ok, conv, true, S_OK) == Fail(E_INVALIDARG)
  {
    ReadPastTheFrame(frame);
  }

  /**
   * `targetPosition`: the text is cut at its first comma into an axis
   * (`_wtoi`) and a position (`_wtof`); a text without a comma is rejected.
   */
  function TargetPosition(text: string, ok: bool, conv: Conversions): (r: Outcome)
    ensures ',' !in text <==> r == Fail(E_INVALIDARG)
    ensures ',' in text ==> |r.calls| == 1 && r.calls[0].StartToAxis?
  {
    match SplitAtComma(text)
    case None => Fail(E_INVALIDARG)
    case Some((axis, position)) => Checked(StartToAxis(conv.wtoi(axis), conv.wtof(position)), ok)
  }

  /**
   * `axis,position` reaches the library as that axis and that position, for
   * any axis text without a comma; the position text may hold further commas.
   */
  lemma TargetPositionSplits(axis: string, position: string, ok: bool, conv: Conversions)
    requires ',' !in axis
    ensures TargetPosition(axis + [','] + position, ok, conv).calls == [StartToAxis(conv.wtoi(axis), conv.wtof(position))]
    ensures TargetPosition(axis + [','] + position, ok, conv).hr == (if ok then S_OK else E_FAIL)
  {
    SplitAtCommaInverse(axis, position);
  }

  /** The ids whose work the handler hands to `std::async`. */
  predicate IsAsync(dispId: int, params: Params) {
    dispId in {1, 2, 5, 6, 101} || (dispId == 102 && params.Some? && |params.value| > 0)
  }

  /**
   * The asynchronous calls dereference their device without a check, so the
   * model requires it; so does `getAxesInfo` when it has a result to fill.
   */
  predicate MethodDefined(dispId: int, params: Params, resultPresent: bool, d: Devices) {
    (dispId in {1, 2, 5, 6} ==> d.xray.Some?)
    && (IsAsync(dispId, params) && dispId !in {1, 2, 5, 6} ==> d.cnc.Some?)
    && (dispId == 108 && resultPresent ==> d.cnc.Some?)
  }

  /** The library call an asynchronous id makes. */
  function AsyncCall(dispId: int): Call {
    if dispId == 1 then XrayOpen
    else if dispId == 2 then StartWarmUp
    else if dispId == 5 then TurnOn
    else if dispId == 6 then TurnOff
    else if dispId == 101 then CncOpen
    else StartReference
  }

  /**
   * A method call. The host waits for every asynchronous call, since the
   * `std::future` blocks when it is destroyed; the result pointer decides
   * only the answer: with one they return the library's answer and store it
   * as a bool, without one they return `S_OK`. The detector calls always
   * return `S_OK` and report success through the result.
   */
  function MethodCall(dispId: int, params: Params, resultPresent: bool, d: Devices, ok: bool, conv: Conversions): (r: Outcome)
    requires Valid(d) && MethodDefined(dispId, params, resultPresent, d)
    ensures dispId !in {1, 2, 5, 6, 8, 101, 102, 107, 108, 109, 201, 202, 203} ==> r == Fail(DISP_E_MEMBERNOTFOUND)
    ensures IsAsync(dispId, params) && !resultPresent ==> r == Outcome(S_OK, [AsyncCall(dispId)], None)
    ensures IsAsync(dispId, params) && resultPresent ==> r == Outcome(if ok then S_OK else E_FAIL, [AsyncCall(dispId)], Some(VBool(ok)))
    ensures dispId == 102 && !IsAsync(dispId, params) ==> r == Outcome(S_OK, [], None)
    ensures dispId in {201, 202, 203} ==> r.hr == S_OK && (r.result.Some? <==> resultPresent)
  {
    if IsAsync(dispId, params) then
      var call := AsyncCall(dispId);
      if resultPresent then Outcome(if ok then S_OK else E_FAIL, [call], Some(VBool(ok)))
      else Outcome(S_OK, [call], None)
    else if dispId == 102 then Outcome(S_OK, [], None)
    else if dispId == 8 then GetXrayStatus(resultPresent, d.xray)
    else if dispId == 107 then GetCncStatus(resultPresent, d.cnc, conv.number)
    else if dispId == 108 then GetAxesInfo(resultPresent, d, conv.number)
    else if dispId == 109 then GetPositions(resultPresent, d, conv.fixed3)
    else if dispId in {201, 202, 203} then
      var call := if dispId == 201 then InitializeDetector else if dispId == 202 then StartLive else StopLive;
      Outcome(S_OK, [call], if resultPresent then Some(VBool(ok)) else None)
    else Fail(DISP_E_MEMBERNOTFOUND)
  }

  /** `Invoke`: property puts and method calls are two separate tables. */
  function Invoke(dispId: int, put: bool, params: Params, resultPresent: bool, d: Devices, ok: bool, conv: Conversions, allocOk: bool, accessHr: HResult): (r: Outcome)
    requires Valid(d)
    requires !put ==> MethodDefined(dispId, params, resultPresent, d)
    ensures put ==> r == PropertyPut(dispId, params, resultPresent, d, ok, conv, allocOk, accessHr)
    ensures !put ==> r == MethodCall(dispId, params, resultPresent, d, ok, conv)
  {
    if put then PropertyPut(dispId, params, resultPresent, d, ok, conv, allocOk, accessHr)
    else MethodCall(dispId, params, resultPresent, d, ok, conv)
  }

  /** `Invoke` as the host runs it: puts go through `PropertyPutAsWritten`. */
  function InvokeAsWritten(dispId: int, put: bool, params: Params, resultPresent: bool, d: Devices, ok: bool, conv: Conversions, allocOk: bool, accessHr: HResult): (r: Read)
    requires Valid(d)
    requires !put ==> MethodDefined(dispId, params, resultPresent, d)
    ensures put ==> r == PropertyPutAsWritten(dispId, params, resultPresent, d, ok, conv, allocOk, accessHr)
    ensures !put ==> r == Answered(MethodCall(dispId, params, resultPresent, d, ok, conv))
    ensures !put || dispId != 301 ==> r == Answered(Invoke(dispId, put, params, resultPresent, d, ok, conv, allocOk, accessHr))
  {
    if put then PropertyPutAsWritten(dispId, params, resultPresent, d, ok, conv, allocOk, accessHr)
    else Answered(MethodCall(dispId, params, resultPresent, d, ok, conv))
  }

  /**
   * A property id called as a method, or a method id used as a property put,
   * is not found: `voltage` cannot be called and `initializeXray` cannot be
   * assigned.
   */
  lemma PutAndCallAreSeparate(params: Params, resultPresent: bool, d: Devices, ok: bool, conv: Conversions, allocOk: bool, accessHr: HResult)
    requires Valid(d)
    ensures Invoke(11, false, params, resultPresent, d, ok, conv, allocOk, accessHr) == Fail(DISP_E_MEMBERNOTFOUND)
    ensures Invoke(1, true, params, resultPresent, d, ok, conv, allocOk, accessHr) == Fail(DISP_E_MEMBERNOTFOUND)
  {
  }

  /** `startReference` captures its axis argument but references every axis: the call is the same for any axis. */
  lemma StartReferenceIgnoresAxis(a: Arg, b: Arg, d: Devices, ok: bool, conv: Conversions)
    requires Valid(d) && d.cnc.Some?
    ensures MethodCall(102, Some([a]), true, d, ok, conv) == MethodCall(102, Some([b]), true, d, ok, conv)
    ensures MethodCall(102, Some([a]), true, d, ok, conv).calls == [StartReference]
  {
  }

  /**
   * `ReadSharedMemory` takes the size from `rgvarg[0]` and ignores the name
   * in `rgvarg[1]`, both as the host runs it and in the bounded version.
   */
  lemma SharedMemoryNameIgnored(size: Arg, name1: Arg, name2: Arg, resultPresent: bool, d: Devices, ok: bool, conv: Conversions, allocOk: bool, accessHr: HResult)
    ensures PropertyPutAsWritten(301, Some([size, name1]), resultPresent, d, ok, conv, allocOk, accessHr)
      == PropertyPutAsWritten(301, Some([size, name2]), resultPresent, d, ok, conv, allocOk, accessHr)
    ensures PropertyPutAsWritten(301, Some([size, name1]), resultPresent, d, ok, conv, allocOk, accessHr)
      == ReadSharedMemoryAsWritten(size.uintVal, resultPresent, d.buffer, allocOk, accessHr)
    ensures PropertyPut(301, Some([size, name1]), resultPresent, d, ok, conv, allocOk, accessHr)
      == PropertyPut(301, Some([size, name2]), resultPresent, d, ok, conv, allocOk, accessHr)
    ensures PropertyPut(301, Some([size, name1]), resultPresent, d, ok, conv, allocOk, accessHr)
      == ReadSharedMemory(size.uintVal, resultPresent, d.buffer, allocOk, accessHr)
  {
  }

  // ----- names -----

  /** `GetIDsOfNames` table. */
  const Names: seq<Entry> := [
    Entry("voltage", 11), Entry("current", 12), Entry("focus", 13), Entry("axisCurrent", 14),
    Entry("targetPosition", 111), Entry("targetPositions", 112), Entry("stopAxis", 114),
    Entry("joyEnabled", 115), Entry("positionReached", 116),
    Entry("initializeXray", 1), Entry("startWarmup", 2), Entry("turnXrayOn", 5), Entry("turnXrayOff", 6),
    Entry("getXrayStatus", 8), Entry("initializeCnc", 101), Entry("startReference", 102),
    Entry("getCncStatus", 107), Entry("getAxesInfo", 108), Entry("getPositions", 109),
    Entry("initializeDetector", 201), Entry("startLive", 202), Entry("stopLive", 203),
    Entry("gain", 204), Entry("fps", 205),
    Entry("ReadSharedMemory", 301)]

  /**
   * `GetIDsOfNames`: `E_INVALIDARG` for a null name array or id pointer.
   * Only the first name is looked up, whatever `cNames` says.
   */
  method GetIDsOfNames(names: Option<seq<string>>, idPresent: bool) returns (hr: HResult, id: Option<int>)
    requires names.Some? ==> |names.value| >= 1
    ensures names.None? || !idPresent ==> hr == E_INVALIDARG && id.None?
    ensures hr == S_OK <==> id.Some?
    ensures names.Some? && idPresent ==> id == Lookup(Names, names.value[0])
    ensures hr != S_OK && names.Some? && idPresent ==> hr == DISP_E_UNKNOWNNAME
  {
    if names.None? || !idPresent {
      return E_INVALIDARG, None;
    }
    id := FindId(Names, names.value[0]);
    if id.Some? {
      return S_OK, id;
    }
    return DISP_E_UNKNOWNNAME, None;
  }

  /** Every name of the table resolves to its own id. */
  lemma EveryNameResolves(k: nat)
    requires k < |Names|
    ensures Lookup(Names, Names[k].name) == Some(Names[k].id)
  {
    LookupDistinct(Names, k);
  }

  /** `axisCurrent` is in the table, with id 14. */
  lemma AxisCurrentResolves()
    ensures Lookup(Names, "axisCurrent") == Some(14)
  {
    // A variable index keeps the solver from evaluating the lookup on the literal table.
    var k: nat := 3;
    assert Names[k] == Entry("axisCurrent", 14);
    EveryNameResolves(k);
  }

  /**
   * Yet neither table of `Invoke` handles 14: a script that uses the name
   * `axisCurrent` gets `DISP_E_MEMBERNOTFOUND` either way.
   */
  lemma AxisCurrentIsNotHandled(put: bool, params: Params, resultPresent: bool, d: Devices, ok: bool, conv: Conversions, allocOk: bool, accessHr: HResult)
    requires Valid(d)
    ensures Invoke(14, put, params, resultPresent, d, ok, conv, allocOk, accessHr) == Fail(DISP_E_MEMBERNOTFOUND)
  {
    if put {
      assert 14 !in {11, 12, 13, 111, 112, 114, 115, 116, 204, 205, 301};
    } else {
      assert !IsAsync(14, params);
      assert 14 !in {1, 2, 5, 6, 8, 101, 102, 107, 108, 109, 201, 202, 203};
    }
  }

  // ----- status monitor -----

  /** `m_isMonitoring`, `m_webView` and the number of monitor threads running. */
  datatype MonitorState = MonitorState(isMonitoring: bool, webView: Option<nat>, threads: nat)

  /** One monitor thread exactly while monitoring. */
  predicate MonitorInvariant(s: MonitorState) {
    s.threads == (if s.isMonitoring then 1 else 0)
  }

  /** `StartMonitoring(webView)`: nothing happens while a thread already runs. */
  function Start(s: MonitorState, webView: nat): (t: MonitorState)
    ensures t.isMonitoring
    ensures s.isMonitoring ==> t == s
  {
    if s.isMonitoring then s else MonitorState(true, Some(webView), s.threads + 1)
  }

  /** `StopMonitoring()`: clear the flag, join the thread, drop the view. */
  function Stop(s: MonitorState): (t: MonitorState)
    ensures !t.isMonitoring && t.webView.None?
  {
    MonitorState(false, None, 0)
  }

  /** Both operations keep exactly one thread per monitoring session, and a second start keeps the first view. */
  lemma MonitorKeepsOneThread(s: MonitorState, v: nat, w: nat)
    requires MonitorInvariant(s)
    ensures MonitorInvariant(Start(s, v)) && MonitorInvariant(Stop(s))
    ensures Start(Start(s, v), w) == Start(s, v)
    ensures !s.isMonitoring ==> Start(s, v).webView == Some(v)
  {
  }

  /** The monitor fields of the handler. */
  class Monitor {
    var isMonitoring: bool
    var webView: Option<nat>
    var threads: nat

    function State(): MonitorState
      reads this
    {
      MonitorState(isMonitoring, webView, threads)
    }

    constructor ()
      ensures State() == MonitorState(false, None, 0)
    {
      isMonitoring := false;
      webView := None;
      threads := 0;
    }

    method StartMonitoring(view: nat)
      modifies this
      ensures State() == Start(old(State()), view)
    {
      if isMonitoring {
        return;
      }
      webView := Some(view);
      isMonitoring := true;
      threads := threads + 1;
    }

    method StopMonitoring()
      modifies this
      ensures State() == Stop(old(State()))
    {
      isMonitoring := false;
      threads := 0;
      webView := None;
    }
  }
}
