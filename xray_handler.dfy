/**
 * `XrayHandler`, the stand-alone IDispatch host object for the X-ray tube.
 * The tube library is an oracle: the handler either holds no tube (a null
 * `m_xray`) or a tube whose readings are given; its commands are recorded in
 * the order the handler issues them.
 */
module XrayHandler {
  import opened JsText
  import opened Com
  import opened XrayHeader

  /** The readings the handler takes from the tube library. */
  datatype Tube = Tube(state: XrState, beamOn: bool, cold: bool)

  /** The library calls the handler makes, with their arguments. */
  datatype Command =
    | SetkVuA(kv: int, ua: int)
    | SetSpotsize(mode: int)
    | StartWarmUp
    | TurnOn
    | TurnOff

  /** A control call's HRESULT and the library calls it made. */
  datatype Control = Control(hr: HResult, commands: seq<Command>)

  /** `Initialize`: DLL load, then `Open`; the handler holds a tube only when both succeed. */
  function Initialize(dllLoaded: bool, openOk: bool): (r: (HResult, bool))
    ensures r.1 <==> r.0 == S_OK
    ensures r.1 <==> dllLoaded && openOk
  {
    if !dllLoaded then (E_FAIL, false)
    else if !openOk then (E_FAIL, false)
    else (S_OK, true)
  }

  /** `SetVoltage(kV)`: `SetkVuA(kV, 0)`, where 0 asks the library to keep the current. */
  function SetVoltage(tube: Option<Tube>, kv: int): Control {
    if tube.None? then Control(E_FAIL, []) else Control(S_OK, [SetkVuA(kv, 0)])
  }

  /** `SetCurrent(uA)`: `SetkVuA(0, uA)`, where 0 asks the library to keep the voltage. */
  function SetCurrent(tube: Option<Tube>, ua: int): Control {
    if tube.None? then Control(E_FAIL, []) else Control(S_OK, [SetkVuA(0, ua)])
  }

  function SetFocus(tube: Option<Tube>, mode: int): Control {
    if tube.None? then Control(E_FAIL, []) else Control(S_OK, [SetSpotsize(mode)])
  }

  /** `TurnOn`: a cold tube is sent `StartWarmUp` first; the result of `TurnOn` is not looked at. */
  function TurnOnTube(tube: Option<Tube>): Control {
    if tube.None? then Control(E_FAIL, [])
    else if tube.value.cold then Control(S_OK, [StartWarmUp, TurnOn])
    else Control(S_OK, [TurnOn])
  }

  function TurnOffTube(tube: Option<Tube>): Control {
    if tube.None? then Control(E_FAIL, []) else Control(S_OK, [TurnOff])
  }

  /** The status names of this handler. */
  function StatusName(state: XrState): (s: string)
    ensures state == XR_NOT_INIT_YET ==> s == "XR_NOT_READY"
    ensures state == XR_IS_COLD ==> s == "XR_IS_COLD"
    ensures state == XR_IS_OFF ==> s == "XR_IS_OFF"
    ensures state == XR_IS_ON ==> s == "XR_IS_ON"
    ensures state !in {XR_NOT_INIT_YET, XR_IS_COLD, XR_IS_OFF, XR_IS_ON} <==> s == "UNKNOWN"
  {
    if state == XR_NOT_INIT_YET then "XR_NOT_READY"
    else if state == XR_IS_COLD then "XR_IS_COLD"
    else if state == XR_IS_OFF then "XR_IS_OFF"
    else if state == XR_IS_ON then "XR_IS_ON"
    else "UNKNOWN"
  }

  /** The fields `GetStatus` streams out, in the order it writes them. */
  function StatusFields(t: Tube): seq<(string, string)> {
    [("isPowered", BoolText(t.beamOn)), ("isWarmedUp", BoolText(!t.cold)), ("status", Quoted(StatusName(t.state)))]
  }

  /** The status text: `{"isPowered":…,"isWarmedUp":…,"status":"…"}`. */
  function StatusJson(t: Tube): string {
    ObjectText(StatusFields(t))
  }

  /** The status reads back as the fields isPowered, isWarmedUp and status, in that order. */
  lemma StatusJsonFields(t: Tube)
    ensures ParseObject(StatusJson(t)) == Some(StatusFields(t))
    ensures ParseObject(StatusJson(t)).value[2] == ("status", Quoted(StatusName(t.state)))
  {
    ObjectRoundTrip(StatusFields(t));
  }

  /** `GetStatus`: `E_FAIL` without a tube or a result pointer, otherwise the status text. */
  function GetStatus(tube: Option<Tube>, resultPresent: bool): (r: (HResult, Option<Value>))
    ensures r.0 == S_OK <==> tube.Some? && resultPresent
    ensures r.0 != S_OK ==> r == (E_FAIL, None)
    ensures r.0 == S_OK ==> r.1 == Some(VBstr(StatusJson(tube.value)))
  {
    if tube.None? || !resultPresent then (E_FAIL, None)
    else (S_OK, Some(VBstr(StatusJson(tube.value))))
  }

  /** Every control call fails with `E_FAIL`, issuing nothing, when the handler holds no tube. */
  lemma NullTubeGuards(kv: int, ua: int, mode: int, resultPresent: bool)
    ensures SetVoltage(None, kv) == Control(E_FAIL, [])
    ensures SetCurrent(None, ua) == Control(E_FAIL, [])
    ensures SetFocus(None, mode) == Control(E_FAIL, [])
    ensures TurnOnTube(None) == Control(E_FAIL, [])
    ensures TurnOffTube(None) == Control(E_FAIL, [])
    ensures GetStatus(None, resultPresent).0 == E_FAIL
  {
  }

  /**
   * `TurnOn` always ends with the library's `TurnOn`, and it is preceded by
   * `StartWarmUp` exactly when the tube is cold.
   */
  lemma WarmUpBeforeTurnOn(t: Tube)
    ensures TurnOnTube(Some(t)).hr == S_OK
    ensures var cs := TurnOnTube(Some(t)).commands;
      |cs| > 0 && cs[|cs| - 1] == TurnOn && (StartWarmUp in cs <==> t.cold)
    ensures t.cold ==> TurnOnTube(Some(t)).commands[0] == StartWarmUp
  {
  }

  /** The setters never ask for both values at once: the one they do not set is passed as 0, "keep". */
  lemma SettersKeepTheOtherValue(t: Tube, kv: int, ua: int)
    ensures SetVoltage(Some(t), kv).commands == [SetkVuA(kv, 0)]
    ensures SetCurrent(Some(t), ua).commands == [SetkVuA(0, ua)]
  {
  }

  /** `GetIDsOfNames` table. */
  const Methods: seq<Entry> := [
    Entry("setVoltage", 1), Entry("setCurrent", 2), Entry("setFocus", 3),
    Entry("turnOn", 4), Entry("turnOff", 5), Entry("getStatus", 6)]

  /**
   * `GetIDsOfNames`: `E_INVALIDARG` for a null name array or id pointer;
   * only a single name is looked up.
   */
  method GetIDsOfNames(names: Option<seq<string>>, idPresent: bool) returns (hr: HResult, id: Option<int>)
    ensures names.None? || !idPresent ==> hr == E_INVALIDARG && id.None?
    ensures hr == S_OK <==> id.Some?
    ensures hr == S_OK <==> names.Some? && idPresent && |names.value| == 1 && Lookup(Methods, names.value[0]).Some?
    ensures id.Some? ==> id == Lookup(Methods, names.value[0]) && 1 <= id.value <= 6
    ensures hr != S_OK && names.Some? && idPresent ==> hr == DISP_E_UNKNOWNNAME
  {
    if names.None? || !idPresent {
      return E_INVALIDARG, None;
    }
    if |names.value| == 1 {
      id := FindId(Methods, names.value[0]);
      if id.Some? {
        return S_OK, id;
      }
    }
    return DISP_E_UNKNOWNNAME, None;
  }

  /** Every name of the table resolves to its own id, and the lookup is case-sensitive. */
  lemma MethodIds()
    ensures forall k :: 0 <= k < |Methods| ==> Lookup(Methods, Methods[k].name) == Some(Methods[k].id)
    ensures Lookup(Methods, "turnoff") == None
  {
    forall k | 0 <= k < |Methods|
      ensures Lookup(Methods, Methods[k].name) == Some(Methods[k].id)
    {
      LookupDistinct(Methods, k);
    }
  }

  /** What `Invoke` returns, the library calls it made and what it stored in the result. */
  datatype Invoked = Invoked(hr: HResult, commands: seq<Command>, result: Option<Value>)

  function FromControl(c: Control): Invoked {
    Invoked(c.hr, c.commands, None)
  }

  /** `Invoke`. */
  function Invoke(dispId: int, params: Params, resultPresent: bool, tube: Option<Tube>): (r: Invoked)
    ensures params.None? ==> r == Invoked(E_INVALIDARG, [], None)
    ensures params.Some? && !(1 <= dispId <= 6) ==> r == Invoked(DISP_E_MEMBERNOTFOUND, [], None)
    ensures dispId in {1, 2, 3} && !HasArgs(params, 1) ==> r.hr == E_INVALIDARG && r.commands == []
    ensures dispId == 6 && !resultPresent ==> r.hr == E_INVALIDARG
    ensures r.hr == S_OK ==> tube.Some? && params.Some?
  {
    if params.None? then Invoked(E_INVALIDARG, [], None)
    else
      var args := params.value;
      if dispId == 1 then
        if |args| != 1 then Invoked(E_INVALIDARG, [], None) else FromControl(SetVoltage(tube, args[0].intVal))
      else if dispId == 2 then
        if |args| != 1 then Invoked(E_INVALIDARG, [], None) else FromControl(SetCurrent(tube, args[0].intVal))
      else if dispId == 3 then
        if |args| != 1 then Invoked(E_INVALIDARG, [], None) else FromControl(SetFocus(tube, args[0].intVal))
      else if dispId == 4 then FromControl(TurnOnTube(tube))
      else if dispId == 5 then FromControl(TurnOffTube(tube))
      else if dispId == 6 then
        if !resultPresent then Invoked(E_INVALIDARG, [], None)
        else
          var (hr, v) := GetStatus(tube, resultPresent);
          Invoked(hr, [], v)
      else Invoked(DISP_E_MEMBERNOTFOUND, [], None)
  }

  /** The name a script uses reaches the matching operation: `getStatus` with a result gives the status text. */
  lemma GetStatusByName(t: Tube)
    ensures Lookup(Methods, "getStatus") == Some(6)
    ensures Invoke(6, Some([]), true, Some(t)) == Invoked(S_OK, [], Some(VBstr(StatusJson(t))))
  {
    var k: nat := 5;
    LookupDistinct(Methods, k);
  }
}
