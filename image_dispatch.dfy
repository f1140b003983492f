/**
 * The dispatch both image handlers share: one method, `getImageData`
 * (id 1), whose result is a three-slot array `[base64, width, height]`.
 * Base64 encoding (ATL `Base64Encode`) is a parameter that may fail, and so
 * are `SafeArrayCreate` (`allocOk`) and each `SafeArrayPutElement`.
 */
module ImageDispatch {
  import opened JsText
  import opened Bytes
  import opened Com
  import ImageDataService

  /** The only name the handlers know. */
  const GetImageData: string := "getImageData"

  /**
   * `GetIDsOfNames`: `E_INVALIDARG` for a null name array or id pointer;
   * exactly one name, `getImageData`, resolves, to id 1.
   */
  function GetIDsOfNames(names: Option<seq<string>>, idPresent: bool): (r: (HResult, Option<int>))
    ensures names.None? || !idPresent ==> r == (E_INVALIDARG, None)
    ensures r.0 == S_OK <==> names.Some? && idPresent && names.value == [GetImageData]
    ensures r.0 == S_OK ==> r.1 == Some(1)
    ensures r.0 != S_OK ==> r.1.None? && r.0 in {E_INVALIDARG, DISP_E_UNKNOWNNAME}
  {
    if names.None? || !idPresent then (E_INVALIDARG, None)
    else if |names.value| == 1 && names.value[0] == GetImageData then (S_OK, Some(1))
    else (DISP_E_UNKNOWNNAME, None)
  }

  /** Two names at once are refused even when the first is `getImageData`. */
  lemma OnlyOneName(other: string)
    ensures GetIDsOfNames(Some([GetImageData, other]), true) == (DISP_E_UNKNOWNNAME, None)
    ensures GetIDsOfNames(Some([GetImageData]), true) == (S_OK, Some(1))
  {
  }

  /**
   * `CreateSafeArray`: the encoding's failure, then the allocation's, then
   * the first failing put decides the result; when all succeed the array
   * holds the text, the width and the height, in that order.
   */
  function Pack(data: seq<u8>, width: nat, height: nat, encode: seq<u8> -> Option<string>, allocOk: bool, puts: seq<HResult>): (r: (HResult, Option<Value>))
    requires |puts| == 3
    ensures r.0 == S_OK <==> encode(data).Some? && allocOk && Succeeded(puts[0]) && Succeeded(puts[1]) && Succeeded(puts[2])
    ensures r.0 == S_OK ==> r.1 == Some(VArray([VBstr(encode(data).value), VUI4(width), VUI4(height)]))
    ensures r.0 != S_OK ==> r.1.None?
    ensures encode(data).None? ==> r.0 == E_FAIL
    ensures encode(data).Some? && !allocOk ==> r.0 == E_OUTOFMEMORY
    ensures encode(data).Some? && allocOk && !Succeeded(puts[0]) ==> r.0 == puts[0]
  {
    match encode(data)
    case None => (E_FAIL, None)
    case Some(text) =>
      if !allocOk then (E_OUTOFMEMORY, None)
      else if !Succeeded(puts[0]) then (puts[0], None)
      else if !Succeeded(puts[1]) then (puts[1], None)
      else if !Succeeded(puts[2]) then (puts[2], None)
      else (S_OK, Some(VArray([VBstr(text), VUI4(width), VUI4(height)])))
  }

  /** `Invoke`: id 1 needs a result pointer (`E_POINTER`); every other id is unknown. */
  function Invoke(dispId: int, resultPresent: bool, data: seq<u8>, width: nat, height: nat, encode: seq<u8> -> Option<string>, allocOk: bool, puts: seq<HResult>): (r: (HResult, Option<Value>))
    requires |puts| == 3
    ensures dispId != 1 ==> r == (DISP_E_MEMBERNOTFOUND, None)
    ensures dispId == 1 && !resultPresent ==> r == (E_POINTER, None)
    ensures dispId == 1 && resultPresent ==> r == Pack(data, width, height, encode, allocOk, puts)
  {
    if dispId == 1 then
      if !resultPresent then (E_POINTER, None)
      else Pack(data, width, height, encode, allocOk, puts)
    else (DISP_E_MEMBERNOTFOUND, None)
  }

  /** A successful `getImageData` result has exactly three slots: the text, then the two dimensions. */
  lemma ResultHasThreeSlots(data: seq<u8>, width: nat, height: nat, encode: seq<u8> -> Option<string>, puts: seq<HResult>)
    requires |puts| == 3
    requires Invoke(1, true, data, width, height, encode, true, puts).0 == S_OK
    ensures var items := Invoke(1, true, data, width, height, encode, true, puts).1.value.items;
      |items| == 3 && items[0].VBstr? && items[1] == VUI4(width) && items[2] == VUI4(height)
  {
  }

  // ----- to the page -----

  /** A scalar as the WebView2 bridge hands it to script; a byte array is not modelled. */
  function Scalar(v: Value): ImageDataService.JsValue {
    match v
    case VEmpty => ImageDataService.JsUndefined
    case VBool(b) => ImageDataService.JsBool(b)
    case VBstr(s) => ImageDataService.JsString(s)
    case VUI4(u) => ImageDataService.JsNumber(u as real)
    case VBytes(_) => ImageDataService.JsObject
    case VArray(_) => ImageDataService.JsObject
  }

  /** A `SAFEARRAY` of variants arrives as a script array of its slots. */
  function Bridge(v: Value): (j: ImageDataService.JsValue)
    ensures v.VArray? ==> j.JsArray? && |j.items| == |v.items|
  {
    match v
    case VArray(items) => ImageDataService.JsArray(seq(|items|, i requires 0 <= i < |items| => Scalar(items[i])))
    case _ => Scalar(v)
  }

  /** The bytes as a binary string, one character per byte, which is what `atob` returns for their base64 text. */
  function Latin1(bytes: seq<u8>): (s: string)
    ensures |s| == |bytes|
    ensures forall i :: 0 <= i < |bytes| ==> s[i] as int == bytes[i] as int
  {
    seq(|bytes|, i requires 0 <= i < |bytes| => (bytes[i] as int) as char)
  }

  /**
   * End to end: when the encoder and the page's `atob` are inverse, the
   * image the page's `getImageData()` resolves to carries exactly the
   * handler's bytes, width and height.
   */
  lemma PageReceivesTheImage(data: seq<u8>, width: nat, height: nat, encode: seq<u8> -> Option<string>, atob: ImageDataService.JsValue -> Option<string>)
    requires encode(data).Some?
    requires atob(ImageDataService.JsString(encode(data).value)) == Some(Latin1(data))
    ensures var r := Invoke(1, true, data, width, height, encode, true, [S_OK, S_OK, S_OK]);
      r.0 == S_OK
      && ImageDataService.Convert(Bridge(r.1.value), atob)
        == ImageDataService.Image(data, ImageDataService.JsNumber(width as real), ImageDataService.JsNumber(height as real))
  {
    var r := Invoke(1, true, data, width, height, encode, true, [S_OK, S_OK, S_OK]);
    var js := Bridge(r.1.value);
    assert js.items[0] == ImageDataService.JsString(encode(data).value);
    var img := ImageDataService.Convert(js, atob);
    assert img.Image?;
    assert img.bytes == data by {
      forall i | 0 <= i < |data|
        ensures img.bytes[i] == data[i]
      {
        assert img.bytes[i] as int == (Latin1(data)[i] as int) % 256;
      }
    }
  }
}
