/**
 * The image handler of the top-level application: its `ImageData` starts
 * empty at 0 by 0, and `InitializeImageData`, run by the constructor, sets
 * 640 by 480, resizes the buffer and paints the gradient.
 */
module WebviewRoot {
  import opened JsText
  import opened Bytes
  import opened Com
  import opened Gradient
  import ImageDispatch

  class ImageHandler {
    /** `imageData.data`, `imageData.width` and `imageData.height`. */
    var data: array<u8>
    var width: nat
    var height: nat

    /** `ImageData()` is 0 by 0 and empty; `ImageHandler()` runs `InitializeImageData`. */
    constructor ()
      ensures width == 640 && height == 480
      ensures fresh(data) && data.Length == width * height * 4
      ensures data[..] == GradientImage(width, height)
    {
      width := 0;
      height := 0;
      data := new u8[0];
      new;
      InitializeImageData();
    }

    /**
     * `InitializeImageData`: 640 by 480, a buffer resized to `w*h*4`
     * bytes, then the nested loop over every pixel.
     */
    method InitializeImageData()
      modifies this
      ensures width == 640 && height == 480
      ensures fresh(data) && data.Length == width * height * 4
      ensures data[..] == GradientImage(width, height)
    {
      width := 640;
      height := 480;
      var dataSize := width * height * 4;
      data := new u8[dataSize](_ => 0);
      FillGradient(data, width, height);
    }

    /** `CreateSafeArray(data, width, height, pResult)`: the same three slots, from its arguments. */
    static method CreateSafeArray(bytes: seq<u8>, w: nat, h: nat, encode: seq<u8> -> Option<string>, allocOk: bool, puts: seq<HResult>) returns (hr: HResult, result: Option<Value>)
      requires |puts| == 3
      ensures (hr, result) == ImageDispatch.Pack(bytes, w, h, encode, allocOk, puts)
    {
      var text := encode(bytes);
      if text.None? {
        return E_FAIL, None;
      }
      if !allocOk {
        return E_OUTOFMEMORY, None;
      }
      var slots := new Value[3](_ => VEmpty);
      if !Succeeded(puts[0]) {
        return puts[0], None;
      }
      slots[0] := VBstr(text.value);
      if !Succeeded(puts[1]) {
        return puts[1], None;
      }
      slots[1] := VUI4(w);
      if !Succeeded(puts[2]) {
        return puts[2], None;
      }
      slots[2] := VUI4(h);
      assert slots[..] == [VBstr(text.value), VUI4(w), VUI4(h)];
      return S_OK, Some(VArray(slots[..]));
    }

    /** `Invoke`: `getImageData` passes the handler's own buffer and size. */
    method Invoke(dispId: int, resultPresent: bool, encode: seq<u8> -> Option<string>, allocOk: bool, puts: seq<HResult>) returns (hr: HResult, result: Option<Value>)
      requires |puts| == 3
      ensures (hr, result) == ImageDispatch.Invoke(dispId, resultPresent, data[..], width, height, encode, allocOk, puts)
    {
      if dispId == 1 {
        if !resultPresent {
          return E_POINTER, None;
        }
        hr, result := CreateSafeArray(data[..], width, height, encode, allocOk, puts);
        return;
      }
      return DISP_E_MEMBERNOTFOUND, None;
    }
  }
}
