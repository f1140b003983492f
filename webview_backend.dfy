/**
 * The image handler of the backend application: its `ImageData` starts at
 * 640 by 480 with a buffer of `w*h*4` bytes, and its constructor paints the
 * gradient into that buffer.
 */
module WebviewBackend {
  import opened JsText
  import opened Bytes
  import opened Com
  import opened Gradient
  import ImageDispatch

  class ImageHandler {
    /** `imageData.data`, `imageData.width` and `imageData.height`. */
    var data: array<u8>
    var width: nat
    var height: nat

    /** `ImageData()` sets 640 by 480 and sizes the buffer; `ImageHandler()` then paints it. */
    constructor ()
      ensures width == 640 && height == 480
      ensures fresh(data) && data.Length == width * height * 4
      ensures data[..] == GradientImage(width, height)
    {
      width := 640;
      height := 480;
      data := new u8[640 * 480 * 4](_ => 0);
      new;
      GenerateGradientImage();
    }

    /** `GenerateGradientImage`: every pixel of the current size. */
    method GenerateGradientImage()
      requires 0 < width && 0 < height && data.Length == width * height * 4 && width * height * 4 < 0x1_0000_0000
      modifies data
      ensures data[..] == GradientImage(width, height)
    {
      FillGradient(data, width, height);
    }

    /** `CreateSafeArray`: encode, allocate three slots, then put text, width and height one by one. */
    method CreateSafeArray(encode: seq<u8> -> Option<string>, allocOk: bool, puts: seq<HResult>) returns (hr: HResult, result: Option<Value>)
      requires |puts| == 3
      ensures (hr, result) == ImageDispatch.Pack(data[..], width, height, encode, allocOk, puts)
    {
      var text := encode(data[..]);
      if text.None? {
        return E_FAIL, None;
      }
      if !allocOk {
        return E_OUTOFMEMORY, None;
      }
      var slots := new Value[3](_ => VEmpty);
      if !Succeeded(puts[0]) {
        return puts[0], None;
      }
      slots[0] := VBstr(text.value);
      if !Succeeded(puts[1]) {
        return puts[1], None;
      }
      slots[1] := VUI4(width);
      if !Succeeded(puts[2]) {
        return puts[2], None;
      }
      slots[2] := VUI4(height);
      assert slots[..] == [VBstr(text.value), VUI4(width), VUI4(height)];
      return S_OK, Some(VArray(slots[..]));
    }

    /** `Invoke`. */
    method Invoke(dispId: int, resultPresent: bool, encode: seq<u8> -> Option<string>, allocOk: bool, puts: seq<HResult>) returns (hr: HResult, result: Option<Value>)
      requires |puts| == 3
      ensures (hr, result) == ImageDispatch.Invoke(dispId, resultPresent, data[..], width, height, encode, allocOk, puts)
    {
      if dispId == 1 {
        if !resultPresent {
          return E_POINTER, None;
        }
        hr, result := CreateSafeArray(encode, allocOk, puts);
        return;
      }
      return DISP_E_MEMBERNOTFOUND, None;
    }
  }

  /** A fresh handler answers `getImageData` with the 640 by 480 gradient, whose every alpha byte is 255. */
  lemma FreshHandlerSendsGradient(data: seq<u8>, encode: seq<u8> -> Option<string>, x: nat, y: nat)
    requires data == GradientImage(640, 480) && encode(data).Some?
    requires x < 640 && y < 480
    ensures ImageDispatch.Invoke(1, true, data, 640, 480, encode, true, [S_OK, S_OK, S_OK]).1
      == Some(VArray([VBstr(encode(data).value), VUI4(640), VUI4(480)]))
    ensures data[PixelIndex(640, 480, x, y) + 3] == 255
  {
    AlphaOpaque(640, 480, x, y);
  }
}
