/**
 * The gradient test image both image handlers generate: an RGBA buffer of
 * `w*h*4` bytes in which pixel (x, y) occupies bytes `(y*w+x)*4 .. +3`,
 * red grows with x, blue falls with x, green grows with y and alpha is
 * opaque. The float computation `(BYTE)(255 * (float)n / d)` is taken at
 * exact precision: the byte is the floor of `255*n/d`.
 */
module Gradient {
  import opened Bytes

  /** `(BYTE)(255 * n / d)` for `0 <= n <= d`. */
  function Scale(n: nat, d: nat): (b: u8)
    requires 0 < d && n <= d
    ensures n == 0 ==> b == 0
    ensures n == d ==> b == 255
  {
    ScaleFacts(n, d);
    ((255 * n) / d) as u8
  }

  lemma ScaleFacts(n: nat, d: nat)
    requires 0 < d && n <= d
    ensures (255 * n) / d <= 255
    ensures n == 0 ==> (255 * n) / d == 0
    ensures n == d ==> (255 * n) / d == 255
  {
    MulMono(n, d, 255);
    assert n * 255 == 255 * n && d * 255 == 255 * d;
    DivBelow(255 * n, d, 255);
    if n == d {
      DivModUnique(255 * n, d, 255, 0);
    }
  }

  /** The byte is the largest whole number of 255ths not above `n / d`. */
  lemma ScaleIsFloor(n: nat, d: nat)
    requires 0 < d && n <= d
    ensures Scale(n, d) as int * d <= 255 * n < (Scale(n, d) as int + 1) * d
  {
    var a := 255 * n;
    var q := a / d;
    assert a == q * d + a % d;
    MulSucc(q, d);
  }

  lemma MulMono(a: nat, b: nat, d: nat)
    requires a <= b
    ensures a * d <= b * d
  {
  }

  lemma MulSucc(a: nat, d: nat)
    ensures (a + 1) * d == a * d + d
  {
  }

  lemma MulCancel(a: nat, b: nat, d: nat)
    requires a * d < b * d
    ensures a < b
  {
  }

  /** `a / d <= b` whenever `a <= b * d`. */
  lemma DivBelow(a: nat, d: nat, b: nat)
    requires 0 < d && a <= b * d
    ensures a / d <= b
  {
    var q := a / d;
    assert a == q * d + a % d;
    MulSucc(b, d);
    MulCancel(q, b + 1, d);
  }

  /** Division by a positive number keeps the order of its operands. */
  lemma DivMonotone(a: nat, b: nat, d: nat)
    requires 0 < d && a <= b
    ensures a / d <= b / d
  {
    var qa, qb := a / d, b / d;
    assert a == qa * d + a % d;
    assert b == qb * d + b % d;
    MulSucc(qb, d);
    MulCancel(qa, qb + 1, d);
  }

  /** Red: `255 * x / w`. */
  function Red(x: nat, w: nat): u8
    requires x < w
  {
    Scale(x, w)
  }

  /** Green: `255 * y / h`. */
  function Green(y: nat, h: nat): u8
    requires y < h
  {
    Scale(y, h)
  }

  /** Blue: `255 * (1 - x / w)`, that is `255 * (w - x) / w`. */
  function Blue(x: nat, w: nat): u8
    requires x < w
  {
    Scale(w - x, w)
  }

  const Opaque: u8 := 255

  /** The four bytes of pixel (x, y), in R, G, B, A order. */
  function Pixel(x: nat, y: nat, w: nat, h: nat): seq<u8>
    requires x < w && y < h
  {
    [Red(x, w), Green(y, h), Blue(x, w), Opaque]
  }

  /** Byte `i` of the image: channel `i % 4` of pixel `i / 4`, which is column `(i/4) % w` of row `(i/4) / w`. */
  function ByteAt(w: nat, h: nat, i: nat): u8
    requires 0 < w && 0 < h && i < w * h * 4
  {
    var p := i / 4;
    var x := p % w;
    var y := p / w;
    RowBound(w, h, p);
    Pixel(x, y, w, h)[i % 4]
  }

  lemma RowBound(w: nat, h: nat, p: nat)
    requires 0 < w && p < w * h
    ensures p / w < h
  {
    var q := p / w;
    assert p == q * w + p % w;
    assert h * w == w * h;
    MulCancel(q, h, w);
  }

  /** The whole image of `w` by `h` pixels. */
  function GradientImage(w: nat, h: nat): (img: seq<u8>)
    requires 0 < w && 0 < h
    ensures |img| == w * h * 4
  {
    seq(w * h * 4, i requires 0 <= i < w * h * 4 => ByteAt(w, h, i))
  }

  /** `n == q*d + r` with `0 <= r < d` fixes `n / d` and `n % d`. */
  lemma DivModUnique(n: nat, d: nat, q: nat, r: nat)
    requires 0 < d && r < d && n == q * d + r
    ensures n / d == q && n % d == r
  {
    var q', r' := n / d, n % d;
    assert n == q' * d + r';
    MulSucc(q, d);
    MulSucc(q', d);
    MulCancel(q', q + 1, d);
    MulCancel(q, q' + 1, d);
  }

  /** Pixel (x, y) lies inside the buffer. */
  lemma PixelInRange(w: nat, h: nat, x: nat, y: nat)
    requires x < w && y < h
    ensures (y * w + x) * 4 + 3 < w * h * 4
  {
    MulSucc(y, w);
    MulMono(y + 1, h, w);
    assert h * w == w * h;
  }

  /** `(y * width + x) * 4`, the first byte of pixel (x, y). */
  function PixelIndex(w: nat, h: nat, x: nat, y: nat): (i: nat)
    requires x < w && y < h
    ensures i + 3 < w * h * 4
    ensures i % 4 == 0
  {
    PixelInRange(w, h, x, y);
    (y * w + x) * 4
  }

  /** The four bytes from `PixelIndex` on are the four channels of pixel (x, y). */
  lemma {:induction false} PixelLayout(w: nat, h: nat, x: nat, y: nat, c: nat)
    requires x < w && y < h && c < 4
    ensures ByteAt(w, h, PixelIndex(w, h, x, y) + c) == Pixel(x, y, w, h)[c]
  {
    var i := PixelIndex(w, h, x, y) + c;
    DivModUnique(i, 4, y * w + x, c);
    DivModUnique(y * w + x, w, y, x);
  }

  /** Channel `c` of pixel (x, y) in the whole image. */
  lemma ImageAt(w: nat, h: nat, x: nat, y: nat, c: nat)
    requires x < w && y < h && c < 4
    ensures GradientImage(w, h)[PixelIndex(w, h, x, y) + c] == Pixel(x, y, w, h)[c]
  {
    PixelLayout(w, h, x, y, c);
  }

  /** Every pixel's alpha byte is 255. */
  lemma AlphaOpaque(w: nat, h: nat, x: nat, y: nat)
    requires x < w && y < h
    ensures GradientImage(w, h)[PixelIndex(w, h, x, y) + 3] == 255
  {
    ImageAt(w, h, x, y, 3);
  }

  /** `Scale` never falls as its numerator grows. */
  lemma ScaleMonotone(n1: nat, n2: nat, d: nat)
    requires 0 < d && n1 <= n2 <= d
    ensures Scale(n1, d) <= Scale(n2, d)
  {
    DivMonotone(255 * n1, 255 * n2, d);
  }

  /** Along a row red never falls. */
  lemma RedRises(w: nat, h: nat, x1: nat, x2: nat, y: nat)
    requires x1 <= x2 < w && y < h
    ensures GradientImage(w, h)[PixelIndex(w, h, x1, y)] <= GradientImage(w, h)[PixelIndex(w, h, x2, y)]
  {
    ImageAt(w, h, x1, y, 0);
    ImageAt(w, h, x2, y, 0);
    ScaleMonotone(x1, x2, w);
  }

  /** Along a row blue never rises. */
  lemma BlueFalls(w: nat, h: nat, x1: nat, x2: nat, y: nat)
    requires x1 <= x2 < w && y < h
    ensures GradientImage(w, h)[PixelIndex(w, h, x1, y) + 2] >= GradientImage(w, h)[PixelIndex(w, h, x2, y) + 2]
  {
    ImageAt(w, h, x1, y, 2);
    ImageAt(w, h, x2, y, 2);
    ScaleMonotone(w - x2, w - x1, w);
  }

  /** The first column has no red and full blue. */
  lemma FirstColumn(w: nat, h: nat, y: nat)
    requires 0 < w && y < h
    ensures GradientImage(w, h)[PixelIndex(w, h, 0, y)] == 0
    ensures GradientImage(w, h)[PixelIndex(w, h, 0, y) + 2] == 255
  {
    ImageAt(w, h, 0, y, 0);
    ImageAt(w, h, 0, y, 2);
  }

  /** Green is the same along a row and never falls down a column. */
  lemma GreenByRow(w: nat, h: nat, x1: nat, x2: nat, y1: nat, y2: nat)
    requires x1 < w && x2 < w && y1 <= y2 < h
    ensures GradientImage(w, h)[PixelIndex(w, h, x1, y1) + 1] == GradientImage(w, h)[PixelIndex(w, h, x2, y1) + 1]
    ensures GradientImage(w, h)[PixelIndex(w, h, x1, y1) + 1] <= GradientImage(w, h)[PixelIndex(w, h, x1, y2) + 1]
  {
    ImageAt(w, h, x1, y1, 1);
    ImageAt(w, h, x2, y1, 1);
    ImageAt(w, h, x1, y2, 1);
    ScaleMonotone(y1, y2, h);
  }

  /** The bytes before `filled` hold the image. */
  ghost predicate FilledUpTo(data: array<u8>, w: nat, h: nat, filled: nat)
    requires 0 < w && 0 < h && filled <= w * h * 4 && data.Length == w * h * 4
    reads data
  {
    forall i :: 0 <= i < filled ==> data[i] == ByteAt(w, h, i)
  }

  /**
   * The nested x/y loop that writes each pixel's four bytes at
   * `(y*w+x)*4`. The index is a `UINT`, so the image must stay below
   * 2^32 bytes for it not to wrap.
   */
  method FillGradient(data: array<u8>, w: nat, h: nat)
    requires 0 < w && 0 < h && data.Length == w * h * 4 && w * h * 4 < 0x1_0000_0000
    modifies data
    ensures data[..] == GradientImage(w, h)
  {
    var y := 0;
    while y < h
      invariant 0 <= y <= h
      invariant y * w * 4 <= w * h * 4
      invariant FilledUpTo(data, w, h, y * w * 4)
    {
      FillRow(data, w, h, y);
      MulMono(y + 1, h, w);
      y := y + 1;
    }
    assert data[..] == GradientImage(w, h);
  }

  /** The inner loop: row `y`, pixel by pixel. */
  method FillRow(data: array<u8>, w: nat, h: nat, y: nat)
    requires 0 < w && y < h && data.Length == w * h * 4 && w * h * 4 < 0x1_0000_0000
    requires y * w * 4 <= w * h * 4 && FilledUpTo(data, w, h, y * w * 4)
    modifies data
    ensures (y + 1) * w * 4 <= w * h * 4 && FilledUpTo(data, w, h, (y + 1) * w * 4)
  {
    var x := 0;
    while x < w
      invariant 0 <= x <= w
      invariant (y * w + x) * 4 <= w * h * 4
      invariant FilledUpTo(data, w, h, (y * w + x) * 4)
    {
      var index := (y * w + x) * 4;
      assert index == PixelIndex(w, h, x, y);
      PixelLayout(w, h, x, y, 0);
      PixelLayout(w, h, x, y, 1);
      PixelLayout(w, h, x, y, 2);
      PixelLayout(w, h, x, y, 3);
      data[index] := Red(x, w);
      data[index + 1] := Green(y, h);
      data[index + 2] := Blue(x, w);
      data[index + 3] := Opaque;
      x := x + 1;
    }
    MulSucc(y, w);
  }
}
