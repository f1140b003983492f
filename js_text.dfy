/**
 * The few pieces of JavaScript string semantics that the front-end panels
 * rely on: `String.prototype.trim`, `parseInt` on the text of a number
 * input, the move-value pattern `^[+-]?\d*\.?\d*$`, `parseFloat` on text
 * that matches that pattern, and the `toFixed(3)` / `parseFloat` round
 * trip used to round axis positions.  Numbers are exact reals: the double
 * rounding of the real engine is not modelled.
 */
module JsText {

  /** The characters `trim` and `parseInt` skip: ECMAScript WhiteSpace and LineTerminator. */
  predicate IsJsSpace(c: char) {
    c == '\t' || c == '\n' || c == '\U{B}' || c == '\U{C}' || c == '\r' || c == ' ' ||
    c == '\U{A0}' || c == '\U{1680}' || ('\U{2000}' <= c <= '\U{200A}') ||
    c == '\U{2028}' || c == '\U{2029}' || c == '\U{202F}' || c == '\U{205F}' ||
    c == '\U{3000}' || c == '\U{FEFF}'
  }

  predicate IsBlank(s: string) {
    forall i :: 0 <= i < |s| ==> IsJsSpace(s[i])
  }

  function TrimStart(s: string): (r: string)
    ensures |r| <= |s|
    ensures r == s[|s| - |r|..]
    ensures r != [] ==> !IsJsSpace(r[0])
  {
    if |s| > 0 && IsJsSpace(s[0]) then TrimStart(s[1..]) else s
  }

  function TrimEnd(s: string): (r: string)
    ensures |r| <= |s|
    ensures r == s[..|r|]
  {
    if |s| > 0 && IsJsSpace(s[|s| - 1]) then TrimEnd(s[..|s| - 1]) else s
  }

  /** `s.trim()` */
  function Trim(s: string): string {
    TrimEnd(TrimStart(s))
  }

  lemma {:induction false} TrimStartEmpty(s: string)
    ensures TrimStart(s) == [] <==> IsBlank(s)
  {
    if |s| > 0 && IsJsSpace(s[0]) {
      TrimStartEmpty(s[1..]);
      assert TrimStart(s) == TrimStart(s[1..]);
      if IsBlank(s[1..]) {
        forall i | 0 <= i < |s| ensures IsJsSpace(s[i]) {
          if i > 0 { assert s[i] == s[1..][i - 1]; }
        }
      }
      if IsBlank(s) {
        forall i | 0 <= i < |s[1..]| ensures IsJsSpace(s[1..][i]) {
          assert s[1..][i] == s[i + 1];
        }
      }
    } else if |s| > 0 {
      assert TrimStart(s) == s;
      assert !IsJsSpace(s[0]);
    }
  }

  lemma {:induction false} TrimEndNonEmpty(s: string)
    requires s != [] && !IsJsSpace(s[0])
    ensures TrimEnd(s) != []
  {
    if |s| > 1 && IsJsSpace(s[|s| - 1]) {
      TrimEndNonEmpty(s[..|s| - 1]);
    }
  }

  /** `s.trim()` is the empty string exactly when every character of `s` is white space. */
  lemma TrimEmptyIffBlank(s: string)
    ensures Trim(s) == [] <==> IsBlank(s)
  {
    TrimStartEmpty(s);
    var t := TrimStart(s);
    if t != [] {
      assert !IsJsSpace(t[0]);
      TrimEndNonEmpty(t);
    }
  }

  predicate IsDigit(c: char) { '0' <= c <= '9' }

  function DigitValue(c: char): (d: nat)
    requires IsDigit(c)
    ensures d < 10
  {
    (c as int) - ('0' as int)
  }

  /** Number of leading decimal digits. */
  function DigitRun(s: string): (n: nat)
    ensures n <= |s|
    ensures forall i :: 0 <= i < n ==> IsDigit(s[i])
    ensures n < |s| ==> !IsDigit(s[n])
  {
    if |s| > 0 && IsDigit(s[0]) then 1 + DigitRun(s[1..]) else 0
  }

  /** The value of a string of decimal digits, most significant first. */
  function DigitsValue(s: string): (v: nat)
    requires forall i :: 0 <= i < |s| ==> IsDigit(s[i])
  {
    if s == [] then 0 else 10 * DigitsValue(s[..|s| - 1]) + DigitValue(s[|s| - 1])
  }

  function Pow10(k: nat): (p: nat)
    ensures p >= 1
  {
    if k == 0 then 1 else 10 * Pow10(k - 1)
  }

  predicate IsSign(c: char) { c == '+' || c == '-' }

  /** What `parseInt` reads its digits from: the text after the leading white space and at most one sign. */
  function Unsigned(s: string): string {
    var t := TrimStart(s);
    if |t| > 0 && IsSign(t[0]) then t[1..] else t
  }

  /**
   * `parseInt(s)` (radix 10): leading white space is skipped, one sign is
   * accepted, then the longest run of digits is read; no digits gives NaN
   * (None).  The text of a number input never carries a `0x` prefix, so
   * the hexadecimal form is not modelled.
   */
  function ParseInt(s: string): (r: Option<int>)
    ensures r.Some? <==> |Unsigned(s)| > 0 && IsDigit(Unsigned(s)[0])
  {
    var t := TrimStart(s);
    var neg := |t| > 0 && t[0] == '-';
    var u := Unsigned(s);
    var n := DigitRun(u);
    if n == 0 then None
    else
      var digits := u[..n];
      assert forall i :: 0 <= i < |digits| ==> digits[i] == u[i];
      var m: int := DigitsValue(digits);
      Some(if neg then -m else m)
  }

  datatype Option<T> = None | Some(value: T)

  /** The pieces of a string in the shape `[+-]? digits ('.')? digits` (any may be empty). */
  datatype Decimal = Decimal(negative: bool, whole: string, hasPoint: bool, fraction: string)

  function StripSign(s: string): string {
    if |s| > 0 && IsSign(s[0]) then s[1..] else s
  }

  function SplitDecimal(s: string): (d: Decimal) {
    var neg := |s| > 0 && s[0] == '-';
    var r1 := StripSign(s);
    var n := DigitRun(r1);
    var r2 := r1[n..];
    var pt := |r2| > 0 && r2[0] == '.';
    var r3 := if pt then r2[1..] else r2;
    Decimal(neg, r1[..n], pt, r3)
  }

  predicate AllDigits(s: string) { forall i :: 0 <= i < |s| ==> IsDigit(s[i]) }

  /** `/^[+-]?\d*\.?\d*$/.test(s)` */
  predicate MatchesMoveValue(s: string) {
    AllDigits(SplitDecimal(s).fraction)
  }

  function PointTail(d: Decimal): string {
    (if d.hasPoint then "." else "") + d.fraction
  }

  function DecimalText(d: Decimal): string {
    (if d.negative then "-" else "") + (d.whole + PointTail(d))
  }

  lemma SignOfText(d: Decimal)
    requires AllDigits(d.whole) && AllDigits(d.fraction)
    ensures StripSign(DecimalText(d)) == d.whole + PointTail(d)
    ensures (|DecimalText(d)| > 0 && DecimalText(d)[0] == '-') == d.negative
  {
    var s := DecimalText(d);
    var r1 := d.whole + PointTail(d);
    if d.negative {
      assert s == "-" + r1;
      assert s[1..] == r1;
    } else {
      assert s == r1;
      if |s| > 0 {
        if |d.whole| > 0 { assert s[0] == d.whole[0]; }
        else if d.hasPoint { assert s[0] == '.'; }
        else { assert s[0] == d.fraction[0]; }
      }
    }
  }

  /** Every string built from an optional minus, digits, an optional point and digits passes the pattern and splits back into its pieces. */
  lemma PatternAcceptsDecimals(d: Decimal)
    requires AllDigits(d.whole) && AllDigits(d.fraction)
    requires d.hasPoint || d.fraction == []
    ensures MatchesMoveValue(DecimalText(d))
    ensures SplitDecimal(DecimalText(d)) == d
  {
    SignOfText(d);
    var r1 := d.whole + PointTail(d);
    var tail := PointTail(d);
    assert tail == [] || !IsDigit(tail[0]);
    DigitRunOfDigits(d.whole, tail);
    var n := DigitRun(r1);
    assert r1[..n] == d.whole;
    assert r1[n..] == tail;
    if d.hasPoint {
      assert tail[0] == '.' && tail[1..] == d.fraction;
    }
  }

  lemma {:induction false} DigitRunOfDigits(a: string, b: string)
    requires AllDigits(a)
    requires b == [] || !IsDigit(b[0])
    ensures DigitRun(a + b) == |a|
  {
    if a == [] {
      assert a + b == b;
    } else {
      assert (a + b)[1..] == a[1..] + b;
      DigitRunOfDigits(a[1..], b);
    }
  }

  /** The number written as `whole.fraction`. */
  function Magnitude(whole: string, fraction: string): real
    requires AllDigits(whole) && AllDigits(fraction)
  {
    DigitsValue(whole) as real + DigitsValue(fraction) as real / Pow10(|fraction|) as real
  }

  /**
   * `parseFloat(s)` for text without leading white space, exponent or
   * `Infinity` (all that the move-value pattern lets through): the longest
   * prefix of the shape sign, digits, point, digits is read exactly; NaN
   * (None) when that prefix holds no digit (`""`, `"+"`, `"-."`).
   */
  function ParseMoveValue(s: string): (r: Option<real>)
    ensures r.None? <==> SplitDecimal(s).whole == [] && DigitRun(SplitDecimal(s).fraction) == 0
  {
    var d := SplitDecimal(s);
    var fraction := d.fraction[..DigitRun(d.fraction)];
    if d.whole == [] && fraction == [] then None
    else
      var magnitude := Magnitude(d.whole, fraction);
      Some(if d.negative then -magnitude else magnitude)
  }

  /** Text the pattern accepts is read in full: its fraction is all digits. */
  lemma {:induction false} MatchedTextReadInFull(s: string)
    requires MatchesMoveValue(s)
    ensures DigitRun(SplitDecimal(s).fraction) == |SplitDecimal(s).fraction|
    ensures ParseMoveValue(s).None? <==> SplitDecimal(s).whole == [] && SplitDecimal(s).fraction == []
  {
    var f := SplitDecimal(s).fraction;
    DigitRunOfDigits(f, []);
    assert f + [] == f;
  }

  /** The value `parseFloat` reads from text built from a sign, digits, a point and digits. */
  lemma DecimalValue(d: Decimal)
    requires AllDigits(d.whole) && AllDigits(d.fraction)
    requires d.hasPoint || d.fraction == []
    requires d.whole != [] || d.fraction != []
    ensures ParseMoveValue(DecimalText(d)) == Some(if d.negative then -Magnitude(d.whole, d.fraction) else Magnitude(d.whole, d.fraction))
  {
    var t := DecimalText(d);
    PatternAcceptsDecimals(d);
    ReadsAsSplit(t, d);
  }

  /** Text whose pieces are all digits reads as the number they spell. */
  lemma ReadsAsSplit(t: string, d: Decimal)
    requires SplitDecimal(t) == d
    requires AllDigits(d.whole) && AllDigits(d.fraction)
    requires d.whole != [] || d.fraction != []
    ensures ParseMoveValue(t) == Some(if d.negative then -Magnitude(d.whole, d.fraction) else Magnitude(d.whole, d.fraction))
  {
    var f := d.fraction;
    DigitRunOfDigits(f, []);
    assert f + [] == f;
    assert f[..DigitRun(f)] == f;
  }

  /**
   * A sign alone, or a sign and a point, passes the pattern but holds no
   * digit, so it reads as NaN.
   */
  lemma BareSignIsNaN(sign: char, point: bool)
    requires IsSign(sign)
    ensures MatchesMoveValue([sign] + (if point then "." else ""))
    ensures ParseMoveValue([sign] + (if point then "." else "")) == None
  {
    var s := [sign] + (if point then "." else "");
    var rest := if point then "." else "";
    assert StripSign(s) == rest;
    assert DigitRun(rest) == 0;
    assert SplitDecimal(s) == Decimal(sign == '-', "", point, "");
  }

  /**
   * `parseFloat(x.toFixed(3))`: the nearest multiple of 1/1000, halves
   * rounded away from zero (toFixed works on the magnitude and picks the
   * larger candidate on a tie); magnitudes of 1e21 and more are printed
   * unchanged by toFixed.
   */
  function Round3(x: real): (r: real)
    ensures -1.0 / 2000.0 <= r - x <= 1.0 / 2000.0 || x >= 1000000000000000000000.0 || x <= -1000000000000000000000.0
  {
    if x >= 1000000000000000000000.0 || x <= -1000000000000000000000.0 then x
    else if x < 0.0 then -(((-x) * 1000.0 + 0.5).Floor as real / 1000.0)
    else (x * 1000.0 + 0.5).Floor as real / 1000.0
  }

  lemma FloorOfHalf(n: int)
    ensures (n as real + 0.5).Floor == n
  {
  }

  /** Rounding to three decimals is idempotent. */
  lemma Round3Idempotent(x: real)
    ensures Round3(Round3(x)) == Round3(x)
  {
    var r := Round3(x);
    if -1000000000000000000000.0 < r < 1000000000000000000000.0 && r != x {
      if x < 0.0 {
        var n := ((-x) * 1000.0 + 0.5).Floor;
        assert n >= 0;
        assert r == -(n as real / 1000.0);
        if n == 0 {
          assert r == 0.0;
          FloorOfHalf(0);
        } else {
          assert (-r) * 1000.0 == n as real;
          FloorOfHalf(n);
        }
      } else {
        var n := (x * 1000.0 + 0.5).Floor;
        assert r == n as real / 1000.0;
        assert n >= 0;
        assert r * 1000.0 == n as real;
        FloorOfHalf(n);
      }
    }
  }
}
