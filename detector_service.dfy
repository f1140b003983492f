/**
 * The front end's detector session (DetectorService): one-shot
 * initialisation against the host's device handler, the frame-notification
 * listener, and the read of a frame from the shared 16-bit buffer, decoded
 * to 8 bits per sample for display.
 *
 * The host's `deviceHandler` object is an oracle (present or not). A newly
 * allocated shared buffer is zero-filled, as a fresh `SharedArrayBuffer` is,
 * and nothing in the program writes it afterwards, so every frame delivered
 * decodes zeros (`Dark`, which `HandleMessage` keeps). The frame callback is recorded
 * as the list of frames delivered to it.
 */
module DetectorService {
  import opened Bytes
  import opened JsText

  /** `(v >> 8) & 0xFF`: the high byte of a 16-bit sample (shift as floor division, mask as remainder). */
  function HighByte(v: u16): (b: u8)
    ensures b as int == v as int / 256
  {
    (v as int / 256 % 256) as u8
  }

  /** The display value is monotone in the sample. */
  lemma HighByteMonotone(v: u16, w: u16)
    requires v <= w
    ensures HighByte(v) <= HighByte(w)
  {
  }

  /** Samples that differ only in their low byte display alike. */
  lemma HighByteIgnoresLowByte(v: u16, w: u16)
    requires v as int / 256 == w as int / 256
    ensures HighByte(v) == HighByte(w)
  {
  }

  /** The decoded display samples, one per 16-bit sample. */
  function Decode(view: seq<u16>): (d: seq<u8>)
    ensures |d| == |view|
    ensures forall i :: 0 <= i < |view| ==> d[i] as int == view[i] as int / 256
  {
    seq(|view|, i requires 0 <= i < |view| => HighByte(view[i]))
  }

  /** A decoded frame is pointwise monotone in the frame it came from. */
  lemma DecodeMonotone(a: seq<u16>, b: seq<u16>)
    requires |a| == |b|
    requires forall i :: 0 <= i < |a| ==> a[i] <= b[i]
    ensures forall i :: 0 <= i < |a| ==> Decode(a)[i] <= Decode(b)[i]
  {
    forall i | 0 <= i < |a| ensures Decode(a)[i] <= Decode(b)[i] {
      HighByteMonotone(a[i], b[i]);
    }
  }

  /** The display loop: a new byte array with one high byte per sample of the view. */
  method DecodeFrame(view: array<u16>, n: int) returns (display: array<u8>)
    requires n == view.Length
    ensures fresh(display) && display.Length == n
    ensures display[..] == Decode(view[..])
  {
    display := new u8[n];
    var i := 0;
    while i < view.Length
      invariant 0 <= i <= view.Length == display.Length
      invariant forall k :: 0 <= k < i ==> display[k] == HighByte(view[k])
    {
      display[i] := HighByte(view[i]);
      i := i + 1;
    }
  }

  /** A frame delivered to the callback: display bytes and the announced size. */
  datatype Frame = Frame(data: seq<u8>, width: int, height: int)

  /** A message posted by the host; only `newFrame` is acted on. */
  datatype Message = NewFrame(width: int, height: int) | OtherMessage(kind: string)

  class Session {
    var isInitialized: bool
    var hasCallback: bool
    var sharedBufferSize: int
    /** The `Uint16Array` view of the shared buffer (empty before the first allocation). */
    var shared: array<u16>
    var delivered: seq<Frame>

    ghost predicate Valid()
      reads this
    {
      sharedBufferSize >= 0 && shared.Length * 2 == sharedBufferSize
    }

    /** The shared buffer holds only zeros, and so does every frame delivered so far. */
    ghost predicate Dark()
      reads this, shared
    {
      && (forall i :: 0 <= i < shared.Length ==> shared[i] == 0)
      && (forall f :: f in delivered ==> forall i :: 0 <= i < |f.data| ==> f.data[i] == 0)
    }

    constructor ()
      ensures Valid() && Dark()
      ensures !isInitialized && !hasCallback && sharedBufferSize == 0 && delivered == []
    {
      isInitialized := false;
      hasCallback := false;
      sharedBufferSize := 0;
      shared := new u16[0];
      delivered := [];
    }

    /**
     * `initialize()` run to its end in one step: the first call that finds
     * the host handler marks the session initialised and answers true; every
     * later call answers false. Calls that overlap across the `await` are
     * modelled by `InitRun`.
     */
    method Initialize(handlerPresent: bool) returns (ok: bool)
      modifies this`isInitialized
      ensures ok == (!old(isInitialized) && handlerPresent)
      ensures isInitialized == (old(isInitialized) || handlerPresent)
    {
      if !isInitialized {
        if !handlerPresent {
          return false;
        }
        isInitialized := true;
        return true;
      }
      return false;
    }

    /** `onNewFrame(callback)`: install or remove the frame callback. */
    method OnNewFrame(callbackSet: bool)
      modifies this`hasCallback
      ensures hasCallback == callbackSet
    {
      hasCallback := callbackSet;
    }

    /**
     * `readSharedBuffer(width, height)`: reallocate the shared buffer when the
     * byte size `width*height*2` differs from the remembered one, then decode
     * every 16-bit sample into a newly allocated display array.  A negative
     * size makes the allocation throw, and the read answers null.
     */
    method ReadSharedBuffer(width: int, height: int) returns (display: array?<u8>)
      requires Valid()
      modifies this`sharedBufferSize, this`shared
      ensures Valid()
      ensures width * height < 0 <==> display == null
      ensures width * height < 0 ==> sharedBufferSize == old(sharedBufferSize) && shared == old(shared)
      ensures display != null ==> fresh(display) && display.Length == width * height
      ensures display != null ==> sharedBufferSize == width * height * 2
      ensures display != null && old(sharedBufferSize) == width * height * 2 ==> shared == old(shared)
      ensures display != null && old(sharedBufferSize) != width * height * 2 ==>
        fresh(shared) && forall i :: 0 <= i < shared.Length ==> shared[i] == 0
      ensures display != null ==> display[..] == Decode(shared[..])
      ensures unchanged(old(shared))
    {
      var size := width * height * 2;
      if size != sharedBufferSize {
        if size < 0 {
          return null;
        }
        shared := new u16[size / 2](_ => 0);
        sharedBufferSize := size;
      }
      display := DecodeFrame(shared, width * height);
    }

    /**
     * The message listener: a `newFrame` notice reads the shared buffer and
     * hands the display bytes to the callback when one is installed and the
     * read did not fail; any other message is ignored.
     */
    method HandleMessage(m: Message)
      requires Valid()
      modifies this`sharedBufferSize, this`shared, this`delivered
      ensures Valid()
      ensures m.OtherMessage? ==> delivered == old(delivered) && sharedBufferSize == old(sharedBufferSize) && shared == old(shared)
      ensures m.NewFrame? && m.width * m.height < 0 ==> sharedBufferSize == old(sharedBufferSize) && shared == old(shared)
      ensures m.NewFrame? && m.width * m.height >= 0 ==> sharedBufferSize == m.width * m.height * 2
      ensures m.NewFrame? && old(sharedBufferSize) == m.width * m.height * 2 ==> shared == old(shared)
      ensures m.NewFrame? && m.width * m.height >= 0 && old(sharedBufferSize) != m.width * m.height * 2 ==>
        fresh(shared) && forall i :: 0 <= i < shared.Length ==> shared[i] == 0
      ensures unchanged(old(shared))
      ensures m.NewFrame? && hasCallback && m.width * m.height >= 0 ==>
        delivered == old(delivered) + [Frame(Decode(shared[..]), m.width, m.height)]
      ensures !(m.NewFrame? && hasCallback && m.width * m.height >= 0) ==> delivered == old(delivered)
      ensures old(Dark()) ==> Dark()
    {
      if m.NewFrame? {
        var data := ReadSharedBuffer(m.width, m.height);
        if hasCallback && data != null {
          delivered := delivered + [Frame(data[..], m.width, m.height)];
        }
      }
    }
  }

  /** The answers of a sequence of `initialize()` calls, given whether the handler was present at each. */
  function InitAnswers(initialized: bool, present: seq<bool>): (answers: seq<bool>)
    ensures |answers| == |present|
    decreases |present|
  {
    if present == [] then []
    else
      var ok := !initialized && present[0];
      [ok] + InitAnswers(initialized || present[0], present[1..])
  }

  function CountTrue(s: seq<bool>): nat {
    if s == [] then 0 else (if s[0] then 1 else 0) + CountTrue(s[1..])
  }

  /** `initialize()` called one after another answers true at most once, and never once initialised. */
  lemma {:induction false} InitializeAtMostOnce(initialized: bool, present: seq<bool>)
    ensures CountTrue(InitAnswers(initialized, present)) <= 1
    ensures initialized ==> CountTrue(InitAnswers(initialized, present)) == 0
    decreases |present|
  {
    if present != [] {
      InitializeAtMostOnce(initialized || present[0], present[1..]);
      InitializeAtMostOnce(true, present[1..]);
    }
  }
  // ----- overlapping calls -----

  /**
   * `initialize()` split at its `await`: `Begin` is the call up to the
   * await, `Resume` the continuation of one waiting call. A call that finds
   * the session initialised or the handler missing answers at once.
   */
  datatype InitEvent = Begin(handlerPresent: bool) | Resume

  /** Whether the session is initialised, and how many calls wait at the await. */
  datatype InitState = InitState(initialized: bool, waiting: nat)

  /** The new state and the answer the event delivers, if it delivers one. */
  function InitStep(s: InitState, e: InitEvent): (InitState, Option<bool>) {
    match e
    case Begin(present) =>
      if s.initialized || !present then (s, Some(false))
      else (s.(waiting := s.waiting + 1), None)
    case Resume =>
      if s.waiting == 0 then (s, None)
      else (InitState(true, s.waiting - 1), Some(true))
  }

  /** The final state and the answers delivered, in order. */
  function InitRun(s: InitState, es: seq<InitEvent>): (InitState, seq<bool>)
    decreases |es|
  {
    if es == [] then (s, [])
    else
      var (t, answer) := InitStep(s, es[0]);
      var (u, rest) := InitRun(t, es[1..]);
      (u, (if answer.Some? then [answer.value] else []) + rest)
  }

  /** Each call runs to its end before the next one starts. */
  function Serial(present: seq<bool>): (es: seq<InitEvent>)
    ensures |es| == 2 * |present|
  {
    if present == [] then [] else [Begin(present[0]), Resume] + Serial(present[1..])
  }

  /** Calls that do not overlap give exactly the answers of `InitAnswers`. */
  lemma {:induction false} SerialCallsAreInitAnswers(initialized: bool, present: seq<bool>)
    ensures InitRun(InitState(initialized, 0), Serial(present)) == (InitState(initialized || true in present, 0), InitAnswers(initialized, present))
    decreases |present|
  {
    if present != [] {
      var s := InitState(initialized, 0);
      var es := Serial(present);
      assert es[0] == Begin(present[0]) && es[1..][0] == Resume && es[1..][1..] == Serial(present[1..]);
      var (t, a) := InitStep(s, es[0]);
      var (u, b) := InitStep(t, Resume);
      assert u == InitState(initialized || present[0], 0);
      assert (if a.Some? then [a.value] else []) + (if b.Some? then [b.value] else []) == [!initialized && present[0]];
      SerialCallsAreInitAnswers(initialized || present[0], present[1..]);
      var (v, rest) := InitRun(u, Serial(present[1..]));
      assert InitRun(t, es[1..]) == (v, (if b.Some? then [b.value] else []) + rest);
      assert InitRun(s, es) == (v, (if a.Some? then [a.value] else []) + ((if b.Some? then [b.value] else []) + rest));
      assert InitAnswers(initialized, present) == [!initialized && present[0]] + rest;
      assert (true in present) == (present[0] || true in present[1..]) by {
        assert present == [present[0]] + present[1..];
      }
      assert v == InitState(initialized || true in present, 0);
      var A, B := (if a.Some? then [a.value] else []), (if b.Some? then [b.value] else []);
      assert A + (B + rest) == (A + B) + rest;
    }
  }

  /** Two calls that both reach the await before either resumes both answer true. */
  lemma OverlappingCallsBothAnswerTrue()
    ensures InitRun(InitState(false, 0), [Begin(true), Begin(true), Resume, Resume]).1 == [true, true]
  {
    var es := [Begin(true), Begin(true), Resume, Resume];
    assert es[1..] == [Begin(true), Resume, Resume];
    assert es[1..][1..] == [Resume, Resume];
    assert es[1..][1..][1..] == [Resume];
  }
}
