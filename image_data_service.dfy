/**
 * The front end's access to the host's image handler (ImageDataService):
 * polling for the handler with a retry budget, and `getImageData`, which
 * checks the shape of the host's answer and copies the decoded bytes.
 *
 * Each poll of the host object is an oracle outcome, the 500 ms timer
 * between polls is the step from one outcome to the next, and `atob` is a
 * parameter (it may throw, written `None`).
 */
module ImageDataService {
  import opened Bytes
  import opened JsText

  const MaxRetries: nat := 10
  const RetryInterval: nat := 500

  /** What one look at `window.chrome.webview.hostObjects.sync.imageHandler` finds. */
  datatype Probe = Present | Absent | Threw

  /** How a `waitForImageHandler()` promise ends; `Waiting` means more polls are still due. */
  datatype Outcome = Resolved | Rejected(threw: bool) | Waiting

  /** The retry counter and outcome after polling with the given probe results. */
  function Poll(count: nat, probes: seq<Probe>): (r: (nat, Outcome))
    decreases |probes|
  {
    if probes == [] then (count, Waiting)
    else if probes[0] == Present then (count, Resolved)
    else if count < MaxRetries then Poll(count + 1, probes[1..])
    else (count, Rejected(probes[0] == Threw))
  }

  /** The counter never passes the budget, and only grows. */
  lemma {:induction false} PollBounded(count: nat, probes: seq<Probe>)
    requires count <= MaxRetries
    ensures count <= Poll(count, probes).0 <= MaxRetries
    decreases |probes|
  {
    if probes != [] && probes[0] != Present && count < MaxRetries {
      PollBounded(count + 1, probes[1..]);
    }
  }

  /** A rejection happens only on a failed probe once the counter has reached the budget. */
  lemma {:induction false} RejectOnlyWhenExhausted(count: nat, probes: seq<Probe>)
    requires count <= MaxRetries
    ensures Poll(count, probes).1.Rejected? ==> Poll(count, probes).0 == MaxRetries
    decreases |probes|
  {
    if probes != [] && probes[0] != Present && count < MaxRetries {
      RejectOnlyWhenExhausted(count + 1, probes[1..]);
    }
  }

  /** A present handler resolves at once and costs no retry. */
  lemma PresentResolvesAtOnce(count: nat, rest: seq<Probe>)
    ensures Poll(count, [Present] + rest) == (count, Resolved)
  {
  }

  /**
   * The counter is never reset, so the budget is shared by all calls: once
   * one call has been rejected, any later call whose first probe fails is
   * rejected at once.
   */
  lemma SharedBudget(count: nat, first: seq<Probe>, later: seq<Probe>)
    requires count <= MaxRetries
    requires Poll(count, first).1.Rejected?
    requires later != [] && later[0] != Present
    ensures Poll(Poll(count, first).0, later) == (MaxRetries, Rejected(later[0] == Threw))
  {
    RejectOnlyWhenExhausted(count, first);
  }

  /** A value the host may hand back through the WebView2 bridge. */
  datatype JsValue =
    | JsNull
    | JsUndefined
    | JsBool(b: bool)
    | JsNumber(n: real)
    | JsString(s: string)
    | JsArray(items: seq<JsValue>)
    | JsObject

  /** `result && Array.isArray(result) && result.length >= 3` */
  predicate WellShaped(result: JsValue) {
    result.JsArray? && |result.items| >= 3
  }

  /** What `getImageData()` resolves to, or why it throws. */
  datatype ImageResult =
    | Image(bytes: seq<u8>, width: JsValue, height: JsValue)
    | HandlerUnavailable(threw: bool)
    | HostRejected
    | StillWaiting
    | BadFormat
    | DecodeFailed

  /** The byte copy loop: `bytes[i] = binary.charCodeAt(i)`, stored modulo 256. */
  method CopyBytes(binary: string) returns (bytes: array<u8>)
    ensures bytes.Length == |binary|
    ensures forall i :: 0 <= i < |binary| ==> bytes[i] as int == (binary[i] as int) % 256
  {
    bytes := new u8[|binary|];
    var i := 0;
    while i < |binary|
      invariant 0 <= i <= |binary| == bytes.Length
      invariant forall k :: 0 <= k < i ==> bytes[k] as int == (binary[k] as int) % 256
    {
      bytes[i] := ToUint8(binary[i] as int);
      i := i + 1;
    }
  }

  class Service {
    var retryCount: nat
    const maxRetries: nat
    const retryInterval: nat

    constructor ()
      ensures retryCount == 0 && maxRetries == MaxRetries && retryInterval == RetryInterval
    {
      retryCount := 0;
      maxRetries := MaxRetries;
      retryInterval := RetryInterval;
    }

    /** `waitForImageHandler()`, run against the outcomes of the successive polls. */
    method WaitForImageHandler(probes: seq<Probe>) returns (outcome: Outcome)
      requires maxRetries == MaxRetries
      modifies this`retryCount
      ensures (retryCount, outcome) == Poll(old(retryCount), probes)
    {
      var i := 0;
      while i < |probes|
        invariant 0 <= i <= |probes|
        invariant Poll(old(retryCount), probes) == Poll(retryCount, probes[i..])
      {
        if probes[i] == Present {
          return Resolved;
        } else if retryCount < maxRetries {
          retryCount := retryCount + 1;
          i := i + 1;
        } else {
          return Rejected(probes[i] == Threw);
        }
      }
      return Waiting;
    }

    /**
     * `getImageData()`: wait for the handler, call it (`hostResult`, `None`
     * when the host call rejects, which the `catch` passes on), check the
     * shape of the answer, decode its first element and copy the bytes.
     */
    method GetImageData(probes: seq<Probe>, hostResult: Option<JsValue>, atob: JsValue -> Option<string>) returns (r: ImageResult)
      requires maxRetries == MaxRetries
      modifies this`retryCount
      ensures retryCount == Poll(old(retryCount), probes).0
      ensures Poll(old(retryCount), probes).1.Waiting? ==> r == StillWaiting
      ensures Poll(old(retryCount), probes).1.Rejected? ==> r == HandlerUnavailable(Poll(old(retryCount), probes).1.threw)
      ensures Poll(old(retryCount), probes).1.Resolved? && hostResult.None? ==> r == HostRejected
      ensures Poll(old(retryCount), probes).1.Resolved? && hostResult.Some? ==> r == Convert(hostResult.value, atob)
    {
      var outcome := WaitForImageHandler(probes);
      match outcome
      case Waiting => return StillWaiting;
      case Rejected(t) => return HandlerUnavailable(t);
      case Resolved =>
        if hostResult.None? {
          return HostRejected;
        }
        var result := hostResult.value;
        if !WellShaped(result) {
          return BadFormat;
        }
        var binary := atob(result.items[0]);
        if binary.None? {
          return DecodeFailed;
        }
        var bytes := CopyBytes(binary.value);
        return Image(bytes[..], result.items[1], result.items[2]);
    }
  }

  /** The answer `getImageData()` gives for a host result once the handler is found. */
  function Convert(result: JsValue, atob: JsValue -> Option<string>): (r: ImageResult)
    ensures r.Image? <==> WellShaped(result) && atob(result.items[0]).Some?
    ensures !WellShaped(result) ==> r == BadFormat
    ensures r.Image? ==> r.width == result.items[1] && r.height == result.items[2]
    ensures r.Image? ==> |r.bytes| == |atob(result.items[0]).value|
    ensures r.Image? ==> forall i :: 0 <= i < |r.bytes| ==> r.bytes[i] as int == (atob(result.items[0]).value[i] as int) % 256
  {
    if !WellShaped(result) then BadFormat
    else match atob(result.items[0])
      case None => DecodeFailed
      case Some(binary) => Image(seq(|binary|, i requires 0 <= i < |binary| => ToUint8(binary[i] as int)), result.items[1], result.items[2])
  }
}
