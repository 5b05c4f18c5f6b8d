/** The barcode scanner: a trigger that starts one capture-and-recognise round,
    the classification of the recognition response into a status message, and
    the single case in which the response is forwarded to the parent. */
module Capture {
  import opened Js

  /** The recognition service's response as the code reads it. An absent or
      falsy `success` / `found` reads as `false`; each string property may be
      absent, `null` or a string. */
  datatype Recognition = Recognition(
    success: bool,
    found: bool,
    barcode: StringProp,
    product_name: StringProp,
    brand: StringProp,
    category: StringProp,
    bottle_size: StringProp,
    message: StringProp)

  /** How the awaited part of `handleScan` settles: the recognition response, or an
      error thrown by the capture, the image processing or the request. A `null`
      response body throws when `data.success` is read, so it is `Threw` too. */
  datatype ScanOutcome = Responded(data: Recognition) | Threw

  /** The status message to show, and the response handed to `onDetected`, if any. */
  datatype Verdict = Verdict(message: string, forwarded: Option<Recognition>)

  const Scanning: string := "Scanning..."
  const ProductNotFound: string := "Product not found"
  const NoDetection: string := "No barcode detected or server error"
  const ConnectionError: string := "Connection error"

  /** `"<product_name> (<brand>)"`: the interpolated name, then " (", the
      interpolated brand and ")". An absent property reads "undefined", a `null`
      one "null", so the two are told apart in the message. */
  function MatchMessage(d: Recognition): (r: string)
    ensures var n, b := Interpolate(d.product_name), Interpolate(d.brand);
      && |r| == |n| + |b| + 3
      && r[..|n|] == n
      && r[|n|..|n| + 2] == " ("
      && r[|n| + 2..|r| - 1] == b
      && r[|r| - 1] == ')'
    ensures d.product_name.Str? ==> r[..|d.product_name.text|] == d.product_name.text
    ensures d.product_name.Undefined? ==> r[..9] == "undefined"
    ensures d.product_name.Null? ==> r[..4] == "null"
  {
    Interpolate(d.product_name) + " (" + Interpolate(d.brand) + ")"
  }

  /** The message of an unmatched response: its own message when truthy, the
      fixed "Product not found" otherwise; never empty. */
  function UnmatchedMessage(d: Recognition): (r: string)
    ensures r != ""
    ensures Truthy(d.message) ==> d.message == Str(r)
    ensures !Truthy(d.message) ==> r == ProductNotFound
  {
    if Truthy(d.message) then d.message.text else ProductNotFound
  }

  /** The branch of `handleScan` after the awaited calls. Only a successful match
      is forwarded, and it is forwarded unmodified. */
  function Classify(o: ScanOutcome): (v: Verdict)
    ensures v.forwarded.Some? <==> o.Responded? && o.data.success && o.data.found
    ensures v.forwarded.Some? ==> v.forwarded.value == o.data
    ensures o.Threw? ==> v.message == ConnectionError
    ensures o.Responded? && !o.data.success ==> v.message == NoDetection
  {
    match o
    case Threw => Verdict(ConnectionError, None)
    case Responded(d) =>
      if d.success && d.found then Verdict(MatchMessage(d), Some(d))
      else if d.success then Verdict(UnmatchedMessage(d), None)
      else Verdict(NoDetection, None)
  }

  /** The messages of the two successful cases. */
  lemma SuccessMessages(d: Recognition)
    requires d.success
    ensures d.found ==> Classify(Responded(d)).message == MatchMessage(d)
    ensures !d.found && Truthy(d.message) ==> Classify(Responded(d)).message == d.message.text
    ensures !d.found && !Truthy(d.message) ==> Classify(Responded(d)).message == ProductNotFound
  {
  }

  /** A not-found response is never handed to the parent, whatever it carries. */
  lemma NotFoundIsNeverForwarded(o: ScanOutcome, r: Recognition)
    requires Classify(o).forwarded == Some(r)
    ensures r.found && r.success
  {
  }

  /** The scanner's state cells `loading` and `result` (the status message). */
  datatype ScannerState = ScannerState(loading: bool, message: string)

  /** A freshly mounted scanner. */
  const Idle: ScannerState := ScannerState(false, "")

  /** The synchronous part of `handleScan`: with no camera reference nothing
      happens; otherwise `loading` is raised and "Scanning..." shown. */
  function Started(s: ScannerState, cameraReady: bool): ScannerState
  {
    if cameraReady then ScannerState(true, Scanning) else s
  }

  /** A press on the trigger, which is disabled while `loading` is set. */
  function Pressed(s: ScannerState, cameraReady: bool): ScannerState
  {
    if s.loading then s else Started(s, cameraReady)
  }

  /** The continuation of `handleScan` once the awaited calls settle. */
  function Finished(s: ScannerState, o: ScanOutcome): ScannerState
  {
    ScannerState(false, Classify(o).message)
  }

  /** While a scan is pending, pressing the trigger changes nothing: no second scan starts. */
  lemma NoSecondScanWhilePending(s: ScannerState, cameraReady: bool)
    requires s.loading
    ensures Pressed(s, cameraReady) == s
  {
  }

  /** A press starts a scan exactly when none is pending and a camera is attached. */
  lemma PressStartsScan(s: ScannerState, cameraReady: bool)
    ensures Pressed(s, cameraReady).loading <==> s.loading || cameraReady
    ensures !s.loading && cameraReady ==> Pressed(s, cameraReady) == ScannerState(true, Scanning)
  {
  }

  /** `loading` is down once a scan settles, in every outcome, the thrown one included. */
  lemma FinishedClearsLoading(s: ScannerState, o: ScanOutcome)
    ensures !Finished(s, o).loading
    ensures Finished(s, o).message == Classify(o).message
  {
  }

  /** The `BarcodeScanner` component. */
  class BarcodeScanner {
    var loading: bool
    var result: string

    function State(): ScannerState
      reads this
    {
      ScannerState(loading, result)
    }

    constructor ()
      ensures State() == Idle
      ensures !loading && result == ""
    {
      loading := false;
      result := "";
    }

    /** `handleScan` up to its first `await`. `started` says whether the capture was
        launched; without a camera reference the call is a no-op. */
    method HandleScan(cameraReady: bool) returns (started: bool)
      modifies this
      ensures started == cameraReady
      ensures started ==> loading && result == Scanning
      ensures !started ==> loading == old(loading) && result == old(result)
      ensures State() == Started(old(State()), cameraReady)
    {
      if !cameraReady {
        started := false;
        return;
      }
      loading := true;
      result := Scanning;
      started := true;
    }

    /** The rest of `handleScan`, once capture, processing and recognition settle:
        the message is set, a successful match is passed to `onDetected`
        (`forwarded`), and `loading` is cleared in every case. */
    method FinishScan(outcome: ScanOutcome) returns (forwarded: Option<Recognition>)
      requires loading
      modifies this
      ensures !loading
      ensures result == Classify(outcome).message
      ensures forwarded == Classify(outcome).forwarded
      ensures State() == Finished(old(State()), outcome)
    {
      forwarded := None;
      match outcome {
        case Threw =>
          result := ConnectionError;
        case Responded(data) =>
          if data.success && data.found {
            result := MatchMessage(data);
            forwarded := Some(data);
          } else if data.success && !data.found {
            result := UnmatchedMessage(data);
          } else {
            result := NoDetection;
          }
      }
      loading := false;
    }

    /** A press on the trigger (`disabled={loading}`): ignored while a scan is pending. */
    method Press(cameraReady: bool) returns (started: bool)
      modifies this
      ensures started <==> !old(loading) && cameraReady
      ensures old(loading) ==> loading == old(loading) && result == old(result)
      ensures State() == Pressed(old(State()), cameraReady)
    {
      if loading {
        started := false;
      } else {
        started := HandleScan(cameraReady);
      }
    }
  }
}
