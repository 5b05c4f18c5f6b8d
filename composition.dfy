/** The controller together with the components it renders: the flight form's
    gated Continue button feeds `handleFlightSubmit`, and the real scanner feeds
    `handleDetected`. The scanner forwards only successful matches, so the
    controller's not-found branch is never taken in the assembled screen. */
module Composition {
  import opened Js
  import F = FlightInput
  import B = BottleInput
  import C = Capture
  import W = Workflow

  /** The controller's state and the state of the scanner on the scan screen. */
  datatype System = System(flow: W.FlowState, scanner: C.ScannerState)

  const Start: System := System(W.Initial, C.Idle)

  /** One operator action, or the settling of the pending scan. */
  datatype Action =
    | ContinueFlight(form: F.FlightData)
    | PressScan(cameraReady: bool)
    | ScanSettled(scan: C.ScanOutcome)
    | ContinuePreview
    | SubmitBottle(qualitative: B.BottleQualitative, registration: W.RegistrationOutcome)
    | RestartFlow

  /** What is on screen decides what can happen: the flight form's button only
      with a flight number, the scanner's callbacks only in the scan step and a
      scan can settle only while one is pending. */
  function Enabled(sys: System, a: Action): (b: bool)
    ensures a.ContinueFlight? ==>
      (b <==> W.Enabled(sys.flow, W.FlightSubmitted(a.form)) && a.form.flight_number != "")
    ensures a.ContinuePreview? ==> (b <==> W.Enabled(sys.flow, W.PreviewContinued))
    ensures a.SubmitBottle? ==> (b <==> W.Enabled(sys.flow, W.BottleSubmitted(a.qualitative, a.registration)))
    ensures a.RestartFlow? ==> (b <==> W.Enabled(sys.flow, W.Restarted))
    ensures a.PressScan? || a.ScanSettled? ==> (b ==> W.Enabled(sys.flow, W.Detected(None)))
    ensures a.ScanSettled? ==> (b ==> sys.scanner.loading)
    ensures a.PressScan? ==> (b <==> sys.flow.step == W.Scan)
    ensures a.ScanSettled? ==> (b <==> sys.flow.step == W.Scan && sys.scanner.loading)
  {
    match a
    case ContinueFlight(form) => sys.flow.step == W.Flight && F.CanSubmit(form)
    case PressScan(_) => sys.flow.step == W.Scan
    case ScanSettled(_) => sys.flow.step == W.Scan && sys.scanner.loading
    case ContinuePreview => W.Enabled(sys.flow, W.PreviewContinued)
    case SubmitBottle(_, _) => sys.flow.step == W.Qualitative
    case RestartFlow => sys.flow.step == W.Done
  }

  /** The scanner is mounted only on the scan screen, and entering that screen mounts a fresh one. */
  function Mount(before: W.FlowState, after: W.FlowState, s: C.ScannerState): (r: C.ScannerState)
    ensures after.step == W.Scan && before.step != W.Scan ==> !r.loading && r.message == ""
    ensures before.step == W.Scan || after.step != W.Scan ==> r == s
  {
    if after.step == W.Scan && before.step != W.Scan then C.Idle else s
  }

  /** The controller's reaction to the settling of a scan: only what the scanner forwards reaches it. */
  function Deliver(flow: W.FlowState, o: C.ScanOutcome): (r: W.FlowState)
    ensures !(o.Responded? && o.data.success && o.data.found) ==> r == flow
    ensures o.Responded? && o.data.success && o.data.found ==> r == W.Apply(flow, W.Detected(Some(o.data)))
    ensures flow.step == W.Scan ==> r.step == W.Scan || r.step == W.Preview
  {
    var v := C.Classify(o);
    if v.forwarded.Some? then W.Apply(flow, W.Detected(v.forwarded)) else flow
  }

  function Apply(sys: System, a: Action): System
  {
    var flow' := match a
      case ContinueFlight(form) => W.Apply(sys.flow, W.FlightSubmitted(form))
      case PressScan(_) => sys.flow
      case ScanSettled(o) => Deliver(sys.flow, o)
      case ContinuePreview => W.Apply(sys.flow, W.PreviewContinued)
      case SubmitBottle(q, o) => W.Apply(sys.flow, W.BottleSubmitted(q, o))
      case RestartFlow => W.Apply(sys.flow, W.Restarted);
    var scanner' := match a
      case PressScan(c) => C.Pressed(sys.scanner, c)
      case ScanSettled(o) => C.Finished(sys.scanner, o)
      case _ => sys.scanner;
    System(flow', Mount(sys.flow, flow', scanner'))
  }

  function Next(sys: System, a: Action): System
  {
    if Enabled(sys, a) then Apply(sys, a) else sys
  }

  function Run(sys: System, acts: seq<Action>): System
    decreases |acts|
  {
    if acts == [] then sys else Run(Next(sys, acts[0]), acts[1..])
  }

  /** The detection held is a successful match with a barcode. */
  predicate Matched(b: Option<C.Recognition>)
  {
    b.Some? && b.value.success && b.value.found && Truthy(b.value.barcode)
  }

  /** The invariant of the assembled screen: the controller's own, a flight
      record with a flight number, and a matched detection from the preview
      step on. */
  ghost predicate Inv(sys: System)
  {
    var s := sys.flow;
    && W.Consistent(s)
    && (s.flightInfo.Some? ==> F.CanSubmit(s.flightInfo.value))
    && (s.step == W.Preview || s.step == W.Qualitative || s.step == W.Done ==> Matched(s.bottleData))
  }

  lemma InvStart()
    ensures Inv(Start)
  {
  }

  lemma InvNext(sys: System, a: Action)
    requires Inv(sys)
    ensures Inv(Next(sys, a))
  {
  }

  lemma {:induction false} InvRun(sys: System, acts: seq<Action>)
    requires Inv(sys)
    ensures Inv(Run(sys, acts))
    decreases |acts|
  {
    if acts != [] {
      InvNext(sys, acts[0]);
      InvRun(Next(sys, acts[0]), acts[1..]);
    }
  }

  /** In the assembled screen the scan step is left only for the preview: the
      controller's branch from `scan` straight to `qualitative` is never taken. */
  lemma ScanLeadsOnlyToPreview(sys: System, a: Action)
    requires sys.flow.step == W.Scan
    ensures Next(sys, a).flow.step == W.Scan || Next(sys, a).flow.step == W.Preview
  {
  }

  /** Whatever the operator does and whatever the services answer, the
      qualitative step is reached only with a found product. */
  lemma QualitativeOnlyAfterMatch(acts: seq<Action>)
    ensures var s := Run(Start, acts).flow;
      s.step == W.Qualitative ==> Matched(s.bottleData)
  {
    InvRun(Start, acts);
  }

  /** A not-found response leaves the controller untouched on the scan screen;
      the scanner's message changes and its loading flag clears. Compare `Workflow.NotFoundRoutesToQualitative`. */
  lemma NotFoundStaysOnScan(sys: System, r: C.Recognition)
    requires sys.flow.step == W.Scan && sys.scanner.loading
    requires r.success && !r.found
    ensures Next(sys, ScanSettled(C.Responded(r))).flow == sys.flow
    ensures Next(sys, ScanSettled(C.Responded(r))).scanner == C.ScannerState(false, C.UnmatchedMessage(r))
  {
  }

  /** Every bottle submission in the assembled screen sends a registration
      request whose barcode is the matched product's and whose flight record is
      the one the flight form passed on, with a flight number. */
  lemma SubmissionAlwaysRegisters(acts: seq<Action>, q: B.BottleQualitative)
    ensures var s := Run(Start, acts).flow;
      s.step == W.Qualitative ==>
        && W.Request(s, q).Some?
        && W.Request(s, q).value.barcode != ""
        && W.Request(s, q).value.flight_number != ""
        && Str(W.Request(s, q).value.barcode) == s.bottleData.value.barcode
        && s.bottleData.value.found
  {
    InvRun(Start, acts);
  }

  /** While a scan is pending, the only actions on screen are its settling and a
      press of the disabled trigger, which changes nothing. */
  lemma PendingScanBlocksOthers(sys: System, a: Action)
    requires sys.flow.step == W.Scan && sys.scanner.loading
    ensures Enabled(sys, a) <==> a.PressScan? || a.ScanSettled?
    ensures a.PressScan? ==> Next(sys, a) == sys
  {
  }

  /** The happy path of the assembled screen: a flight record with a flight
      number, a press with a camera, a matched scan, the preview's Continue and a
      bottle submission lead through `qualitative` to `done`, with the response
      stored. So the reachable-state lemmas above are not vacuous. */
  lemma HappyPathReachesDone(f: F.FlightData, r: C.Recognition, q: B.BottleQualitative, resp: Json)
    requires f.flight_number != ""
    requires r.success && r.found && Truthy(r.barcode)
    ensures var s := Run(Start, [ContinueFlight(f), PressScan(true), ScanSettled(C.Responded(r)), ContinuePreview]).flow;
      s.step == W.Qualitative && s.flightInfo == Some(f) && s.bottleData == Some(r)
    ensures var s := Run(Start, [ContinueFlight(f), PressScan(true), ScanSettled(C.Responded(r)),
                                 ContinuePreview, SubmitBottle(q, W.Ok(resp))]).flow;
      s.step == W.Done && s.result == resp && W.DoneView(s) != W.Spinner
  {
    var a1, a2, a3, a4, a5 := ContinueFlight(f), PressScan(true), ScanSettled(C.Responded(r)),
                              ContinuePreview, SubmitBottle(q, W.Ok(resp));
    var s1 := Next(Start, a1);
    assert s1.flow.step == W.Scan && s1.scanner == C.Idle;
    var s2 := Next(s1, a2);
    assert s2.flow == s1.flow && s2.scanner.loading;
    var s3 := Next(s2, a3);
    assert s3.flow.step == W.Preview && s3.flow.bottleData == Some(r);
    var s4 := Next(s3, a4);
    assert s4.flow.step == W.Qualitative;
    var s5 := Next(s4, a5);
    assert s5.flow.step == W.Done && s5.flow.result == resp;
    assert [a4][1..] == [] && [a3, a4][1..] == [a4] && [a2, a3, a4][1..] == [a3, a4];
    assert [a1, a2, a3, a4][1..] == [a2, a3, a4];
    assert Run(s3, [a4]) == s4;
    assert Run(s2, [a3, a4]) == Run(s3, [a4]);
    assert Run(s1, [a2, a3, a4]) == Run(s2, [a3, a4]);
    assert Run(Start, [a1, a2, a3, a4]) == Run(s1, [a2, a3, a4]);
    assert [a5][1..] == [] && [a4, a5][1..] == [a5] && [a3, a4, a5][1..] == [a4, a5];
    assert [a2, a3, a4, a5][1..] == [a3, a4, a5] && [a1, a2, a3, a4, a5][1..] == [a2, a3, a4, a5];
    assert Run(s4, [a5]) == s5;
    assert Run(s3, [a4, a5]) == Run(s4, [a5]);
    assert Run(s2, [a3, a4, a5]) == Run(s3, [a4, a5]);
    assert Run(s1, [a2, a3, a4, a5]) == Run(s2, [a3, a4, a5]);
    assert Run(Start, [a1, a2, a3, a4, a5]) == Run(s1, [a2, a3, a4, a5]);
  }
}
