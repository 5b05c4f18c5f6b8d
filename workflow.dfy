/** The inspection workflow controller: five state cells, one handler per
    screen, the registration payload, and the invariant that every state the
    handlers can reach from the initial one satisfies. */
module Workflow {
  import opened Js
  import F = FlightInput
  import B = BottleInput
  import C = Capture

  /** The step indicator. */
  datatype Step = Flight | Scan | Preview | Qualitative | Done

  /** The controller's state cells: `step`, `loading`, `flightInfo`, `bottleData`, `result`.
      `result` is any JSON value; `null`, its initial value, is `JNull`, the same
      value a registration answering `null` stores. */
  datatype FlowState = FlowState(
    step: Step,
    loading: bool,
    flightInfo: Option<F.FlightData>,
    bottleData: Option<C.Recognition>,
    result: Json)

  /** The state of a freshly mounted controller. */
  const Initial: FlowState := FlowState(Flight, false, None, None, JNull)

  // ---------------------------------------------------------------------------
  // The registration call
  // ---------------------------------------------------------------------------

  /** The object sent to `registerBarcode`: the barcode, the six flight fields
      side by side, and the qualitative record. It has no other field. */
  datatype Payload = Payload(
    barcode: string,
    airline_code: string,
    flight_number: string,
    service_class: string,
    origin: string,
    destination: string,
    flight_date: string,
    qualitative: B.BottleQualitative)

  /** The flight fields of a payload, read back as a flight record. */
  function FlightOf(p: Payload): F.FlightData
  {
    F.FlightData(p.airline_code, p.flight_number, p.service_class, p.origin, p.destination, p.flight_date)
  }

  /** The payload literal: the flight record and the qualitative record travel unchanged. */
  function MakePayload(barcode: string, flight: F.FlightData, qualitative: B.BottleQualitative): (p: Payload)
    ensures p.barcode == barcode
    ensures FlightOf(p) == flight
    ensures p.qualitative == qualitative
  {
    Payload(barcode, flight.airline_code, flight.flight_number, flight.service_class,
            flight.origin, flight.destination, flight.flight_date, qualitative)
  }

  /** How the awaited `registerBarcode` settles: the parsed response, or a thrown
      error with its message. */
  datatype RegistrationOutcome = Ok(response: Json) | Err(message: string)

  /** `{ error: err.message }`. */
  function ErrorRecord(message: string): Json
  {
    JObject(map["error" := JString(message)])
  }

  /** The value stored in `result` once the call settles. */
  function ResultOf(o: RegistrationOutcome): (j: Json)
    ensures o.Ok? ==> j == o.response
    ensures o.Err? ==> j.JObject? && j.fields.Keys == {"error"} && j.fields["error"] == JString(o.message)
  {
    match o
    case Ok(response) => response
    case Err(message) => ErrorRecord(message)
  }

  /** `bottleData?.barcode` is truthy. */
  predicate HasBarcode(b: Option<C.Recognition>)
  {
    b.Some? && Truthy(b.value.barcode)
  }

  /** The payload `handleBottleSubmit` sends, or `None` when a guard stops it
      before any call is made. */
  function Request(s: FlowState, q: B.BottleQualitative): (p: Option<Payload>)
    ensures p.Some? <==> HasBarcode(s.bottleData) && s.flightInfo.Some?
    ensures p.Some? ==> Str(p.value.barcode) == s.bottleData.value.barcode
    ensures p.Some? ==> FlightOf(p.value) == s.flightInfo.value && p.value.qualitative == q
  {
    if !HasBarcode(s.bottleData) then None
    else if s.flightInfo.None? then None
    else Some(MakePayload(s.bottleData.value.barcode.text, s.flightInfo.value, q))
  }

  // ---------------------------------------------------------------------------
  // The handlers as transitions
  // ---------------------------------------------------------------------------

  /** One handler call. A detection is `None` when `onDetected` receives a falsy value. */
  datatype Event =
    | FlightSubmitted(data: F.FlightData)
    | Detected(info: Option<C.Recognition>)
    | PreviewContinued
    | BottleSubmitted(qualitative: B.BottleQualitative, outcome: RegistrationOutcome)
    | Restarted

  /** A handler can fire only while the screen that renders it is shown. The
      preview's Continue button is rendered only when `bottleData` is set. */
  function Enabled(s: FlowState, e: Event): (b: bool)
    ensures b ==> && (s.step == Flight <==> e.FlightSubmitted?)
                  && (s.step == Scan <==> e.Detected?)
                  && (s.step == Preview <==> e.PreviewContinued?)
                  && (s.step == Qualitative <==> e.BottleSubmitted?)
                  && (s.step == Done <==> e.Restarted?)
    ensures b && e.PreviewContinued? ==> s.bottleData.Some?
    ensures ( || (e.FlightSubmitted? && s.step == Flight)
              || (e.Detected? && s.step == Scan)
              || (e.PreviewContinued? && s.step == Preview && s.bottleData.Some?)
              || (e.BottleSubmitted? && s.step == Qualitative)
              || (e.Restarted? && s.step == Done)) ==> b
  {
    match e
    case FlightSubmitted(_) => s.step == Flight
    case Detected(_) => s.step == Scan
    case PreviewContinued => s.step == Preview && s.bottleData.Some?
    case BottleSubmitted(_, _) => s.step == Qualitative
    case Restarted => s.step == Done
  }

  function OnFlightSubmit(s: FlowState, data: F.FlightData): FlowState
  {
    s.(flightInfo := Some(data), step := Scan)
  }

  function OnDetected(s: FlowState, info: Option<C.Recognition>): FlowState
  {
    if !HasBarcode(info) then s
    else s.(bottleData := info, step := if info.value.found then Preview else Qualitative)
  }

  function OnPreviewContinue(s: FlowState): FlowState
  {
    s.(step := Qualitative)
  }

  function OnBottleSubmit(s: FlowState, q: B.BottleQualitative, o: RegistrationOutcome): FlowState
  {
    if !HasBarcode(s.bottleData) then s.(step := Scan)
    else if s.flightInfo.None? then s.(step := Flight)
    else s.(result := ResultOf(o), step := Done, loading := false)
  }

  function OnRestart(s: FlowState): FlowState
  {
    s.(step := Flight, flightInfo := None, bottleData := None, result := JNull)
  }

  function Apply(s: FlowState, e: Event): FlowState
  {
    match e
    case FlightSubmitted(data) => OnFlightSubmit(s, data)
    case Detected(info) => OnDetected(s, info)
    case PreviewContinued => OnPreviewContinue(s)
    case BottleSubmitted(q, o) => OnBottleSubmit(s, q, o)
    case Restarted => OnRestart(s)
  }

  /** An event whose handler is not on screen has no effect. */
  function Next(s: FlowState, e: Event): FlowState
  {
    if Enabled(s, e) then Apply(s, e) else s
  }

  function Run(s: FlowState, es: seq<Event>): FlowState
    decreases |es|
  {
    if es == [] then s else Run(Next(s, es[0]), es[1..])
  }

  // ---------------------------------------------------------------------------
  // Guards and routing
  // ---------------------------------------------------------------------------

  /** The bottle-submit guards: a missing barcode sends the operator back to
      scanning (even when the flight record is missing too), a missing flight
      record back to the flight form; in both cases no call is made and nothing
      else changes. Otherwise the workflow reaches `done` whatever the outcome. */
  lemma BottleSubmitRouting(s: FlowState, q: B.BottleQualitative, o: RegistrationOutcome)
    ensures !HasBarcode(s.bottleData) ==>
      Request(s, q).None? && OnBottleSubmit(s, q, o) == s.(step := Scan)
    ensures HasBarcode(s.bottleData) && s.flightInfo.None? ==>
      Request(s, q).None? && OnBottleSubmit(s, q, o) == s.(step := Flight)
    ensures Request(s, q).Some? ==>
      OnBottleSubmit(s, q, o).step == Done && !OnBottleSubmit(s, q, o).loading &&
      OnBottleSubmit(s, q, o).result == ResultOf(o)
  {
  }

  /** A registration error is recorded, not raised: the workflow still reaches `done`. */
  lemma FailedRegistrationStillDone(s: FlowState, q: B.BottleQualitative, message: string)
    requires Request(s, q).Some?
    ensures OnBottleSubmit(s, q, Err(message)).step == Done
    ensures OnBottleSubmit(s, q, Err(message)).result == ErrorRecord(message)
  {
  }

  /** The states the handlers can reach from `Initial` keep the data of every
      completed step: past the flight step the flight record is present, past
      the scan step a detection with a barcode is, and `result` is still `null`
      before the `done` step. */
  ghost predicate Consistent(s: FlowState)
  {
    && !s.loading
    && (s.step == Flight <==> s.flightInfo.None?)
    && (s.step == Flight || s.step == Scan ==> s.bottleData.None?)
    && (s.step == Preview || s.step == Qualitative || s.step == Done ==> HasBarcode(s.bottleData))
    && (s.step == Preview ==> s.bottleData.value.found)
    && (s.step != Done ==> s.result == JNull)
  }

  lemma ConsistentNext(s: FlowState, e: Event)
    requires Consistent(s)
    ensures Consistent(Next(s, e))
  {
  }

  lemma {:induction false} ConsistentRun(s: FlowState, es: seq<Event>)
    requires Consistent(s)
    ensures Consistent(Run(s, es))
    decreases |es|
  {
    if es != [] {
      ConsistentNext(s, es[0]);
      ConsistentRun(Next(s, es[0]), es[1..]);
    }
  }

  /** From the initial state, whatever the handlers receive, a bottle submission
      always passes both guards and makes the registration call: the guards only
      defend against a state the controller cannot reach. */
  lemma GuardsAreDefensive(es: seq<Event>, q: B.BottleQualitative)
    ensures var s := Run(Initial, es);
      s.step == Qualitative ==> Request(s, q).Some?
  {
    ConsistentRun(Initial, es);
  }

  /** The controller's own rule routes a valid not-found detection straight from
      `scan` to `qualitative`, skipping the preview. */
  lemma NotFoundRoutesToQualitative(f: F.FlightData, r: C.Recognition)
    requires Truthy(r.barcode) && !r.found
    ensures Run(Initial, [FlightSubmitted(f), Detected(Some(r))]) ==
      FlowState(Qualitative, false, Some(f), Some(r), JNull)
  {
    var s1 := Next(Initial, FlightSubmitted(f));
    assert s1 == FlowState(Scan, false, Some(f), None, JNull);
    var es := [FlightSubmitted(f), Detected(Some(r))];
    assert es[1..] == [Detected(Some(r))];
    assert Run(Initial, es) == Run(s1, [Detected(Some(r))]);
    assert Run(s1, [Detected(Some(r))]) == Run(Next(s1, Detected(Some(r))), []);
  }

  // ---------------------------------------------------------------------------
  // The result screen
  // ---------------------------------------------------------------------------

  /** What the `done` screen shows: a spinner while `loading`, else the stored
      result as raw JSON when it is truthy, else "No result data.". There is no
      mapping of the backend's answer to a display category. */
  datatype ResultView = Spinner | RawJson(value: Json) | NoResultData

  function DoneView(s: FlowState): (r: ResultView)
    ensures r == Spinner <==> s.loading
    ensures r.RawJson? ==> r.value == s.result && JsonTruthy(r.value)
    ensures r == NoResultData <==> !s.loading && !JsonTruthy(s.result)
  {
    if s.loading then Spinner
    else if JsonTruthy(s.result) then RawJson(s.result)
    else NoResultData
  }

  /** After a registration the `done` screen shows what was stored: a truthy
      response as it came, "No result data." for a `null`, `false`, `0` or `""`
      response, and the error record (always truthy) after a thrown error. */
  lemma DoneShowsRawResult(s: FlowState, q: B.BottleQualitative, o: RegistrationOutcome)
    requires Request(s, q).Some?
    ensures o.Ok? && JsonTruthy(o.response) ==> DoneView(OnBottleSubmit(s, q, o)) == RawJson(o.response)
    ensures o.Ok? && !JsonTruthy(o.response) ==> DoneView(OnBottleSubmit(s, q, o)) == NoResultData
    ensures o.Err? ==> DoneView(OnBottleSubmit(s, q, o)) == RawJson(ErrorRecord(o.message))
  {
  }

  /** The spinner of the `done` screen is never shown in a reachable state: the
      only handler that raises `loading` lowers it before it returns. */
  lemma DoneNeverShowsSpinner(es: seq<Event>)
    ensures var s := Run(Initial, es);
      s.step == Done ==> DoneView(s) != Spinner
  {
    ConsistentRun(Initial, es);
  }

  // ---------------------------------------------------------------------------
  // The component
  // ---------------------------------------------------------------------------

  /** The `InspectionFlow` component. */
  class InspectionFlow {
    var step: Step
    var loading: bool
    var flightInfo: Option<F.FlightData>
    var bottleData: Option<C.Recognition>
    var result: Json

    function State(): FlowState
      reads this
    {
      FlowState(step, loading, flightInfo, bottleData, result)
    }

    constructor ()
      ensures State() == Initial
      ensures step == Flight && !loading && flightInfo.None? && bottleData.None? && result == JNull
    {
      step := Flight;
      loading := false;
      flightInfo := None;
      bottleData := None;
      result := JNull;
    }

    /** `handleFlightSubmit`: stores exactly the submitted record and moves to `scan`. */
    method HandleFlightSubmit(data: F.FlightData)
      requires step == Flight
      modifies this
      ensures flightInfo == Some(data) && step == Scan
      ensures loading == old(loading) && bottleData == old(bottleData) && result == old(result)
      ensures State() == Apply(old(State()), FlightSubmitted(data))
    {
      flightInfo := Some(data);
      step := Scan;
    }

    /** `handleDetected`: a falsy detection, or one without a barcode, changes
        nothing; a valid one replaces `bottleData` and moves to `preview` when
        found, to `qualitative` otherwise. */
    method HandleDetected(info: Option<C.Recognition>)
      requires step == Scan
      modifies this
      ensures !HasBarcode(info) ==> step == old(step) && bottleData == old(bottleData)
      ensures HasBarcode(info) ==>
        bottleData == info && step == (if info.value.found then Preview else Qualitative)
      ensures loading == old(loading) && flightInfo == old(flightInfo) && result == old(result)
      ensures State() == Apply(old(State()), Detected(info))
    {
      if info.None? || !Truthy(info.value.barcode) {
        return;
      }
      bottleData := info;
      if info.value.found {
        step := Preview;
      } else {
        step := Qualitative;
      }
    }

    /** `handlePreviewContinue`: moves to `qualitative` and changes nothing else. */
    method HandlePreviewContinue()
      requires step == Preview && bottleData.Some?
      modifies this
      ensures step == Qualitative
      ensures loading == old(loading) && flightInfo == old(flightInfo)
      ensures bottleData == old(bottleData) && result == old(result)
      ensures State() == Apply(old(State()), PreviewContinued)
    {
      step := Qualitative;
    }

    /** `handleBottleSubmit`: the two guards, then the payload, the awaited
        registration (whose outcome is the parameter `outcome`) and the result.
        `request` is the payload sent, `None` when no call is made. */
    method HandleBottleSubmit(qualitative: B.BottleQualitative, outcome: RegistrationOutcome)
      returns (request: Option<Payload>)
      requires step == Qualitative
      modifies this
      ensures request.None? <==> !HasBarcode(old(bottleData)) || old(flightInfo).None?
      ensures request.Some? ==> Str(request.value.barcode) == old(bottleData).value.barcode
      ensures request.Some? ==> FlightOf(request.value) == old(flightInfo).value
      ensures request.Some? ==> request.value.qualitative == qualitative
      ensures !HasBarcode(old(bottleData)) ==> step == Scan && loading == old(loading) && result == old(result)
      ensures HasBarcode(old(bottleData)) && old(flightInfo).None? ==>
        step == Flight && loading == old(loading) && result == old(result)
      ensures request.Some? ==> step == Done && !loading && result == ResultOf(outcome)
      ensures flightInfo == old(flightInfo) && bottleData == old(bottleData)
      ensures State() == Apply(old(State()), BottleSubmitted(qualitative, outcome))
    {
      if !HasBarcode(bottleData) {
        step := Scan;
        request := None;
        return;
      }
      if flightInfo.None? {
        step := Flight;
        request := None;
        return;
      }
      var payload := MakePayload(bottleData.value.barcode.text, flightInfo.value, qualitative);
      request := Some(payload);
      loading := true;
      match outcome {
        case Ok(response) =>
          result := response;
          step := Done;
        case Err(message) =>
          result := ErrorRecord(message);
          step := Done;
      }
      loading := false;
    }

    /** `restart`: back to the flight step with the flight record, the detection
        and the result cleared. */
    method Restart()
      requires step == Done
      modifies this
      ensures step == Flight && flightInfo.None? && bottleData.None? && result == JNull
      ensures loading == old(loading)
      ensures State() == Apply(old(State()), Restarted)
    {
      step := Flight;
      flightInfo := None;
      bottleData := None;
      result := JNull;
    }
  }
}
