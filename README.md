# Bottle inspection workflow — a Dafny model

The app walks an operator through inspecting a bottle found on an aircraft. The
steps are: enter the flight, scan the bottle's barcode, preview the matched
product, fill in qualitative details, and send the whole record to the
registration backend. This project models the controller that sequences those
steps (`InspectionFlow`) and the three components it renders:

- the flight form (`FlightForm`);
- the barcode scanner (`BarcodeScanner`);
- the bottle details form (`BottleForm`).

Each component is a class whose fields are the component's React state cells.
Each handler is a method that says what the new state is. The same handlers are
also written as pure transition functions. Lemmas about those functions cover
whole runs: the controller alone (`Workflow`), and the controller wired to the
real scanner and to the flight form's gated button (`Composition`).

Modules:

- `Js` (js.dfy): the JavaScript rules the components share: string properties that may be absent or `null`, truthiness of strings and of JSON values, template interpolation, JSON values;
- `BottleInput` (bottle_input.dfy): components/ui/bottle-form.tsx;
- `FlightInput` (flight_input.dfy): components/ui/flight-form.tsx, including the initial date `new Date().toISOString().split("T")[0]`;
- `Capture` (capture.dfy): components/ui/barcode-scanner.tsx;
- `Workflow` (workflow.dfy): components/screens/inspection-flow.tsx;
- `Composition` (composition.dfy): the assembled screen, that is, the controller together with the components it renders.

Supplied as parameters, because they are I/O:

- the three service calls: `LookupOutcome`, `ScanOutcome` and `RegistrationOutcome`;
- whether a camera reference exists (`cameraReady`);
- the current instant (`UtcInstant`).

A string property of a loosely typed response is a `StringProp`: absent
(`undefined`), `null`, or a string. It is truthy when it holds a non-empty
string. Inside a template literal an absent property reads "undefined" and a
`null` one reads "null". A loosely typed boolean property is a `bool`, and
absent or falsy reads as `false`. The controller's `result` cell is a JSON
value; its initial `null` is `JNull`, the same value a registration that answers
`null` stores, and the result screen shows "No result data." for every falsy
value (`null`, `false`, `0`, `""`).

Where the code and the design description disagree, the model follows the code:

- The scanner calls `onDetected` only when `success && found`. An unmatched
  response therefore never reaches the controller, and the controller's branch
  from `scan` to `qualitative` is dead in the assembled screen. The design
  describes that branch as the normal path for an unmatched barcode. The
  controller's rule is modelled as written (`Workflow.NotFoundRoutesToQualitative`).
  `Composition.ScanLeadsOnlyToPreview` and `Composition.QualitativeOnlyAfterMatch`
  show that the branch cannot be reached.
- The qualitative record has three free-text fields (`condition`, `seal`,
  `fill_level`). There are no enumerated options, no defaults, no cleanliness
  field and no validation.
- The result screen shows the stored result as raw JSON when it is truthy.
  There is no mapping of the recommended action to a display category
  (`Workflow.DoneView`).
- Nothing detects stale responses: there is no epoch or cancellation counter.
- A registration response is stored whatever its content. An error payload
  returned by the backend is treated like a successful one. Only a thrown
  error produces the `{ error: message }` record.

## Model

| member | source | states |
|---|---|---|
| `BottleInput.With` | components/ui/bottle-form.tsx:21 | editing key `k` to `v` sets that field to `v` and keeps the other two |
| `BottleInput.KeysAreTheFields` | components/ui/bottle-form.tsx:16 | the editable keys are exactly `condition`, `seal`, `fill_level`, each once, in render order |
| `BottleInput.EditOverwrites` | components/ui/bottle-form.tsx:21 | a second edit of the same key replaces the first |
| `BottleInput.EditsCommute` | components/ui/bottle-form.tsx:21 | edits of different keys do not interfere |
| `BottleInput.FillGet` | components/ui/bottle-form.tsx:16-21 | typing a record's values into a list of inputs sets exactly those keys to the record's values and leaves the others as they were |
| `BottleInput.EveryRecordIsEnterable` | components/ui/bottle-form.tsx:11-24 | from the empty form, typing any record (empty fields included) into the inputs in render order yields that record |
| `BottleInput.BottleForm.constructor` | components/ui/bottle-form.tsx:11 | the form starts with all three fields empty |
| `BottleInput.BottleForm.Edit` | components/ui/bottle-form.tsx:16-23 | one key changes, the other two keep their values |
| `BottleInput.BottleForm.Submit` | components/ui/bottle-form.tsx:25 | submit hands over the current form unchanged, with no validation |
| `FlightInput.With` | components/ui/flight-form.tsx:55-57 | `handleChange(k, v)` sets field `k` to `v` and keeps every other field |
| `FlightInput.TextInputsKeepAirlineCode` | components/ui/flight-form.tsx:66-108 | no editable input can change `airline_code` |
| `FlightInput.SubmitGateOnlyReadsFlightNumber` | components/ui/flight-form.tsx:110-114 | the Continue gate depends on `flight_number` only: editing another field never opens or closes it |
| `FlightInput.Digits` | components/ui/flight-form.tsx:26 | zero-padded fields of the ISO timestamp have the given width and hold digits only |
| `FlightInput.SplitFirst` | components/ui/flight-form.tsx:26 | `split(sep)[0]` is a prefix without `sep` that ends at the first `sep` or at the end |
| `FlightInput.SplitFirstOfJoin` | components/ui/flight-form.tsx:26 | splitting `a + sep + b` at the first `sep` gives `a` when `a` has no `sep` |
| `FlightInput.DigitsRoundTrip` | components/ui/flight-form.tsx:26 | reading a zero-padded field back gives the number written |
| `FlightInput.InitialDateIsDatePart` | components/ui/flight-form.tsx:26 | the initial `flight_date` is the `YYYY-MM-DD` part of the ISO timestamp, that is, the UTC date of the instant |
| `FlightInput.DatePartRoundTrip` | components/ui/flight-form.tsx:26 | the date is ten characters with dashes at 4 and 7, and reads back as year, month and day |
| `FlightInput.Resolve` | components/ui/flight-form.tsx:40-47 | the code is set exactly when the response has a truthy `airline_code`; otherwise the not-found message, or the fetch-error message for a thrown error |
| `FlightInput.FlightForm.constructor` | components/ui/flight-form.tsx:20-30 | every field is empty except `flight_date`, which is the current instant's UTC date as `YYYY-MM-DD` and reads back as its year, month and day; not loading, no error. The instant is a real calendar date and time, as `new Date()` yields |
| `FlightInput.FlightForm.StartLookup` | components/ui/flight-form.tsx:34-39 | with no selected airline nothing happens; otherwise the error is cleared, `loading` is set and the name is requested; the form is untouched |
| `FlightInput.FlightForm.CompleteLookup` | components/ui/flight-form.tsx:39-50 | a truthy code changes only `airline_code`; otherwise the form is kept and the matching error is set; `loading` ends false |
| `FlightInput.FlightForm.HandleChange` | components/ui/flight-form.tsx:55-57 | the form becomes the old form with one field replaced; `loading` and `error` are untouched |
| `FlightInput.FlightForm.Press` | components/ui/flight-form.tsx:110-114 | submit fires exactly when `flight_number` is non-empty, whatever `airline_code` or `loading`, and passes the whole form |
| `Capture.MatchMessage` | components/ui/barcode-scanner.tsx:52 | the match message is the interpolated `product_name`, " (", the interpolated `brand` and ")"; an absent name reads "undefined", a `null` one "null" |
| `Capture.UnmatchedMessage` | components/ui/barcode-scanner.tsx:55 | the response's own `message` when truthy, else "Product not found"; never empty |
| `Capture.Classify` | components/ui/barcode-scanner.tsx:51-61 | a response is forwarded iff `success && found`, and then unmodified; a thrown error gives "Connection error"; `!success` gives "No barcode detected or server error" |
| `Capture.SuccessMessages` | components/ui/barcode-scanner.tsx:51-55 | a match shows `"<product_name> (<brand>)"`; no match shows the response's truthy `message`, else "Product not found"; absent and `null` properties are rendered differently |
| `Capture.NotFoundIsNeverForwarded` | components/ui/barcode-scanner.tsx:51-55 | whatever reaches `onDetected` is a successful, found response |
| `Capture.NoSecondScanWhilePending` | components/ui/barcode-scanner.tsx:97 | a press while `loading` changes nothing |
| `Capture.PressStartsScan` | components/ui/barcode-scanner.tsx:26-30 | a press starts a scan exactly when none is pending and a camera is attached, showing "Scanning..." |
| `Capture.FinishedClearsLoading` | components/ui/barcode-scanner.tsx:62-64 | `loading` is false after every outcome, the thrown one included |
| `Capture.BarcodeScanner.constructor` | components/ui/barcode-scanner.tsx:23-24 | the scanner starts not loading, with an empty message |
| `Capture.BarcodeScanner.HandleScan` | components/ui/barcode-scanner.tsx:26-30 | with no camera reference it is a no-op; otherwise `loading` is set and "Scanning..." shown |
| `Capture.BarcodeScanner.FinishScan` | components/ui/barcode-scanner.tsx:47-64 | the message and the forwarded response are those of `Classify`; `loading` ends false |
| `Capture.BarcodeScanner.Press` | components/ui/barcode-scanner.tsx:97 | the disabled trigger ignores presses while a scan is pending |
| `Js.FalsyJson` | components/screens/inspection-flow.tsx:156 | the JSON values a truthiness test rejects are exactly `null`, `false`, `0` and `""` |
| `Workflow.Enabled` | components/screens/inspection-flow.tsx:119-147 | a handler is enabled exactly when its step is shown: each step renders one handler, the preview's Continue only when `bottleData` is set |
| `Workflow.MakePayload` | components/screens/inspection-flow.tsx:78-87 | the payload is the barcode, the six flight fields read back unchanged, and the qualitative record unchanged |
| `Workflow.ResultOf` | components/screens/inspection-flow.tsx:89-101 | a response is stored as it came; a failure is stored as the object `{error: message}` |
| `Workflow.Request` | components/screens/inspection-flow.tsx:65-87 | a call is made iff a barcode and a flight record are present, with that barcode, that flight record and the submitted qualitative record |
| `Workflow.BottleSubmitRouting` | components/screens/inspection-flow.tsx:65-104 | no barcode: back to `scan` with no call, even with no flight record; no flight record: back to `flight` with no call; otherwise `done`, not loading, with the result stored |
| `Workflow.FailedRegistrationStillDone` | components/screens/inspection-flow.tsx:94-101 | a failed registration still reaches `done`, with the error record as result |
| `Workflow.ConsistentNext` | components/screens/inspection-flow.tsx:119-171 | every handler that is on screen keeps the controller's reachable-state invariant |
| `Workflow.ConsistentRun` | components/screens/inspection-flow.tsx:25-113 | every run of handler calls keeps that invariant |
| `Workflow.GuardsAreDefensive` | components/screens/inspection-flow.tsx:66-76 | from the initial state, a bottle submission always passes both guards |
| `Workflow.NotFoundRoutesToQualitative` | components/screens/inspection-flow.tsx:52-57 | given alone, a valid not-found detection moves the controller from `scan` to `qualitative` and stores it |
| `Workflow.DoneView` | components/screens/inspection-flow.tsx:152-157 | the spinner exactly while `loading`; otherwise the stored result as raw JSON only when it is truthy, and "No result data." exactly for a falsy result |
| `Workflow.DoneShowsRawResult` | components/screens/inspection-flow.tsx:149-158 | after a registration the result screen shows a truthy response unchanged, "No result data." for a falsy one, and the error record after a thrown error; no category mapping |
| `Workflow.DoneNeverShowsSpinner` | components/screens/inspection-flow.tsx:89-104 | in the model, where `setResult`, `setStep("done")` and `setLoading(false)` take effect together, no reachable `done` state shows the spinner |
| `Workflow.InspectionFlow.constructor` | components/screens/inspection-flow.tsx:25-29 | initial state: step `flight`, not loading, no flight record, detection or result |
| `Workflow.InspectionFlow.HandleFlightSubmit` | components/screens/inspection-flow.tsx:32-35 | stores exactly the submitted record and moves to `scan`; nothing else changes |
| `Workflow.InspectionFlow.HandleDetected` | components/screens/inspection-flow.tsx:38-59 | a falsy detection or one without a barcode changes nothing; a valid one replaces `bottleData` and moves to `preview` if found, else `qualitative` |
| `Workflow.InspectionFlow.HandlePreviewContinue` | components/screens/inspection-flow.tsx:62 | moves from `preview` to `qualitative` and changes nothing else |
| `Workflow.InspectionFlow.HandleBottleSubmit` | components/screens/inspection-flow.tsx:65-105 | the guards, the payload sent, the result per outcome, `done` in both outcomes, and `loading` false afterwards |
| `Workflow.InspectionFlow.Restart` | components/screens/inspection-flow.tsx:108-113 | step `flight`, with flight record, detection and result cleared |
| `Composition.Enabled` | components/screens/inspection-flow.tsx:119-147 | the assembled screen enables exactly what the controller renders, the flight form's Continue only with a non-empty flight number (components/ui/flight-form.tsx:112), the trigger exactly in the scan step, and the settling of a scan exactly while one is pending there |
| `Composition.PendingScanBlocksOthers` | components/ui/barcode-scanner.tsx:97 | while a scan is pending, only its settling and a press of the trigger are enabled, and the press changes nothing |
| `Composition.Mount` | components/screens/inspection-flow.tsx:123-128 | entering the scan step mounts a fresh, idle scanner; otherwise the scanner's state is kept |
| `Composition.Deliver` | components/ui/barcode-scanner.tsx:51-53 | the controller sees a settled scan only when it is a successful match; from `scan` it then stays there or moves to `preview` |
| `Composition.InvStart` | components/screens/inspection-flow.tsx:25-29 | the mounted screen satisfies the joint invariant |
| `Composition.InvNext` | components/screens/inspection-flow.tsx:119-147 | every action of the assembled screen keeps the joint invariant |
| `Composition.InvRun` | components/screens/inspection-flow.tsx:119-147 | every run of actions keeps the joint invariant |
| `Composition.ScanLeadsOnlyToPreview` | components/ui/barcode-scanner.tsx:51-58 | with the real scanner, the scan step is left only for `preview` |
| `Composition.QualitativeOnlyAfterMatch` | components/screens/inspection-flow.tsx:52-57 | in every reachable state, `qualitative` holds a successful, found detection with a barcode |
| `Composition.NotFoundStaysOnScan` | components/ui/barcode-scanner.tsx:54-55 | an unmatched response leaves the controller untouched; the scanner's message changes and its loading flag clears |
| `Composition.HappyPathReachesDone` | components/screens/inspection-flow.tsx:119-158 | with a flight number, a camera and a matched scan, the assembled screen passes `qualitative` and reaches `done` with the response stored and no spinner |
| `Composition.SubmissionAlwaysRegisters` | components/screens/inspection-flow.tsx:66-87 | every reachable bottle submission sends a payload with the matched barcode and a non-empty flight number |

## Left out

- Network calls (utils/api.ts): `getAirlineByName`, `scanBarcodeImage` and `registerBarcode` are replaced by outcome values given to the handlers. HTTP status, URLs and JSON encoding are not modelled. A non-2xx answer whose body parses counts as a response.
- Camera plumbing is not modelled: capture, image compression, the permission effect and its "Camera access denied" message. Any error thrown by capture or processing is part of `ScanOutcome.Threw`.
- `Alert.alert` popups and `console.error` are not modelled. The scanner's and the flight form's messages are kept as state.
- Rendering, styles, `TabTitle` and the app screens are not modelled. The one exception is which handler is on screen in each step (`Workflow.Enabled`, `Composition.Enabled`) and what the result screen shows (`Workflow.DoneView`).
- Asynchronous interleaving is modelled only for the scan. In `Composition` the scan's continuation is an action of its own (`ScanSettled`); while it is pending the only other enabled action is a press of the trigger, which changes nothing (`Composition.PendingScanBlocksOthers`). The airline lookup is split into `FlightForm.StartLookup` and `FlightForm.CompleteLookup`, but `Composition` takes the flight form's record as submitted and does not interleave the lookup with other actions. The registration call completes within `HandleBottleSubmit`. A response that settles after unmount, or a second lookup started by a changed `selectedAirline`, is not represented.
- `Workflow.InspectionFlow.HandleBottleSubmit` sets `loading` and clears it within the same call, so the window while the registration is pending is not represented. In that window the qualitative form stays on screen with its submit button enabled and no spinner is shown (the spinner is rendered only in the `done` step); a second submission during that window is not modelled.
- "Finish & Return Home" (`onReturnHome`) belongs to the enclosing app and is not modelled.
- JavaScript truthiness is modelled for strings, booleans and JSON values. A non-string `barcode`, `product_name`, `brand`, `category`, `bottle_size`, `airline_code` or `message` value is not represented.
- `Workflow.DoneNeverShowsSpinner`: renders between the three state updates that follow the registration call (`setResult`, `setStep("done")`, then `setLoading(false)` in `finally`) are not represented. Without automatic batching, `done` could render once with `loading` still true and show the spinner; the model applies the three updates as one step.
- `Capture.BarcodeScanner.FinishScan` assumes that the parent's `onDetected` returns normally. The callback is called inside the `try`. A callback that throws, or a missing one (a scanner mounted without `onDetected`), turns a match's message into "Connection error"; the model always shows the match message. The controller's `handleDetected` does not throw, so the assembled screen is unaffected.
- JSON numbers are integers. Floating point is not modelled.
- `FlightInput.ToIsoString` covers years 0 to 9999 only. The extended `±YYYYYY` format that `toISOString` uses for other years is not modelled; `Digits` would keep only the last four digits.
