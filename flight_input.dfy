/** The flight information form: six string fields, an airline-code lookup
    started when the form mounts, per-field edits, and a submit button gated on
    the flight number. */
module FlightInput {
  import opened Js

  /** `FlightData`: every field is a string, `service_class` included. */
  datatype FlightData = FlightData(
    airline_code: string,
    flight_number: string,
    service_class: string,
    origin: string,
    destination: string,
    flight_date: string)

  /** `keyof FlightData`, the keys `handleChange` accepts. */
  datatype Field = AirlineCode | FlightNumber | ServiceClass | Origin | Destination | FlightDate

  /** The fields that have an editable text input wired to `handleChange`, in render order.
      The airline-code input is read-only and has no change handler. */
  const TextInputs: seq<Field> := [FlightNumber, ServiceClass, Origin, Destination, FlightDate]

  function Get(f: FlightData, k: Field): string
  {
    match k
    case AirlineCode => f.airline_code
    case FlightNumber => f.flight_number
    case ServiceClass => f.service_class
    case Origin => f.origin
    case Destination => f.destination
    case FlightDate => f.flight_date
  }

  /** `{ ...prev, [key]: value }`: the record with one field replaced. */
  function With(f: FlightData, k: Field, v: string): (r: FlightData)
    ensures Get(r, k) == v
    ensures forall k' :: k' != k ==> Get(r, k') == Get(f, k')
  {
    match k
    case AirlineCode => f.(airline_code := v)
    case FlightNumber => f.(flight_number := v)
    case ServiceClass => f.(service_class := v)
    case Origin => f.(origin := v)
    case Destination => f.(destination := v)
    case FlightDate => f.(flight_date := v)
  }

  /** The form's initial value, given the date string computed at mount time. */
  function InitialForm(today: string): FlightData
  {
    FlightData("", "", "", "", "", today)
  }

  /** Whether the Continue button is enabled (`disabled={!form.flight_number}`). */
  predicate CanSubmit(f: FlightData)
  {
    f.flight_number != ""
  }

  /** No text input of the form can change the airline code. */
  lemma TextInputsKeepAirlineCode(f: FlightData, i: nat, v: string)
    requires i < |TextInputs|
    ensures With(f, TextInputs[i], v).airline_code == f.airline_code
  {
  }

  /** The submit gate looks at the flight number only: editing any other field,
      the airline code included, never opens or closes it. */
  lemma SubmitGateOnlyReadsFlightNumber(f: FlightData, k: Field, v: string)
    ensures k != FlightNumber ==> CanSubmit(With(f, k, v)) == CanSubmit(f)
    ensures k == FlightNumber ==> (CanSubmit(With(f, k, v)) <==> v != "")
  {
  }

  // ---------------------------------------------------------------------------
  // The initial flight date: new Date().toISOString().split("T")[0]
  // ---------------------------------------------------------------------------

  /** A point in time in UTC, as `Date.prototype.toISOString` reads it. */
  datatype UtcInstant = UtcInstant(
    year: nat, month: nat, day: nat,
    hour: nat, minute: nat, second: nat, millisecond: nat)

  /** Gregorian leap years. */
  predicate LeapYear(y: nat)
  {
    y % 4 == 0 && (y % 100 != 0 || y % 400 == 0)
  }

  /** The number of days in month `m` of year `y`. */
  function DaysInMonth(y: nat, m: nat): (d: nat)
    requires 1 <= m <= 12
    ensures 28 <= d <= 31
    ensures m == 2 ==> (d == 29 <==> LeapYear(y))
  {
    if m == 2 then (if LeapYear(y) then 29 else 28)
    else if m == 4 || m == 6 || m == 9 || m == 11 then 30
    else 31
  }

  /** An instant `new Date()` can yield within the four-digit year range: a real
      calendar date and a time of day. */
  predicate ValidInstant(t: UtcInstant)
  {
    t.year <= 9999 && 1 <= t.month <= 12 && 1 <= t.day <= DaysInMonth(t.year, t.month) &&
    t.hour < 24 && t.minute < 60 && t.second < 60 && t.millisecond < 1000
  }

  predicate IsDigit(c: char)
  {
    '0' <= c <= '9'
  }

  function Pow10(n: nat): nat
  {
    if n == 0 then 1 else 10 * Pow10(n - 1)
  }

  function DigitChar(d: nat): char
    requires d < 10
  {
    ('0' as int + d) as char
  }

  /** The last `width` decimal digits of `n`, zero-padded on the left. */
  function Digits(n: nat, width: nat): (r: string)
    ensures |r| == width
    ensures forall i :: 0 <= i < |r| ==> IsDigit(r[i])
    decreases width
  {
    if width == 0 then "" else Digits(n / 10, width - 1) + [DigitChar(n % 10)]
  }

  /** The number a string of decimal digits denotes. */
  function DigitsValue(s: string): int
  {
    if s == [] then 0 else 10 * DigitsValue(s[..|s| - 1]) + (s[|s| - 1] as int - '0' as int)
  }

  /** `YYYY-MM-DD`. */
  function DatePart(t: UtcInstant): string
  {
    Digits(t.year, 4) + "-" + Digits(t.month, 2) + "-" + Digits(t.day, 2)
  }

  /** `YYYY-MM-DDTHH:mm:ss.sssZ`, the result of `toISOString()` for years 0 to 9999. */
  function ToIsoString(t: UtcInstant): string
  {
    DatePart(t) + "T" +
    Digits(t.hour, 2) + ":" + Digits(t.minute, 2) + ":" + Digits(t.second, 2) + "." +
    Digits(t.millisecond, 3) + "Z"
  }

  /** `s.split(sep)[0]`: the text before the first `sep`, or all of `s` when there is none. */
  function SplitFirst(s: string, sep: char): (r: string)
    ensures r <= s
    ensures sep !in r
    ensures |r| < |s| ==> s[|r|] == sep
  {
    if s == [] || s[0] == sep then "" else [s[0]] + SplitFirst(s[1..], sep)
  }

  /** Splitting at the first separator recovers the part before it. */
  lemma {:induction false} SplitFirstOfJoin(a: string, sep: char, b: string)
    requires sep !in a
    ensures SplitFirst(a + [sep] + b, sep) == a
  {
    var s := a + [sep] + b;
    if a == [] {
      assert s[0] == sep;
    } else {
      assert s[0] == a[0] && s[1..] == a[1..] + [sep] + b;
      SplitFirstOfJoin(a[1..], sep, b);
    }
  }

  /** Reading the digits back gives the number that was written, when it fits. */
  lemma {:induction false} DigitsRoundTrip(n: nat, width: nat)
    requires n < Pow10(width)
    ensures DigitsValue(Digits(n, width)) == n
    decreases width
  {
    if width > 0 {
      var d := Digits(n / 10, width - 1);
      assert Digits(n, width) == d + [DigitChar(n % 10)];
      assert (d + [DigitChar(n % 10)])[..|d|] == d;
      DigitsRoundTrip(n / 10, width - 1);
    }
  }

  /** The initial `flight_date` is the instant's calendar date, `YYYY-MM-DD`. */
  lemma InitialDateIsDatePart(t: UtcInstant)
    ensures SplitFirst(ToIsoString(t), 'T') == DatePart(t)
  {
    var date := DatePart(t);
    assert forall i :: 0 <= i < |date| ==> date[i] == '-' || IsDigit(date[i]);
    var rest := Digits(t.hour, 2) + ":" + Digits(t.minute, 2) + ":" + Digits(t.second, 2) + "." +
                Digits(t.millisecond, 3) + "Z";
    assert ToIsoString(t) == date + ['T'] + rest;
    SplitFirstOfJoin(date, 'T', rest);
  }

  /** The date string has the `YYYY-MM-DD` layout and reads back as the instant's date. */
  lemma DatePartRoundTrip(t: UtcInstant)
    requires ValidInstant(t)
    ensures |DatePart(t)| == 10 && DatePart(t)[4] == '-' && DatePart(t)[7] == '-'
    ensures DigitsValue(DatePart(t)[..4]) == t.year
    ensures DigitsValue(DatePart(t)[5..7]) == t.month
    ensures DigitsValue(DatePart(t)[8..]) == t.day
  {
    var y, m, d := Digits(t.year, 4), Digits(t.month, 2), Digits(t.day, 2);
    assert DatePart(t) == y + "-" + m + "-" + d;
    assert DatePart(t)[..4] == y;
    assert DatePart(t)[5..7] == m;
    assert DatePart(t)[8..] == d;
    assert Pow10(2) == 100 && Pow10(4) == 10000;
    DigitsRoundTrip(t.year, 4);
    DigitsRoundTrip(t.month, 2);
    DigitsRoundTrip(t.day, 2);
  }

  // ---------------------------------------------------------------------------
  // The airline-code lookup
  // ---------------------------------------------------------------------------

  /** How `getAirlineByName` settles: a response whose `airline_code` property
      may be absent, `null` or a string (a null response reads as absent), or a
      thrown error. */
  datatype LookupOutcome = Responded(airline_code: StringProp) | Threw

  /** What the form does with the outcome. */
  datatype LookupEffect = SetCode(code: string) | ShowError(message: string)

  const AirlineNotFound: string := "Airline not found in database"
  const LookupFailed: string := "Error fetching airline code"

  function Resolve(o: LookupOutcome): (e: LookupEffect)
    ensures e.SetCode? <==> o.Responded? && Truthy(o.airline_code)
    ensures e.SetCode? ==> o.airline_code == Str(e.code)
    ensures e.ShowError? ==> e.message == (if o.Threw? then LookupFailed else AirlineNotFound)
  {
    match o
    case Responded(code) => if Truthy(code) then SetCode(code.text) else ShowError(AirlineNotFound)
    case Threw => ShowError(LookupFailed)
  }

  /** The `FlightForm` component: state cells `form`, `loading` and `error`. */
  class FlightForm {
    var form: FlightData
    var loading: bool
    var error: Option<string>

    /** Mounting the form at instant `now`. */
    constructor (now: UtcInstant)
      requires ValidInstant(now)
      ensures form == InitialForm(DatePart(now))
      ensures |form.flight_date| == 10 && DigitsValue(form.flight_date[..4]) == now.year
      ensures DigitsValue(form.flight_date[5..7]) == now.month && DigitsValue(form.flight_date[8..]) == now.day
      ensures forall k :: k != FlightDate ==> Get(form, k) == ""
      ensures !loading && error == None
    {
      InitialDateIsDatePart(now);
      DatePartRoundTrip(now);
      form := InitialForm(SplitFirst(ToIsoString(now), 'T'));
      loading := false;
      error := None;
    }

    /** The synchronous part of `fetchAirlineCode`: nothing happens without a
        selected airline; otherwise the error is cleared, `loading` is raised and
        the name is sent to the lookup service (`request`). */
    method StartLookup(selectedAirline: StringProp) returns (request: Option<string>)
      modifies this
      ensures Truthy(selectedAirline) ==> request == Some(selectedAirline.text) && loading && error == None
      ensures !Truthy(selectedAirline) ==> request == None && loading == old(loading) && error == old(error)
      ensures form == old(form)
    {
      if !Truthy(selectedAirline) {
        request := None;
        return;
      }
      loading := true;
      error := None;
      request := Some(selectedAirline.text);
    }

    /** The continuation of `fetchAirlineCode` once the lookup settles: a truthy
        code fills only `airline_code`; otherwise the form is kept and an error
        shown. `loading` is cleared in every case. */
    method CompleteLookup(outcome: LookupOutcome)
      requires loading
      modifies this
      ensures !loading
      ensures Resolve(outcome).SetCode? ==>
        form == With(old(form), AirlineCode, Resolve(outcome).code) && error == old(error)
      ensures Resolve(outcome).ShowError? ==>
        form == old(form) && error == Some(Resolve(outcome).message)
      ensures forall k :: k != AirlineCode ==> Get(form, k) == Get(old(form), k)
    {
      match outcome {
        case Responded(code) =>
          if Truthy(code) {
            form := form.(airline_code := code.text);
          } else {
            error := Some(AirlineNotFound);
          }
        case Threw =>
          error := Some(LookupFailed);
      }
      loading := false;
    }

    /** `handleChange(key, value)`. */
    method HandleChange(k: Field, v: string)
      modifies this
      ensures form == With(old(form), k, v)
      ensures loading == old(loading) && error == old(error)
    {
      form := With(form, k, v);
    }

    /** Pressing Continue: enabled exactly when the flight number is non-empty,
        whatever the airline code or `loading`; passes the whole form. */
    method Press() returns (submitted: Option<FlightData>)
      ensures submitted.Some? <==> form.flight_number != ""
      ensures submitted.Some? ==> submitted.value == form
    {
      if CanSubmit(form) {
        submitted := Some(form);
      } else {
        submitted := None;
      }
    }
  }
}
