/**
 * The flight search form (src/Components/FlightScheduleComponent/FlightSearch.jsx):
 * form defaults and schema, upper-cased airport codes, clamped traveller
 * counters, the date checks ahead of the search request, the request payload,
 * and what a result writes to the per-tab session store.
 */
module FlightSearchForm {
  import opened JsonValue

  datatype TripType = Round | OneWay | Multi

  /** A picked date, represented by the text `.format("YYYY-MM-DD")` gives for it. */
  datatype Day = Day(ymd: string)

  /** The form's values as the form library holds them. */
  datatype Values = Values(
    from: string,
    to: string,
    date: Option<Day>,
    returnDate: Option<Day>,
    adults: int,
    child: int,
    infant: int,
    travelClass: string)

  /** The traveller counters of the drop-down. */
  datatype Counter = Adults | Child | Infant

  /** The body of the search request. */
  datatype Payload = Payload(from: string, to: string, date: string, adults: int)

  /** The outcome of the search request. */
  datatype SearchResponse =
    | Answered(flights: Option<Json>)      // `res.data?.flights`
    | Failed(message: Option<string>)      // `err.response?.data?.message`

  const InitialValues := Values("", "", None, None, 1, 0, 0, "Economy")
  const NoDateMessage := "Please select a departure date"
  const NoReturnMessage := "Please select return date for round trip"
  const NoFlightsMessage := "No flights found for this route/date"
  const SearchFailedMessage := "Search failed. Please try again."
  const ResultsKey := "flightResults"
  const PayloadKey := "flightSearchPayload"
  const SchedulePath := "/flight-schedule"

  // ---------------------------------------------------------------------------
  // Airport-code inputs
  // ---------------------------------------------------------------------------

  predicate IsLower(c: char) {
    'a' <= c <= 'z'
  }

  /** Upper-casing of one character, ASCII letters only. */
  function UpperChar(c: char): char {
    if IsLower(c) then (c as int - 32) as char else c
  }

  /** `text.toUpperCase()`, restricted to ASCII. */
  function ToUpper(s: string): (r: string)
    ensures |r| == |s|
    ensures forall i :: 0 <= i < |r| ==> r[i] == UpperChar(s[i])
  {
    if s == [] then [] else [UpperChar(s[0])] + ToUpper(s[1..])
  }

  /** An upper-cased code holds no lower-case letter, and upper-casing it again changes nothing. */
  lemma ToUpperSettles(s: string)
    ensures forall i :: 0 <= i < |s| ==> !IsLower(ToUpper(s)[i])
    ensures ToUpper(ToUpper(s)) == ToUpper(s)
  {
    var u := ToUpper(s);
    assert forall i :: 0 <= i < |u| ==> UpperChar(u[i]) == u[i];
  }

  /** The schema: both codes exactly three characters long, a departure date chosen. */
  predicate SchemaValid(v: Values) {
    |v.from| == 3 && |v.to| == 3 && v.date.Some?
  }

  // ---------------------------------------------------------------------------
  // Traveller counters
  // ---------------------------------------------------------------------------

  /** The "−" button: `Math.max(0, v - 1)`. */
  function Decrement(v: int): (r: int)
    ensures r >= 0
    ensures v >= 1 ==> r == v - 1
    ensures v <= 1 ==> r == 0
  {
    if v - 1 > 0 then v - 1 else 0
  }

  /** The "+" button: `v + 1`, with no upper bound. */
  function Increment(v: int): int {
    v + 1
  }

  /** The two buttons undo each other on the counts the form can reach, and "−" stops at 0. */
  lemma CounterButtons(v: int)
    requires v >= 0
    ensures Decrement(Increment(v)) == v
    ensures v >= 1 ==> Increment(Decrement(v)) == v
    ensures Decrement(0) == 0
  {
  }

  function CounterValue(v: Values, k: Counter): int {
    match k
    case Adults => v.adults
    case Child => v.child
    case Infant => v.infant
  }

  function SetCounter(v: Values, k: Counter, n: int): (r: Values)
    ensures CounterValue(r, k) == n
    ensures forall j :: j != k ==> CounterValue(r, j) == CounterValue(v, j)
    ensures r.from == v.from && r.to == v.to && r.date == v.date && r.returnDate == v.returnDate
    ensures r.travelClass == v.travelClass
  {
    match k
    case Adults => v.(adults := n)
    case Child => v.(child := n)
    case Infant => v.(infant := n)
  }

  /** Counters start non-negative and the buttons keep them so; adults may fall to 0. */
  lemma CountersStayNonNegative(v: Values, k: Counter)
    requires v.adults >= 0 && v.child >= 0 && v.infant >= 0
    ensures var d := SetCounter(v, k, Decrement(CounterValue(v, k)));
      d.adults >= 0 && d.child >= 0 && d.infant >= 0
    ensures var u := SetCounter(v, k, Increment(CounterValue(v, k)));
      u.adults >= 0 && u.child >= 0 && u.infant >= 0
    ensures CounterValue(SetCounter(InitialValues, Adults, Decrement(InitialValues.adults)), Adults) == 0
  {
  }

  // ---------------------------------------------------------------------------
  // Submitting
  // ---------------------------------------------------------------------------

  /** The checks `handleSubmit` makes before any request: the message, or none when it may search. */
  function DateCheck(tripType: TripType, v: Values): Option<string> {
    if v.date.None? then Some(NoDateMessage)
    else if tripType == Round && v.returnDate.None? then Some(NoReturnMessage)
    else None
  }

  /**
   * How the date checks meet the schema. A form the schema accepts has a
   * departure date, so the departure-date message never appears from the
   * form; past the schema a one-way or multi-city search always proceeds and
   * a round trip proceeds exactly when it has a return date; and a round trip
   * is the strictest trip type.
   */
  lemma DateRules(tripType: TripType, v: Values)
    ensures SchemaValid(v) ==> DateCheck(tripType, v) != Some(NoDateMessage)
    ensures SchemaValid(v) && tripType != Round ==> DateCheck(tripType, v) == None
    ensures SchemaValid(v) && tripType == Round ==> (DateCheck(tripType, v) == None <==> v.returnDate.Some?)
    ensures DateCheck(Round, v) == None ==> DateCheck(tripType, v) == None
  {
  }

  function PayloadOf(v: Values): Payload
    requires v.date.Some?
  {
    Payload(v.from, v.to, v.date.value.ymd, v.adults)
  }

  /** The payload carries neither the return date, nor children, infants or class. */
  lemma PayloadIgnoresOtherFields(v: Values, returnDate: Option<Day>, child: int, infant: int, travelClass: string)
    requires v.date.Some?
    ensures PayloadOf(v.(returnDate := returnDate, child := child, infant := infant, travelClass := travelClass))
         == PayloadOf(v)
  {
  }

  /** The payload as the JSON object that is sent and stored. */
  function PayloadJson(p: Payload): Json {
    JObj(map["from" := JStr(p.from), "to" := JStr(p.to), "date" := JStr(p.date), "adults" := JNum(p.adults)])
  }

  /** `err.response?.data?.message || "Search failed. Please try again."`. */
  function FailureText(message: Option<string>): (r: string)
    ensures r != ""
    ensures message.Some? && message.value != "" ==> r == message.value
    ensures !(message.Some? && message.value != "") ==> r == SearchFailedMessage
  {
    if message.Some? && message.value != "" then message.value else SearchFailedMessage
  }

  /** The store after a non-empty result: exactly the two search keys are (re)written. */
  function StoreResults(session: map<string, string>, flightsText: string, payloadText: string)
    : (r: map<string, string>)
    ensures r.Keys == session.Keys + {ResultsKey, PayloadKey}
    ensures r[ResultsKey] == flightsText && r[PayloadKey] == payloadText
    ensures forall k :: k in session && k != ResultsKey && k != PayloadKey ==> r[k] == session[k]
  {
    (session - {ResultsKey})[ResultsKey := flightsText][PayloadKey := payloadText]
  }

  /** The search section's state, with the session store and the last navigation. */
  class SearchForm {
    var values: Values
    var tripType: TripType
    var formError: string
    var loading: bool
    var session: map<string, string>
    var navigatedTo: Option<string>

    constructor (session0: map<string, string>)
      ensures values == InitialValues && tripType == Round && formError == "" && !loading
      ensures session == session0 && navigatedTo == None
    {
      values := InitialValues;
      tripType := Round;
      formError := "";
      loading := false;
      session := session0;
      navigatedTo := None;
    }

    method SetTripType(t: TripType)
      modifies this
      ensures tripType == t && values == old(values) && session == old(session)
      ensures formError == old(formError) && loading == old(loading) && navigatedTo == old(navigatedTo)
    {
      tripType := t;
    }

    /** The "From" input: the text is upper-cased as typed. */
    method EditFrom(text: string)
      modifies this
      ensures values == old(values).(from := ToUpper(text))
      ensures tripType == old(tripType) && session == old(session)
      ensures formError == old(formError) && loading == old(loading) && navigatedTo == old(navigatedTo)
    {
      values := values.(from := ToUpper(text));
    }

    /** The "To" input: the text is upper-cased as typed. */
    method EditTo(text: string)
      modifies this
      ensures values == old(values).(to := ToUpper(text))
      ensures tripType == old(tripType) && session == old(session)
      ensures formError == old(formError) && loading == old(loading) && navigatedTo == old(navigatedTo)
    {
      values := values.(to := ToUpper(text));
    }

    method PickDate(d: Option<Day>)
      modifies this
      ensures values == old(values).(date := d)
      ensures tripType == old(tripType) && session == old(session)
      ensures formError == old(formError) && loading == old(loading) && navigatedTo == old(navigatedTo)
    {
      values := values.(date := d);
    }

    /** The return picker is disabled unless the trip is a round trip. */
    method PickReturnDate(d: Option<Day>)
      requires tripType == Round
      modifies this
      ensures values == old(values).(returnDate := d)
      ensures tripType == old(tripType) && session == old(session)
      ensures formError == old(formError) && loading == old(loading) && navigatedTo == old(navigatedTo)
    {
      values := values.(returnDate := d);
    }

    method PickClass(c: string)
      modifies this
      ensures values == old(values).(travelClass := c)
      ensures tripType == old(tripType) && session == old(session)
      ensures formError == old(formError) && loading == old(loading) && navigatedTo == old(navigatedTo)
    {
      values := values.(travelClass := c);
    }

    /** A counter's "−" button. */
    method DecrementCounter(k: Counter)
      modifies this
      ensures values == SetCounter(old(values), k, Decrement(CounterValue(old(values), k)))
      ensures tripType == old(tripType) && session == old(session)
      ensures formError == old(formError) && loading == old(loading) && navigatedTo == old(navigatedTo)
    {
      values := SetCounter(values, k, Decrement(CounterValue(values, k)));
    }

    /** A counter's "+" button. */
    method IncrementCounter(k: Counter)
      modifies this
      ensures values == SetCounter(old(values), k, Increment(CounterValue(old(values), k)))
      ensures tripType == old(tripType) && session == old(session)
      ensures formError == old(formError) && loading == old(loading) && navigatedTo == old(navigatedTo)
    {
      values := SetCounter(values, k, Increment(CounterValue(values, k)));
    }

    /**
     * `handleSubmit`, with the search request's outcome and `JSON.stringify` as
     * parameters. `request` is the payload sent, if any.
     */
    method HandleSubmit(response: SearchResponse, stringify: Json -> string) returns (request: Option<Payload>)
      modifies this
      ensures values == old(values) && tripType == old(tripType)
      ensures request.Some? <==> DateCheck(tripType, values) == None
      ensures DateCheck(tripType, values).Some? ==>
        formError == DateCheck(tripType, values).value && loading == old(loading) &&
        session == old(session) && navigatedTo == old(navigatedTo)
      ensures request.Some? ==> request.value == PayloadOf(values) && !loading
      ensures request.Some? && response.Answered? && Length(response.flights) > 0 ==>
        session == StoreResults(old(session), stringify(response.flights.value), stringify(PayloadJson(request.value))) &&
        navigatedTo == Some(SchedulePath) && formError == ""
      ensures request.Some? && response.Answered? && Length(response.flights) == 0 ==>
        formError == NoFlightsMessage && session == old(session) && navigatedTo == old(navigatedTo)
      ensures request.Some? && response.Failed? ==>
        formError == FailureText(response.message) && session == old(session) && navigatedTo == old(navigatedTo)
    {
      formError := "";
      if values.date.None? {
        formError := NoDateMessage;
        return None;
      }
      if tripType == Round && values.returnDate.None? {
        formError := NoReturnMessage;
        return None;
      }
      loading := true;
      var payload := Payload(values.from, values.to, values.date.value.ymd, values.adults);
      request := Some(payload);
      match response {
        case Answered(flights) =>
          if Length(flights) == 0 {
            formError := NoFlightsMessage;
          } else {
            session := session - {ResultsKey};
            session := session[ResultsKey := stringify(flights.value)];
            session := session[PayloadKey := stringify(PayloadJson(payload))];
            navigatedTo := Some(SchedulePath);
          }
        case Failed(message) =>
          formError := FailureText(message);
      }
      loading := false;
    }

    /**
     * Pressing "Search Flights": the schema is checked first, and only a valid
     * form reaches `handleSubmit`, with all of its outcomes.
     */
    method Submit(response: SearchResponse, stringify: Json -> string) returns (request: Option<Payload>)
      modifies this
      ensures values == old(values) && tripType == old(tripType)
      ensures !SchemaValid(values) ==>
        request == None && formError == old(formError) && loading == old(loading) &&
        session == old(session) && navigatedTo == old(navigatedTo)
      ensures SchemaValid(values) ==> (request.Some? <==> DateCheck(tripType, values) == None)
      ensures SchemaValid(values) && DateCheck(tripType, values).Some? ==>
        formError == DateCheck(tripType, values).value && loading == old(loading) &&
        session == old(session) && navigatedTo == old(navigatedTo)
      ensures request.Some? ==>
        request.value == PayloadOf(values) && !loading && |request.value.from| == 3 && |request.value.to| == 3
      ensures request.Some? && response.Answered? && Length(response.flights) > 0 ==>
        session == StoreResults(old(session), stringify(response.flights.value), stringify(PayloadJson(request.value))) &&
        navigatedTo == Some(SchedulePath) && formError == ""
      ensures request.Some? && response.Answered? && Length(response.flights) == 0 ==>
        formError == NoFlightsMessage && session == old(session) && navigatedTo == old(navigatedTo)
      ensures request.Some? && response.Failed? ==>
        formError == FailureText(response.message) && session == old(session) && navigatedTo == old(navigatedTo)
    {
      if !SchemaValid(values) {
        return None;
      }
      request := HandleSubmit(response, stringify);
    }
  }
}
