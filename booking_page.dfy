/**
 * The booking wizard page (src/Components/Booking/BookingPage.jsx): where the
 * flight comes from, the step cursor with its forward and back edges, the
 * stepper's status colours, and the duration label.
 */
module BookingWizard {
  import opened JsonValue
  import opened PassengerList
  import opened ContactStep
  import opened ReviewStep
  import FareServices

  // ---------------------------------------------------------------------------
  // Where the flight comes from
  // ---------------------------------------------------------------------------

  const ResultsKey := "flightSearchResults"
  const SelectedKey := "selectedFlight"
  const NoFlightAlert := "No flight selected. Please search for flights first."
  const InvalidAlert := "Invalid flight data. Please search again."

  /** What the loading effect does: keep a flight, or alert and go back to the search page. */
  datatype LoadResult = Show(flight: Json) | Redirect(alert: string)

  /** `sessionStorage.getItem(key)` tested for truthiness: present and not the empty string. */
  predicate Stored(session: map<string, string>, key: string) {
    key in session && session[key] != ""
  }

  /** `{ segments: [], currency: "PKR", displayPrice: 0, travelportData }`. */
  function MinimalFlight(travelportData: Json): Json {
    JObj(map["segments" := JArr([]), "currency" := JStr("PKR"), "displayPrice" := JNum(0),
             "travelportData" := travelportData])
  }

  /**
   * The loading effect as one decision. `state` is the navigation state,
   * `session` the per-tab store, `parse` stands for `JSON.parse` (None: it throws).
   */
  function ResolveFlight(state: Option<Json>, session: map<string, string>, parse: string -> Option<Json>)
    : LoadResult
  {
    var given := Member(state, "flight");
    if Truthy(given) then Show(given.value)
    else if !Stored(session, ResultsKey) then Redirect(NoFlightAlert)
    else match parse(session[ResultsKey])
      case None => Redirect(InvalidAlert)
      case Some(travelportData) =>
        if Stored(session, SelectedKey) then
          match parse(session[SelectedKey])
          case None => Redirect(InvalidAlert)
          case Some(details) => Show(details)
        else Show(MinimalFlight(travelportData))
  }

  /**
   * The precedence of the sources: a flight in the navigation state makes the
   * session store and its parsing irrelevant, and a falsy one counts as none.
   */
  lemma ResolutionPrecedence(state: Option<Json>, session1: map<string, string>, parse1: string -> Option<Json>,
                             session2: map<string, string>, parse2: string -> Option<Json>)
    ensures Truthy(Member(state, "flight")) ==>
      ResolveFlight(state, session1, parse1) == ResolveFlight(state, session2, parse2) == Show(Member(state, "flight").value)
    ensures !Truthy(Member(state, "flight")) ==>
      ResolveFlight(state, session1, parse1) == ResolveFlight(None, session1, parse1)
  {
  }

  /**
   * A stored selection decides the flight: once it is stored, what the stored
   * results parse to no longer matters, only whether they parse.
   */
  lemma SelectionOverridesResults(state: Option<Json>, session: map<string, string>,
                                  parse1: string -> Option<Json>, parse2: string -> Option<Json>)
    requires Stored(session, SelectedKey) && parse1(session[SelectedKey]) == parse2(session[SelectedKey])
    requires Stored(session, ResultsKey) ==> (parse1(session[ResultsKey]).Some? <==> parse2(session[ResultsKey]).Some?)
    ensures ResolveFlight(state, session, parse1) == ResolveFlight(state, session, parse2)
  {
  }

  /**
   * A stored selection that parses to a falsy value (null, false, 0 or "") is
   * taken as the flight: the effect does not redirect, and the page, which
   * renders only a truthy flight, keeps showing its loading view.
   */
  lemma FalsySelectionStalls(state: Option<Json>, session: map<string, string>, parse: string -> Option<Json>)
    requires !Truthy(Member(state, "flight"))
    requires Stored(session, ResultsKey) && parse(session[ResultsKey]).Some?
    requires Stored(session, SelectedKey) && parse(session[SelectedKey]).Some? && !Truthy(parse(session[SelectedKey]))
    ensures ResolveFlight(state, session, parse).Show?
    ensures !Truthy(Some(ResolveFlight(state, session, parse).flight))
  {
  }

  /**
   * The navigation state the detail modal's "Continue to Booking" sends always
   * resolves to the flight it carries, whatever the session store holds.
   */
  lemma ModalNavigationIsShown(nav: FareServices.BookingNavigation, session: map<string, string>,
                               parse: string -> Option<Json>)
    requires Truthy(Some(nav.flight))
    ensures ResolveFlight(Some(FareServices.NavigationState(nav)), session, parse) == Show(nav.flight)
  {
  }

  /** Without a flight in the navigation state, the page shows one only if the stored search results parse. */
  lemma RedirectUnlessRecoverable(state: Option<Json>, session: map<string, string>, parse: string -> Option<Json>)
    requires !Truthy(Member(state, "flight"))
    ensures ResolveFlight(state, session, parse).Show? <==>
      Stored(session, ResultsKey) && parse(session[ResultsKey]).Some? &&
      (Stored(session, SelectedKey) ==> parse(session[SelectedKey]).Some?)
  {
  }

  /**
   * The keys the search form writes (`flightResults`, `flightSearchPayload`) are not the
   * keys this page reads, so a search never changes how the page resolves its flight.
   */
  lemma SearchKeysAreNotRead(state: Option<Json>, session: map<string, string>, parse: string -> Option<Json>,
                             results: string, payload: string)
    ensures ResolveFlight(state, session["flightResults" := results]["flightSearchPayload" := payload], parse)
         == ResolveFlight(state, session, parse)
  {
    var s' := session["flightResults" := results]["flightSearchPayload" := payload];
    assert Stored(s', ResultsKey) == Stored(session, ResultsKey);
    assert Stored(s', SelectedKey) == Stored(session, SelectedKey);
  }

  // ---------------------------------------------------------------------------
  // The step cursor
  // ---------------------------------------------------------------------------

  /** The callbacks the step components are given. */
  datatype Event = PassengersDone | ContactDone | ContactBack | ReviewBack

  /** The step whose component is on screen, and so can raise the event. */
  function Source(e: Event): int {
    match e
    case PassengersDone => 1
    case ContactDone => 2
    case ContactBack => 2
    case ReviewBack => 3
  }

  /** The step each callback sets. */
  function Target(e: Event): int {
    match e
    case PassengersDone => 2
    case ContactDone => 3
    case ContactBack => 1
    case ReviewBack => 2
  }

  predicate IsForward(e: Event) {
    e == PassengersDone || e == ContactDone
  }

  /** Every edge moves by one step within 1..3: forward edges up, back edges down. */
  lemma EdgesMoveOneStep(e: Event)
    ensures 1 <= Source(e) <= 3 && 1 <= Target(e) <= 3
    ensures IsForward(e) ==> Target(e) == Source(e) + 1
    ensures !IsForward(e) ==> Target(e) == Source(e) - 1
  {
  }

  /** Each back edge undoes a forward edge. */
  lemma BackUndoesForward()
    ensures Target(ContactBack) == Source(PassengersDone) && Source(ContactBack) == Target(PassengersDone)
    ensures Target(ReviewBack) == Source(ContactDone) && Source(ReviewBack) == Target(ContactDone)
  {
  }

  datatype StepStatus = Done | Current | Upcoming

  /** The stepper's colour for item `index` (0-based) at step `step`. */
  function StepperStatus(step: int, index: nat): StepStatus {
    if step > index + 1 then Done
    else if step == index + 1 then Current
    else Upcoming
  }

  /** At a valid step the stepper reads: done items, then the one current item, then upcoming items. */
  lemma StepperShape(step: int)
    requires 1 <= step <= 3
    ensures [StepperStatus(step, 0), StepperStatus(step, 1), StepperStatus(step, 2)]
         == seq(step - 1, i => Done) + [Current] + seq(3 - step, i => Upcoming)
  {
    if step == 1 {
      assert seq(0, i => Done) == [] && seq(2, i => Upcoming) == [Upcoming, Upcoming];
    } else if step == 2 {
      assert seq(1, i => Done) == [Done] && seq(1, i => Upcoming) == [Upcoming];
    } else {
      assert seq(2, i => Done) == [Done, Done] && seq(0, i => Upcoming) == [];
    }
  }

  /** The inputs the review step receives: passengers, contact and flight, but no pricing solution or itinerary. */
  function ReviewPropsOf(passengers: seq<Passenger>, contactInfo: Option<Contact>, flight: Option<Json>): Props {
    Props(None, None, Some(passengers), contactInfo, flight)
  }

  /** Because no pricing solution reaches the review step, its submit is always blocked. */
  lemma ReviewFromWizardNeverSubmits(passengers: seq<Passenger>, contactInfo: Option<Contact>, flight: Option<Json>)
    ensures !ReadyToSubmit(ReviewPropsOf(passengers, contactInfo, flight))
  {
  }

  /** The page's state: step cursor, the fragments gathered so far, the flight, and any redirect. */
  class Wizard {
    var step: int
    var passengers: seq<Passenger>
    var contactInfo: Option<Contact>
    var flight: Option<Json>
    var redirected: Option<string>   // the alert shown before navigating to the search page

    ghost predicate Valid()
      reads this
    {
      1 <= step <= 3
    }

    constructor ()
      ensures Valid()
      ensures step == 1 && passengers == [] && contactInfo == None && flight == None && redirected == None
    {
      step := 1;
      passengers := [];
      contactInfo := None;
      flight := None;
      redirected := None;
    }

    /** The loading effect, reading the store key by key. */
    method LoadFlight(state: Option<Json>, session: map<string, string>, parse: string -> Option<Json>)
      requires Valid()
      modifies this
      ensures Valid()
      ensures ResolveFlight(state, session, parse).Show? ==>
        flight == Some(ResolveFlight(state, session, parse).flight) && redirected == old(redirected)
      ensures ResolveFlight(state, session, parse).Redirect? ==>
        flight == old(flight) && redirected == Some(ResolveFlight(state, session, parse).alert)
      ensures step == old(step) && passengers == old(passengers) && contactInfo == old(contactInfo)
    {
      var given := Member(state, "flight");
      if Truthy(given) {
        flight := given;
        return;
      }
      var travelportDataStr := if ResultsKey in session then session[ResultsKey] else "";
      if travelportDataStr == "" {
        redirected := Some(NoFlightAlert);
        return;
      }
      var travelportData := parse(travelportDataStr);
      if travelportData.None? {
        redirected := Some(InvalidAlert);
        return;
      }
      var flightDetailsStr := if SelectedKey in session then session[SelectedKey] else "";
      if flightDetailsStr != "" {
        var flightDetails := parse(flightDetailsStr);
        if flightDetails.None? {
          redirected := Some(InvalidAlert);
          return;
        }
        flight := flightDetails;
      } else {
        flight := Some(MinimalFlight(travelportData.value));
      }
    }

    /** The passenger step's `onNext`: store the list, move 1 -> 2. */
    method OnPassengersDone(data: seq<Passenger>)
      requires Valid() && step == Source(PassengersDone)
      modifies this
      ensures Valid() && step == Target(PassengersDone)
      ensures passengers == data
      ensures contactInfo == old(contactInfo) && flight == old(flight) && redirected == old(redirected)
    {
      passengers := data;
      step := 2;
    }

    /** The contact step's `onNext`: store the record, move 2 -> 3. */
    method OnContactDone(data: Contact)
      requires Valid() && step == Source(ContactDone)
      modifies this
      ensures Valid() && step == Target(ContactDone)
      ensures contactInfo == Some(data)
      ensures passengers == old(passengers) && flight == old(flight) && redirected == old(redirected)
    {
      contactInfo := Some(data);
      step := 3;
    }

    /** A back callback: move one step down, keeping everything gathered. */
    method OnBack(e: Event)
      requires Valid() && !IsForward(e) && step == Source(e)
      modifies this
      ensures Valid() && step == Target(e) && step == old(step) - 1
      ensures passengers == old(passengers) && contactInfo == old(contactInfo)
      ensures flight == old(flight) && redirected == old(redirected)
    {
      step := Target(e);
    }

    /** What the review step is given at step 3. */
    function ReviewProps(): (p: Props)
      reads this
      ensures p.passengers == Some(passengers) && p.contactInfo == contactInfo && p.flight == flight
      ensures !ReadyToSubmit(p)
    {
      ReviewPropsOf(passengers, contactInfo, flight)
    }
  }

  // ---------------------------------------------------------------------------
  // The duration label
  // ---------------------------------------------------------------------------

  function DigitChar(d: nat): char
    requires d < 10
  {
    ['0', '1', '2', '3', '4', '5', '6', '7', '8', '9'][d]
  }

  /** The decimal text JavaScript gives a non-negative integer. */
  function Decimal(n: nat): (r: string)
    ensures |r| >= 1 && AllDigits(r)
    decreases n
  {
    if n < 10 then [DigitChar(n)] else Decimal(n / 10) + [DigitChar(n % 10)]
  }

  /** The decimal text of any integer: a minus sign before the digits of a negative one. */
  function IntText(n: int): string {
    if n < 0 then "-" + Decimal(-n) else Decimal(n)
  }

  function DigitValue(c: char): nat
    requires IsDigit(c)
  {
    (c as int - '0' as int) as nat
  }

  /** Reads a string of digits as a number. */
  function ReadDecimal(s: string): nat
    requires AllDigits(s)
  {
    if s == [] then 0 else ReadDecimal(s[..|s| - 1]) * 10 + DigitValue(s[|s| - 1])
  }

  lemma {:induction false} ReadDecimalInverts(n: nat)
    ensures ReadDecimal(Decimal(n)) == n
    decreases n
  {
    if n >= 10 {
      var s := Decimal(n);
      assert s[..|s| - 1] == Decimal(n / 10);
      ReadDecimalInverts(n / 10);
    }
  }

  /** JavaScript's `%`: the remainder takes the sign of the dividend. */
  function JsRem(a: int, b: int): int
    requires b > 0
  {
    if a >= 0 then a % b else -((-a) % b)
  }

  /** `formatDuration(minutes)`; `None` is an absent value. */
  function FormatDuration(minutes: Option<int>): string {
    if minutes.None? || minutes.value == 0 then ""
    else
      var m := minutes.value;
      IntText(m / 60) + "h " + IntText(JsRem(m, 60)) + "m"
  }

  /** The first position of `c` in `s`, if any. */
  function IndexOf(s: string, c: char): (r: Option<nat>)
    ensures r.Some? ==> r.value < |s| && s[r.value] == c && forall j :: 0 <= j < r.value ==> s[j] != c
    ensures r.None? ==> forall j :: 0 <= j < |s| ==> s[j] != c
  {
    if s == [] then None
    else if s[0] == c then Some(0)
    else match IndexOf(s[1..], c)
      case None => None
      case Some(i) => Some(i + 1)
  }

  function Minutes(hours: nat, minutes: nat): nat {
    hours * 60 + minutes
  }

  /** Reads a label of the form "<hours>h <minutes>m", minutes below 60, back as a minute count. */
  function ReadDuration(s: string): Option<int> {
    match IndexOf(s, 'h')
    case None => None
    case Some(i) => ReadParts(s[..i], s[i..])
  }

  /** `hours` is the text before the first 'h', `rest` the text from it on. */
  function ReadParts(hours: string, rest: string): Option<int> {
    if |rest| >= 3 && rest[..2] == "h " && rest[|rest| - 1] == 'm'
       && AllDigits(hours) && AllDigits(rest[2..|rest| - 1])
       && ReadDecimal(rest[2..|rest| - 1]) < 60
    then Some(Minutes(ReadDecimal(hours), ReadDecimal(rest[2..|rest| - 1])))
    else None
  }

  /** A run of digits ahead of an 'h' leaves that 'h' as the first one. */
  lemma {:induction false} FirstHAfterDigits(digits: string, rest: string)
    requires AllDigits(digits) && |rest| > 0 && rest[0] == 'h'
    ensures IndexOf(digits + rest, 'h') == Some(|digits|)
  {
    if digits != [] {
      assert (digits + rest)[1..] == digits[1..] + rest;
      FirstHAfterDigits(digits[1..], rest);
    }
  }

  lemma LabelOfPositive(m: int)
    requires m > 0
    ensures FormatDuration(Some(m)) == Decimal(m / 60) + "h " + Decimal(m % 60) + "m"
  {
    assert JsRem(m, 60) == m % 60;
    assert IntText(m / 60) == Decimal(m / 60);
    assert IntText(m % 60) == Decimal(m % 60);
  }

  /** Any label built from two digit strings, the second worth less than 60, reads back. */
  lemma ReadLabel(hs: string, ms: string)
    requires AllDigits(hs) && AllDigits(ms) && ReadDecimal(ms) < 60
    ensures ReadDuration(hs + "h " + ms + "m") == Some(Minutes(ReadDecimal(hs), ReadDecimal(ms)))
  {
    var rest := "h " + ms + "m";
    LabelParts(hs, ms);
    FirstHAfterDigits(hs, rest);
    SplitAtFirstH(hs, rest);
    ReadMinutesPart(hs, ms);
  }

  /** A label is its hours digits followed by the text from the 'h' on. */
  lemma LabelParts(hs: string, ms: string)
    ensures hs + "h " + ms + "m" == hs + ("h " + ms + "m")
    ensures ("h " + ms + "m")[0] == 'h'
  {
  }

  /** A text whose first 'h' ends `hours` is read from its two parts. */
  lemma SplitAtFirstH(hours: string, rest: string)
    requires IndexOf(hours + rest, 'h') == Some(|hours|)
    ensures ReadDuration(hours + rest) == ReadParts(hours, rest)
  {
    var s := hours + rest;
    assert s[..|hours|] == hours && s[|hours|..] == rest;
  }

  /** The text from the 'h' on splits into the separator, the minute digits and the 'm'. */
  lemma ReadMinutesPart(hs: string, ms: string)
    requires AllDigits(hs) && AllDigits(ms) && ReadDecimal(ms) < 60
    ensures ReadParts(hs, "h " + ms + "m") == Some(Minutes(ReadDecimal(hs), ReadDecimal(ms)))
  {
    var rest := "h " + ms + "m";
    assert rest[..2] == "h " && rest[2..|rest| - 1] == ms;
  }

  /** For a positive duration the label reads back as the same number of minutes. */
  lemma DurationLabelRoundTrip(m: int)
    requires m > 0
    ensures ReadDuration(FormatDuration(Some(m))) == Some(m)
  {
    var h: nat, mm: nat := m / 60, m % 60;
    LabelOfPositive(m);
    ReadDecimalInverts(h);
    ReadDecimalInverts(mm);
    ReadLabel(Decimal(h), Decimal(mm));
    MinutesOfDivMod(m);
  }

  /** Hours and leftover minutes add back up to the duration. */
  lemma MinutesOfDivMod(m: nat)
    ensures Minutes(m / 60, m % 60) == m
  {
  }

  /** The label is empty exactly for an absent or zero duration. */
  lemma EmptyDurationLabel(minutes: Option<int>)
    ensures FormatDuration(minutes) == "" <==> minutes == None || minutes == Some(0)
  {
  }
}
