# Flight listing frontend — a Dafny model of the search and booking flow

This project models the decision logic of a single-page flight-search and booking
frontend. A traveller searches for flights, opens the detail modal of one, and continues
to a three-step booking wizard: passengers, contact information, review and submit. The
model covers:

- **Search form** (`FlightSearchForm`, `flight_search.dfy`):
  - the form defaults and the schema (three-letter codes, a departure date);
  - codes upper-cased as they are typed;
  - traveller counters clamped at zero;
  - the date checks made before the search request;
  - the request payload;
  - what a non-empty result writes to the per-tab session store.
- **Airport autocomplete** (`AirportAutocomplete`, `autocomplete.dfy`):
  - the case-insensitive substring filter over code, name, city and country;
  - a two-character minimum and an eight-result cap;
  - the select, clear, focus and outside-click handlers.
- **Detail modal** (`FareServices`, `flight_detail.dfy`):
  - the status label of an optional service;
  - the singleton-or-array normalisation of fare infos and services;
  - the brand list;
  - the "best service per type" table, built by a loop and shown in a fixed priority order;
  - the service titles;
  - the precondition of "Continue to Booking".
- **Booking wizard page** (`BookingWizard`, `booking_page.dfy`):
  - how the flight is resolved from the navigation state or the session store;
  - the step cursor with its forward and back edges;
  - the stepper's status;
  - what the review step receives;
  - the duration label.
- **Passengers step** (`PassengerList`, `passengers.dfy`):
  - the list editor (edit a field, add, remove but never the last);
  - the infant-per-adult rule;
  - the validation request.
- **Contact step** (`ContactStep`, `contact.dfy`):
  - digit stripping of the phone fields;
  - the "both email and phone" gate;
  - the state of the Continue button.
- **Review step** (`ReviewStep`, `review.dfy`):
  - defensive defaults for its inputs;
  - the three preconditions of the booking request;
  - the request body;
  - how success and failure are shown.

`JsonValue` (`json_value.dfy`) holds the shared vocabulary:
- a JSON value type;
- JavaScript truthiness (`Truthy`), where `None` stands for `undefined`;
- optional-chaining member access (`Member`).

Each stateful component is a class. Its fields are the component's state variables. Each
handler is a method that states the whole new state. The rules the handlers apply are
functions, and lemmas relate them. External effects are passed in as parameters, so every
handler is deterministic:
- network responses (a datatype per endpoint, holding the success or the failure);
- `JSON.parse` (`string -> Option<Json>`, where `None` means it throws);
- `JSON.stringify`;
- the session store (a `map<string, string>`).

Points where the code does something other than what the flow suggests. The model follows
the code in each case:
- The booking page reads the session keys `flightSearchResults` and `selectedFlight`. The
  search form writes `flightResults` and `flightSearchPayload`, so a search never supplies
  the booking page's fallback (`BookingWizard.SearchKeysAreNotRead`).
- The booking page gives the review step no pricing solution and no itinerary. The review
  step's submit therefore always stops at "Incomplete booking data"
  (`BookingWizard.ReviewFromWizardNeverSubmits`, `BookingWizard.Wizard.ReviewProps`).
- The review step is handed an `onBack` callback but never calls it. The 3 → 2 edge exists
  in the page (`OnBack(ReviewBack)`) but no control raises it.
- The passenger list always starts with one default adult. It is not pre-filled from the
  traveller counts of the search form.
- The adults counter can be decremented to 0 (`FlightSearchForm.CountersStayNonNegative`).
- The contact step declares a `loading` flag that nothing sets, so its Continue button is
  disabled exactly when email or phone is empty.
- Nothing clears the session store after a successful booking.
- A stored selection that parses to a falsy value (null, false, 0, "") is set as the flight
  without a redirect, and the page then stays on its loading view
  (`BookingWizard.FalsySelectionStalls`).
- Going back from step 2 to step 1 remounts the passenger step, which starts again from one
  default passenger. The page itself still holds the previously submitted list.
- Yup's schema already requires a departure date, so the submit handler's "Please select a
  departure date" message can never appear from the form (`FlightSearchForm.DateRules`).

## Model

| member | source | states |
|---|---|---|
| PassengerList.Set | src/Components/Booking/Passengers.jsx:28-32 | the edited field of a passenger takes the new value and every other field keeps its old one |
| PassengerList.Without | src/Components/Booking/Passengers.jsx:38-41 | removing index `idx` shortens the list by one and shifts the later entries down by one; an index outside the list leaves it unchanged |
| PassengerList.CountType | src/Components/Booking/Passengers.jsx:44-45 | the number of passengers of a type is at most the list length, and is zero exactly when no passenger has that type |
| PassengerList.CountAppend | src/Components/Booking/Passengers.jsx:44-45 | counting by type distributes over concatenation of passenger lists |
| PassengerList.CountWithout | src/Components/Booking/Passengers.jsx:38-45 | removing a passenger lowers the count of its own type by one and leaves the other counts unchanged |
| PassengerList.CountUpdate | src/Components/Booking/Passengers.jsx:28-45 | replacing a passenger moves one unit from the old passenger's type count to the new passenger's |
| PassengerList.CountIsMultiplicity | src/Components/Booking/Passengers.jsx:44-45 | the count of a type is the multiplicity of that type among the passengers' types |
| PassengerList.InfantRuleVerdict | src/Components/Booking/Passengers.jsx:43-51 | the rule fails exactly when "INF" occurs more often than "ADT" among the passenger types, and its only message is the one-infant-per-adult text |
| PassengerList.VerdictIgnoresOrder | src/Components/Booking/Passengers.jsx:43-51 | two lists with the same types, in any order, get the same verdict |
| PassengerList.ChildrenDoNotCount | src/Components/Booking/Passengers.jsx:43-51 | adding a passenger who is neither adult nor infant never changes the rule's verdict |
| PassengerList.FreshListsPass | src/Components/Booking/Passengers.jsx:4-14 | a list of default passengers holds no infants, is all adults and passes the rule |
| PassengerList.EditingOtherFieldsKeepsVerdict | src/Components/Booking/Passengers.jsx:28-51 | editing any field other than the passenger type never changes the rule's verdict |
| PassengerList.Join | src/Components/Booking/Passengers.jsx:66 | joining no messages gives "", one message gives that message, and the first message always leads the text |
| PassengerList.JoinAppend | src/Components/Booking/Passengers.jsx:66 | joining two non-empty lists puts exactly one ", " between their joined texts, so every message appears in order with one separator between neighbours |
| PassengerList.PassengerEditor.constructor | src/Components/Booking/Passengers.jsx:23-26 | the step starts with one default passenger, no error and not loading |
| PassengerList.PassengerEditor.HandleChange | src/Components/Booking/Passengers.jsx:28-32 | the list keeps its length; only the named field of passenger `idx` changes; the non-empty invariant holds |
| PassengerList.PassengerEditor.AddPassenger | src/Components/Booking/Passengers.jsx:34-36 | one default passenger is appended and the earlier ones are untouched |
| PassengerList.PassengerEditor.RemovePassenger | src/Components/Booking/Passengers.jsx:38-41 | a one-passenger list is left as it is; otherwise entry `idx` is dropped; the list never becomes empty |
| PassengerList.PassengerEditor.Submit | src/Components/Booking/Passengers.jsx:53-70 | the validation request is made exactly when infants do not outnumber adults; otherwise the rule's message is shown; acceptance hands the list to the next step and clears the error; rejection shows the joined server errors; loading ends false |
| ContactStep.KeepDigits | src/Components/Booking/Contactinfo.jsx:69-84 | stripping non-digits never lengthens the text and leaves only digits |
| ContactStep.KeepDigitsConcat | src/Components/Booking/Contactinfo.jsx:69-84 | stripping acts character by character: it distributes over concatenation |
| ContactStep.KeepDigitsOfDigits | src/Components/Booking/Contactinfo.jsx:69-84 | a text made only of digits is left unchanged |
| ContactStep.KeepDigitsDropsNonDigits | src/Components/Booking/Contactinfo.jsx:69-84 | a text without digits strips to nothing, so no digit is ever invented; with the concatenation and all-digits lemmas this fixes the result for every text |
| ContactStep.KeepDigitsIdempotent | src/Components/Booking/Contactinfo.jsx:69-84 | stripping twice gives the same text as stripping once |
| ContactStep.KeepDigitsKeepsDigits | src/Components/Booking/Contactinfo.jsx:69-84 | every digit of the input survives, between the digits before it and the digits after it |
| ContactStep.ContinueEnabledIffComplete | src/Components/Booking/Contactinfo.jsx:105-108 | an enabled Continue button implies both email and phone are filled in; when idle, the button is disabled exactly when one of them is empty |
| ContactStep.ContactForm.constructor | src/Components/Booking/Contactinfo.jsx:12-21 | the record starts with empty email and phone, country code "92", no error and not loading |
| ContactStep.ContactForm.EditEmail | src/Components/Booking/Contactinfo.jsx:59 | the email takes the typed text and the other fields keep their values |
| ContactStep.ContactForm.EditCountryCode | src/Components/Booking/Contactinfo.jsx:68-75 | the country code becomes the typed text's digits, and is digits only; email and phone are unchanged |
| ContactStep.ContactForm.EditPhone | src/Components/Booking/Contactinfo.jsx:79-85 | the phone becomes the typed text's digits, and is digits only; email and country code are unchanged |
| ContactStep.ContactForm.HandleContinue | src/Components/Booking/Contactinfo.jsx:39-46 | the record is passed on, unchanged and with the error cleared, exactly when email and phone are both non-empty; otherwise the "enter both" message is shown |
| ReviewStep.SubmitBlockers | src/Components/Booking/ReviewBooking.jsx:16-24 | a missing or empty passenger list, a missing contact or empty email, and a falsy pricing solution each block the request on their own; readiness implies a non-empty list and a contact record |
| ReviewStep.FailureText | src/Components/Booking/ReviewBooking.jsx:47-48 | the failure message is the server's error text when that is non-empty, and "Failed to submit booking" otherwise |
| ReviewStep.ReviewForm.constructor | src/Components/Booking/ReviewBooking.jsx:12-13 | the step starts not loading and with no error |
| ReviewStep.ReviewForm.HandleSubmitBooking | src/Components/Booking/ReviewBooking.jsx:20-52 | a request is sent exactly when the three preconditions hold, and its body is the flight, pricing, itinerary, safe passengers, contact and cash payment; if the preconditions fail, the "incomplete" message is shown and there is no navigation; a truthy `success` navigates with the booking id and message; a failure shows the server's error or the fallback; loading ends false |
| BookingWizard.ResolutionPrecedence | src/Components/Booking/BookingPage.jsx:116-156 | a truthy flight in the navigation state is shown whatever the session store holds or parses to; a falsy one is treated as no navigation state at all |
| BookingWizard.SelectionOverridesResults | src/Components/Booking/BookingPage.jsx:133-150 | once a selection is stored, the stored results' parsed value no longer affects the outcome, only whether they parse |
| BookingWizard.RedirectUnlessRecoverable | src/Components/Booking/BookingPage.jsx:116-156 | without a flight in the navigation state, the effect sets a flight (rather than redirecting) exactly when the stored results parse and any stored selection parses too |
| BookingWizard.FalsySelectionStalls | src/Components/Booking/BookingPage.jsx:138-141 | a stored selection that parses to a falsy value is set as the flight without a redirect, so the page, which renders only a truthy flight, stays on its loading view |
| BookingWizard.SearchKeysAreNotRead | src/Components/Booking/BookingPage.jsx:124-140 | writing the search form's two session keys never changes how the booking page resolves its flight |
| BookingWizard.ModalNavigationIsShown | src/Components/Booking/BookingPage.jsx:116-121 | the navigation state sent by the detail modal's "Continue to Booking" always resolves to the flight it carries, whatever the session store holds |
| BookingWizard.EdgesMoveOneStep | src/Components/Booking/BookingPage.jsx:263-289 | every callback moves the step cursor by exactly one within 1..3: "next" callbacks up, "back" callbacks down |
| BookingWizard.BackUndoesForward | src/Components/Booking/BookingPage.jsx:263-289 | each back callback returns to the step its matching next callback left |
| BookingWizard.StepperShape | src/Components/Booking/BookingPage.jsx:223-248 | at each valid step the three stepper items read: done for the earlier steps, current for this one, upcoming for the later ones |
| BookingWizard.ReviewFromWizardNeverSubmits | src/Components/Booking/BookingPage.jsx:282-289 | whatever the wizard has gathered, the inputs it gives the review step never pass the review's submit preconditions |
| BookingWizard.Wizard.constructor | src/Components/Booking/BookingPage.jsx:110-113 | the page starts at step 1 with no passengers, no contact and no flight |
| BookingWizard.Wizard.LoadFlight | src/Components/Booking/BookingPage.jsx:116-156 | reading the store key by key, the effect sets the flight or raises the alert exactly as the resolution rule decides; the step and the gathered data are unchanged |
| BookingWizard.Wizard.OnPassengersDone | src/Components/Booking/BookingPage.jsx:263-270 | from step 1, the passenger list is stored and the cursor moves to 2 |
| BookingWizard.Wizard.OnContactDone | src/Components/Booking/BookingPage.jsx:272-280 | from step 2, the contact record is stored and the cursor moves to 3 |
| BookingWizard.Wizard.OnBack | src/Components/Booking/BookingPage.jsx:272-289 | a back callback moves the cursor down one step and keeps everything gathered |
| BookingWizard.Wizard.ReviewProps | src/Components/Booking/BookingPage.jsx:282-289 | the review step receives the gathered passengers, contact and flight, and its submit is blocked |
| BookingWizard.Decimal | src/Components/Booking/BookingPage.jsx:159-164 | the decimal text of a count is non-empty and made of digits |
| BookingWizard.ReadDecimalInverts | src/Components/Booking/BookingPage.jsx:159-164 | reading the decimal text of a count gives back that count |
| BookingWizard.LabelOfPositive | src/Components/Booking/BookingPage.jsx:159-164 | for a positive count the label is the hours, "h ", the remaining minutes and "m" |
| BookingWizard.DurationLabelRoundTrip | src/Components/Booking/BookingPage.jsx:159-164 | for a positive number of minutes, the "<h>h <m>m" label reads back as that number |
| BookingWizard.EmptyDurationLabel | src/Components/Booking/BookingPage.jsx:159-164 | the label is empty exactly when the duration is absent or zero |
| FlightSearchForm.ToUpper | src/Components/FlightScheduleComponent/FlightSearch.jsx:163-175 | upper-casing keeps the length and upper-cases each character in place |
| FlightSearchForm.ToUpperSettles | src/Components/FlightScheduleComponent/FlightSearch.jsx:163-175 | an upper-cased code holds no lower-case letter, and upper-casing it again changes nothing |
| FlightSearchForm.Decrement | src/Components/FlightScheduleComponent/FlightSearch.jsx:224-226 | the "−" button never goes below zero, and lowers any positive count by one |
| FlightSearchForm.CounterButtons | src/Components/FlightScheduleComponent/FlightSearch.jsx:218-240 | on reachable counts "+" then "−" is the identity, "−" then "+" is the identity above zero, and "−" at zero stays at zero |
| FlightSearchForm.SetCounter | src/Components/FlightScheduleComponent/FlightSearch.jsx:218-240 | a button changes only its own counter; the codes, dates and class are kept |
| FlightSearchForm.CountersStayNonNegative | src/Components/FlightScheduleComponent/FlightSearch.jsx:218-240 | from non-negative counts both buttons keep all three counters non-negative, and the adults counter can fall from its initial 1 to 0 |
| FlightSearchForm.DateRules | src/Components/FlightScheduleComponent/FlightSearch.jsx:45-67 | past the schema the departure-date message never appears; a schema-valid one-way or multi-city search always proceeds; a schema-valid round trip proceeds exactly when it has a return date; any form that passes as a round trip passes for every trip type |
| FlightSearchForm.PayloadIgnoresOtherFields | src/Components/FlightScheduleComponent/FlightSearch.jsx:72-77 | the payload does not depend on the return date, children, infants or travel class |
| FlightSearchForm.FailureText | src/Components/FlightScheduleComponent/FlightSearch.jsx:110-112 | the failure message is the server's message when that is non-empty, and "Search failed. Please try again." otherwise |
| FlightSearchForm.StoreResults | src/Components/FlightScheduleComponent/FlightSearch.jsx:91-105 | after a result the store holds the serialised flights and payload under the two search keys, and every other key keeps its value |
| FlightSearchForm.SearchForm.constructor | src/Components/FlightScheduleComponent/FlightSearch.jsx:14-43 | the form starts with the initial values, a round trip, no error and not loading |
| FlightSearchForm.SearchForm.SetTripType | src/Components/FlightScheduleComponent/FlightSearch.jsx:124-130 | the trip type changes; the form values, the session store, the error, the loading flag and the navigation are unchanged |
| FlightSearchForm.SearchForm.EditFrom | src/Components/FlightScheduleComponent/FlightSearch.jsx:159-166 | the origin becomes the upper-cased text; the other values, the trip type, the session store, the error, the loading flag and the navigation are unchanged |
| FlightSearchForm.SearchForm.EditTo | src/Components/FlightScheduleComponent/FlightSearch.jsx:169-176 | the destination becomes the upper-cased text; the other values, the trip type, the session store, the error, the loading flag and the navigation are unchanged |
| FlightSearchForm.SearchForm.PickDate | src/Components/FlightScheduleComponent/FlightSearch.jsx:179-187 | the departure date changes; the other values, the trip type, the session store, the error, the loading flag and the navigation are unchanged |
| FlightSearchForm.SearchForm.PickReturnDate | src/Components/FlightScheduleComponent/FlightSearch.jsx:190-198 | on a round trip (the picker is disabled otherwise) the return date changes; the other values, the trip type, the session store, the error, the loading flag and the navigation are unchanged |
| FlightSearchForm.SearchForm.PickClass | src/Components/FlightScheduleComponent/FlightSearch.jsx:246-257 | the travel class changes; the other values, the trip type, the session store, the error, the loading flag and the navigation are unchanged |
| FlightSearchForm.SearchForm.DecrementCounter | src/Components/FlightScheduleComponent/FlightSearch.jsx:222-230 | the chosen counter is decremented, clamped at zero; every other value, the trip type, the store, the error, the loading flag and the navigation are unchanged |
| FlightSearchForm.SearchForm.IncrementCounter | src/Components/FlightScheduleComponent/FlightSearch.jsx:232-240 | the chosen counter is incremented; every other value, the trip type, the store, the error, the loading flag and the navigation are unchanged |
| FlightSearchForm.SearchForm.HandleSubmit | src/Components/FlightScheduleComponent/FlightSearch.jsx:55-116 | the request is sent exactly when the date checks pass, otherwise their message is shown; the payload carries from, to, the formatted date and adults; a non-empty result rewrites the two session keys and navigates to the schedule page; an empty result shows "No flights found"; a failure shows the server's message or the fallback; loading ends false |
| FlightSearchForm.SearchForm.Submit | src/Components/FlightScheduleComponent/FlightSearch.jsx:45-53 | values and trip type are kept. A form failing the schema sends nothing and changes nothing. A schema-valid form has every outcome of the submit handler: the date checks, the three-character payload, the session writes and navigation on a non-empty result, "No flights found" on an empty one, and the failure text |
| FareServices.StatusFollowsTable | src/Components/FlightScheduleComponent/FlightDetailModal.jsx:62-71 | a service's status is the entry for its chargeable marker among the three known strings, and Unknown for anything else, including a missing service |
| FareServices.StatusTextsDistinct | src/Components/FlightScheduleComponent/FlightDetailModal.jsx:62-71 | different statuses get different labels |
| FareServices.AsListNormalises | src/Components/FlightScheduleComponent/FlightDetailModal.jsx:24-32 | normalising to a list is settled after one step, and gives no entries only for an empty array |
| FareServices.NoServicesExactly | src/Components/FlightScheduleComponent/FlightDetailModal.jsx:73-78 | a brand lists no services exactly when its optional services are absent, falsy, or an empty array |
| FareServices.TruthyBrands | src/Components/FlightScheduleComponent/FlightDetailModal.jsx:24-32 | the brand list is no longer than the fare infos and holds only truthy brands |
| FareServices.TruthyBrandsOfOne | src/Components/FlightScheduleComponent/FlightDetailModal.jsx:28-30 | one fare info contributes its brand when that is truthy and nothing otherwise; with the concatenation lemma this fixes the whole list |
| FareServices.TruthyBrandsConcat | src/Components/FlightScheduleComponent/FlightDetailModal.jsx:24-32 | brands are collected fare info by fare info, in order |
| FareServices.AllBrandsKept | src/Components/FlightScheduleComponent/FlightDetailModal.jsx:24-32 | when every fare info has a brand, the list holds each of them at the same position |
| FareServices.KeyServices | src/Components/FlightScheduleComponent/FlightDetailModal.jsx:174-180 | the kept services are exactly those of the brand whose type is Baggage, MealOrBeverage or InFlightEntertainment |
| FareServices.KeyServicesConcat | src/Components/FlightScheduleComponent/FlightDetailModal.jsx:174-180 | the filter works service by service, keeping order and multiplicity |
| FareServices.Best | src/Components/FlightScheduleComponent/FlightDetailModal.jsx:183-198 | the kept service of a type is one of the brand's services of that type, and there is one exactly when the brand has a service of that type |
| FareServices.BestAppend | src/Components/FlightScheduleComponent/FlightDetailModal.jsx:185-198 | one loop step: a new service of a type is kept if nothing is kept yet, or if the kept one is "Not offered" and the new one is not; otherwise the kept service stays |
| FareServices.KeyFilterKeepsBest | src/Components/FlightScheduleComponent/FlightDetailModal.jsx:174-198 | the service kept for a key type is the same whether or not the other types are filtered out first |
| FareServices.BuildServiceMap | src/Components/FlightScheduleComponent/FlightDetailModal.jsx:183-198 | after the loop, the entry for each type is the kept service of that type: the first offered one, else the first one |
| FareServices.PrioritisedShape | src/Components/FlightScheduleComponent/FlightDetailModal.jsx:200-207 | at most three services are shown, in the order Baggage, Meal, Entertainment, each the kept service of its own type, one per type present |
| FareServices.TitlesOfKeyServices | src/Components/FlightScheduleComponent/FlightDetailModal.jsx:239-251 | every shown service has a truthy title: its description or "Baggage" for baggage, "Meal" for meal, "WiFi" for entertainment |
| FareServices.ContinueAfterFetch | src/Components/FlightScheduleComponent/FlightDetailModal.jsx:327-339 | after a successful fetch, "Continue to Booking" lets the user through exactly when the body's pricing solution and itinerary are both truthy, and then carries the flight with those two values |
| FareServices.DetailModal.constructor | src/Components/FlightScheduleComponent/FlightDetailModal.jsx:5-10 | the modal starts loading, with no pricing, itinerary, brands, error or alert |
| FareServices.DetailModal.FetchDetails | src/Components/FlightScheduleComponent/FlightDetailModal.jsx:12-42 | on success the pricing solution, itinerary and pricing info come from the body, and the brand list is replaced only when fare info is present; on failure only the error changes; loading ends false |
| FareServices.DetailModal.ShownServices | src/Components/FlightScheduleComponent/FlightDetailModal.jsx:173-207 | the services shown for a brand are the kept Baggage, Meal and Entertainment services of the brand's own service list, in that order, skipping absent types |
| FareServices.DetailModal.Continue | src/Components/FlightScheduleComponent/FlightDetailModal.jsx:326-340 | the button navigates exactly when the fetched pricing solution and itinerary are both truthy, carrying them; otherwise it raises the "Pricing or itinerary not available" alert; the fetched state is unchanged |
| AirportAutocomplete.ToLower | src/Components/Common/AutoComplete.jsx:41-49 | lower-casing keeps the length and lower-cases each character in place |
| AirportAutocomplete.MatchIgnoresCase | src/Components/Common/AutoComplete.jsx:41-49 | a query matches an airport exactly when its lower-cased form does |
| AirportAutocomplete.CodeFindsAirport | src/Components/Common/AutoComplete.jsx:41-49 | an airport always matches its own code |
| AirportAutocomplete.FilterMatches | src/Components/Common/AutoComplete.jsx:41-50 | the filtered list holds exactly the airports that match, and is no longer than the list |
| AirportAutocomplete.FilterKeepsOrder | src/Components/Common/AutoComplete.jsx:41-50 | filtering keeps list order: the matches of a concatenation are the matches of each part, in turn |
| AirportAutocomplete.SuggestionsSpec | src/Components/Common/AutoComplete.jsx:30-55 | a query under two characters suggests nothing. Otherwise the suggestions are the leading matches in list order: all of them when eight or fewer match, exactly eight otherwise, each a matching airport of the list |
| AirportAutocomplete.Autocomplete.constructor | src/Components/Common/AutoComplete.jsx:4-8 | the input starts with the given value or "", with no suggestions, closed, and no airports |
| AirportAutocomplete.Autocomplete.AirportsLoaded | src/Components/Common/AutoComplete.jsx:12-17 | the loaded list replaces the airports and nothing else changes |
| AirportAutocomplete.Autocomplete.HandleInputChange | src/Components/Common/AutoComplete.jsx:30-55 | the input shows the query, the suggestions are those the filter rule gives, and the dropdown is open exactly when there is a suggestion |
| AirportAutocomplete.Autocomplete.HandleSelect | src/Components/Common/AutoComplete.jsx:57-61 | the input shows "CODE - City", only the code is reported to the parent, and the dropdown closes |
| AirportAutocomplete.Autocomplete.HandleClear | src/Components/Common/AutoComplete.jsx:63-67 | the input is emptied, "" is reported, the suggestions are dropped, and the open flag is left as it was, so nothing is shown |
| AirportAutocomplete.Autocomplete.ClickOutside | src/Components/Common/AutoComplete.jsx:19-28 | a click outside closes the dropdown and changes nothing else |
| AirportAutocomplete.Autocomplete.Focus | src/Components/Common/AutoComplete.jsx:76 | focusing opens the dropdown when the text has at least two characters, and otherwise leaves it as it was |

## Left out

- Network requests are left out: passenger validation, booking creation, flight search, flight details and the airport list file. Each outcome is a parameter of the handler that awaits it, so timing and cancellation are not modelled.
- `sessionStorage` is a `map<string, string>` field or parameter, and browser storage limits are not modelled. `JSON.parse` and `JSON.stringify` are function parameters, so their text format is not modelled.
- Navigation and `alert` are recorded as values (the navigation target or state, and the alert text) rather than performed.
- Date handling is left out: the date picker values and dayjs formatting. A picked date is represented by the text its `YYYY-MM-DD` format gives.
- `toUpperCase` / `toLowerCase` are modelled for ASCII letters only, so Unicode case mapping is not modelled. String lengths count characters, not UTF-16 code units.
- Numbers are integers (`JNum(int)`). NaN, fractional and non-numeric values (for example a fractional `durationMinutes` or a counter holding text) are not modelled.
- PassengerList.PassengerEditor.HandleChange: updates the passenger as a value. In the source the spread copies only the array, so the edited passenger object is shared with the previous state and mutated in place.
- BookingWizard.DurationLabelRoundTrip: stated for positive durations only. A negative count produces a label with minus signs, and the reader does not accept it.
- Rendering is left out:
  - the JSX markup, icons and colours of the cards;
  - the passenger form fields' option lists;
  - the review step's summary display with its locale date formatting;
  - the modal's segment list, price breakdown and duration line;
  - the loading and error banners.
- These React effects are left out: re-running the details fetch when the flight changes, and batching of state updates.
- The search form's traveller drop-down open/close state and its outside-click listener are left out. They only show or hide the counters.
- The search form's unused `flights` state is left out, and so are the modal's close button and `onClose`.
- The OTP functions of the contact step are commented out in the source and are not part of this model.
- Response bodies that are not objects are left out. The model reads every answered body as an object, so these are not modelled:
  - a null search body, which throws at `res.data.flights` and so shows "Search failed. Please try again.";
  - a null details body, which throws at `res.data.pricingSolution` and so shows the error;
  - a null entry in a brand's service list, which throws in the key-type filter (the model skips it);
  - a passenger-validation `errors` value that is defined but not an array: calling its missing `join` throws out of the catch block, so no error is set.
- A parsed null selection is held in the wizard's `flight` field as `Some(JNull)`, while `None` stands for the initial null. Both are falsy, and the page renders neither.
- The autocomplete's failed airport fetch only logs an error and leaves the list empty. It is not modelled as an operation.
- The flight schedule page, booking-submitted page, admin dashboard, header, home page, router and API client are not part of this model.
