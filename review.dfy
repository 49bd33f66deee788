/**
 * The review step of the booking wizard (src/Components/Booking/ReviewBooking.jsx):
 * defensive defaults for its inputs, the three preconditions checked before
 * the booking request, the request body, and how the outcome is shown.
 */
module ReviewStep {
  import opened JsonValue
  import opened PassengerList
  import opened ContactStep

  /**
   * The component's inputs. `passengers == None` stands for a value that is
   * not an array; `contactInfo == None` for a missing (null or undefined) record.
   */
  datatype Props = Props(
    pricingSolution: Option<Json>,
    itinerary: Option<Json>,
    passengers: Option<seq<Passenger>>,
    contactInfo: Option<Contact>,
    flight: Option<Json>)

  /** The request body sent to the booking-creation endpoint. `contactInfo == None` is `{}`. */
  datatype BookingRequest = BookingRequest(
    flight: Option<Json>,
    pricingSolution: Option<Json>,
    itinerary: Option<Json>,
    passengers: seq<Passenger>,
    contactInfo: Option<Contact>,
    formOfPayment: string)

  /** The outcome of the booking request. */
  datatype BookingResponse =
    | Answered(success: Option<Json>, bookingId: Option<Json>, message: Option<Json>)
    | Failed(serverError: Option<string>)   // `err.response?.data?.error`

  /** The navigation state handed to the submitted-booking page. */
  datatype Submitted = Submitted(bookingId: Option<Json>, message: Option<Json>)

  const IncompleteMessage := "Incomplete booking data. Please restart booking flow."
  const FallbackError := "Failed to submit booking"
  const CashPayment := "Cash"

  /** `Array.isArray(passengers) ? passengers : []`. */
  function SafePassengers(p: Props): seq<Passenger> {
    p.passengers.GetOr([])
  }

  /** `safeContact.email`, where `safeContact = contactInfo || {}`; "" when there is none. */
  function SafeEmail(p: Props): string {
    if p.contactInfo.Some? then p.contactInfo.value.email else ""
  }

  /** The three preconditions of `handleSubmitBooking`. */
  predicate ReadyToSubmit(p: Props) {
    |SafePassengers(p)| > 0 && SafeEmail(p) != "" && Truthy(p.pricingSolution)
  }

  /** Each of the three preconditions alone blocks the request. */
  lemma SubmitBlockers(p: Props)
    ensures p.passengers.None? || p.passengers == Some([]) ==> !ReadyToSubmit(p)
    ensures p.contactInfo.None? || p.contactInfo.value.email == "" ==> !ReadyToSubmit(p)
    ensures !Truthy(p.pricingSolution) ==> !ReadyToSubmit(p)
    ensures ReadyToSubmit(p) ==> p.passengers.Some? && |p.passengers.value| > 0 && p.contactInfo.Some?
  {
  }

  function RequestBody(p: Props): BookingRequest {
    BookingRequest(p.flight, p.pricingSolution, p.itinerary, SafePassengers(p), p.contactInfo, CashPayment)
  }

  /** `err.response?.data?.error || "Failed to submit booking"`. */
  function FailureText(serverError: Option<string>): (r: string)
    ensures r != ""
    ensures serverError.Some? && serverError.value != "" ==> r == serverError.value
    ensures !(serverError.Some? && serverError.value != "") ==> r == FallbackError
  {
    if serverError.Some? && serverError.value != "" then serverError.value else FallbackError
  }

  /** The state of the review step. */
  class ReviewForm {
    var loading: bool
    var error: Option<string>

    constructor ()
      ensures !loading && error == None
    {
      loading := false;
      error := None;
    }

    /**
     * `handleSubmitBooking`, with the request's outcome as a parameter.
     * `request` is the body sent, if any; `navigation` the state handed to
     * the submitted-booking page, if it is navigated to.
     */
    method HandleSubmitBooking(props: Props, response: BookingResponse)
      returns (request: Option<BookingRequest>, navigation: Option<Submitted>)
      modifies this
      ensures request.Some? <==> ReadyToSubmit(props)
      ensures request.Some? ==> request.value == RequestBody(props)
      ensures !ReadyToSubmit(props) ==>
        navigation == None && error == Some(IncompleteMessage) && loading == old(loading)
      ensures ReadyToSubmit(props) ==> !loading
      ensures ReadyToSubmit(props) && response.Answered? ==>
        error == None &&
        navigation == (if Truthy(response.success) then Some(Submitted(response.bookingId, response.message)) else None)
      ensures ReadyToSubmit(props) && response.Failed? ==>
        navigation == None && error == Some(FailureText(response.serverError))
    {
      var safePassengers := SafePassengers(props);
      if |safePassengers| == 0 || SafeEmail(props) == "" || !Truthy(props.pricingSolution) {
        error := Some(IncompleteMessage);
        return None, None;
      }
      loading := true;
      error := None;
      request := Some(BookingRequest(props.flight, props.pricingSolution, props.itinerary,
                                     safePassengers, props.contactInfo, CashPayment));
      navigation := None;
      match response {
        case Answered(success, bookingId, message) =>
          if Truthy(success) {
            navigation := Some(Submitted(bookingId, message));
          }
        case Failed(serverError) =>
          error := Some(FailureText(serverError));
      }
      loading := false;
    }
  }
}
