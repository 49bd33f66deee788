/**
 * The flight detail modal (src/Components/FlightScheduleComponent/FlightDetailModal.jsx):
 * the status label of an optional service, the singleton-or-array
 * normalisation of services and fare infos, the brand list, the "best
 * service per type" table built by a loop, its fixed priority order, the
 * service titles, and the precondition of "Continue to Booking".
 */
module FareServices {
  import opened JsonValue

  const TypeKey := "@_Type"
  const ChargeableKey := "@_Chargeable"
  const IncludedText := "Included in the brand"
  const ForFeeText := "Available for a charge"
  const NotOfferedText := "Not offered"
  const Baggage := "Baggage"
  const Meal := "MealOrBeverage"
  const Entertainment := "InFlightEntertainment"

  // ---------------------------------------------------------------------------
  // Service status
  // ---------------------------------------------------------------------------

  datatype ServiceStatus = Included | AvailableForFee | NotAvailable | Unknown

  /** The label and colour each status is shown with. */
  function StatusText(s: ServiceStatus): string {
    match s
    case Included => "\U{2705} Included"
    case AvailableForFee => "\U{1F4B3} Available (Fee)"
    case NotAvailable => "\U{274C} Not available"
    case Unknown => "\U{2139}\U{FE0F} Unknown"
  }

  function StatusColor(s: ServiceStatus): string {
    match s
    case Included => "#4caf50"
    case AvailableForFee => "#ff9800"
    case NotAvailable => "#f44336"
    case Unknown => "#9e9e9e"
  }

  /** `getServiceStatus(service)`: strict comparisons of `service?.["@_Chargeable"]`. */
  function GetServiceStatus(service: Option<Json>): ServiceStatus {
    var chargeable := Member(service, ChargeableKey);
    if chargeable == Some(JStr(IncludedText)) then Included
    else if chargeable == Some(JStr(ForFeeText)) then AvailableForFee
    else if chargeable == Some(JStr(NotOfferedText)) then NotAvailable
    else Unknown
  }

  /** The three known markers as a lookup table. */
  const StatusTable: map<string, ServiceStatus> :=
    map[IncludedText := Included, ForFeeText := AvailableForFee, NotOfferedText := NotAvailable]

  /** The status is the table's entry for a known string marker, and Unknown for anything else. */
  lemma StatusFollowsTable(service: Option<Json>)
    ensures var c := AsText(Member(service, ChargeableKey));
      GetServiceStatus(service) == if c.Some? && c.value in StatusTable then StatusTable[c.value] else Unknown
  {
  }

  /** Distinct statuses are told apart by their labels. */
  lemma StatusTextsDistinct(a: ServiceStatus, b: ServiceStatus)
    requires a != b
    ensures StatusText(a) != StatusText(b)
  {
    assert StatusText(a)[0] != StatusText(b)[0];
  }

  // ---------------------------------------------------------------------------
  // Normalisation and brands
  // ---------------------------------------------------------------------------

  /**
   * `Array.isArray(v) ? v : [v]`: the value survives, either as the list
   * itself or as an entry of it, and the list is empty only for an empty array.
   */
  function AsList(v: Json): (r: seq<Json>)
    ensures JArr(r) == v || v in r
    ensures r == [] ==> v == JArr([])
  {
    if v.JArr? then v.items else [v]
  }

  /** `extractServices(brand)`: nothing when the services are absent or falsy, otherwise them as a list. */
  function ExtractServices(brand: Option<Json>): (r: seq<Json>)
    ensures var opt := Member(Member(brand, "air:OptionalServices"), "air:OptionalService");
      (r != [] ==> Truthy(opt)) &&
      (Truthy(opt) ==> JArr(r) == opt.value || opt.value in r)
  {
    var opt := Member(Member(brand, "air:OptionalServices"), "air:OptionalService");
    if !Truthy(opt) then [] else AsList(opt.value)
  }

  /**
   * Normalising is settled after one step, and a value normalises to no
   * entries only when it is an empty array.
   */
  lemma AsListNormalises(v: Json)
    ensures AsList(JArr(AsList(v))) == AsList(v)
    ensures AsList(v) == [] <==> v == JArr([])
  {
  }

  /** A brand lists no services exactly when they are absent, falsy, or an empty array. */
  lemma NoServicesExactly(brand: Option<Json>)
    ensures var opt := Member(Member(brand, "air:OptionalServices"), "air:OptionalService");
      ExtractServices(brand) == [] <==> !Truthy(opt) || opt == Some(JArr([]))
  {
  }

  function BrandOf(fareInfo: Json): Option<Json> {
    Member(Some(fareInfo), "air:Brand")
  }

  /** `fareInfos.map(fi => fi?.["air:Brand"]).filter(Boolean)`. */
  function TruthyBrands(fareInfos: seq<Json>): (r: seq<Json>)
    ensures |r| <= |fareInfos|
    ensures forall i :: 0 <= i < |r| ==> Truthy(Some(r[i]))
  {
    if fareInfos == [] then []
    else
      var b := BrandOf(fareInfos[0]);
      (if Truthy(b) then [b.value] else []) + TruthyBrands(fareInfos[1..])
  }

  /** The brand list is built fare info by fare info. */
  lemma {:induction false} TruthyBrandsConcat(a: seq<Json>, b: seq<Json>)
    ensures TruthyBrands(a + b) == TruthyBrands(a) + TruthyBrands(b)
  {
    if a == [] {
      assert a + b == b;
    } else {
      assert (a + b)[1..] == a[1..] + b;
      TruthyBrandsConcat(a[1..], b);
    }
  }

  /** One fare info contributes its brand when that is truthy, and nothing otherwise. */
  lemma TruthyBrandsOfOne(fareInfo: Json)
    ensures Truthy(BrandOf(fareInfo)) ==> TruthyBrands([fareInfo]) == [BrandOf(fareInfo).value]
    ensures !Truthy(BrandOf(fareInfo)) ==> TruthyBrands([fareInfo]) == []
  {
    assert [fareInfo][1..] == [];
  }

  /** When every fare info has a brand, the list holds each of them, in order. */
  lemma {:induction false} AllBrandsKept(fareInfos: seq<Json>)
    requires forall i :: 0 <= i < |fareInfos| ==> Truthy(BrandOf(fareInfos[i]))
    ensures |TruthyBrands(fareInfos)| == |fareInfos|
    ensures forall i :: 0 <= i < |fareInfos| ==> BrandOf(fareInfos[i]) == Some(TruthyBrands(fareInfos)[i])
  {
    if fareInfos != [] {
      AllBrandsKept(fareInfos[1..]);
    }
  }

  /** Brand extraction in the fetch: None when the pricing carries no fare info (brandInfo is left as it was). */
  function Brands(pricingSolution: Option<Json>): Option<seq<Json>> {
    var fareInfo := Member(Member(pricingSolution, "air:AirPricingInfo"), "air:FareInfo");
    if Truthy(fareInfo) then Some(TruthyBrands(AsList(fareInfo.value))) else None
  }

  // ---------------------------------------------------------------------------
  // Best service per type
  // ---------------------------------------------------------------------------

  predicate HasType(s: Json, t: string) {
    Member(Some(s), TypeKey) == Some(JStr(t))
  }

  /** The filter `["Baggage", "MealOrBeverage", "InFlightEntertainment"].includes(s["@_Type"])`. */
  predicate IsKeyService(s: Json) {
    HasType(s, Baggage) || HasType(s, Meal) || HasType(s, Entertainment)
  }

  function KeyServices(ss: seq<Json>): (r: seq<Json>)
    ensures |r| <= |ss|
    ensures forall i :: 0 <= i < |r| ==> IsKeyService(r[i])
    ensures forall s :: s in r <==> s in ss && IsKeyService(s)
  {
    if ss == [] then []
    else (if IsKeyService(ss[0]) then [ss[0]] else []) + KeyServices(ss[1..])
  }

  /** The key-service filter keeps order and multiplicity: it works service by service. */
  lemma {:induction false} KeyServicesConcat(a: seq<Json>, b: seq<Json>)
    ensures KeyServices(a + b) == KeyServices(a) + KeyServices(b)
  {
    if a == [] {
      assert a + b == b;
    } else {
      assert (a + b)[0] == a[0] && (a + b)[1..] == a[1..] + b;
      KeyServicesConcat(a[1..], b);
    }
  }

  function TypeOf(s: Json): string
    requires IsKeyService(s)
  {
    Member(Some(s), TypeKey).value.s
  }

  predicate NotOffered(s: Json) {
    Member(Some(s), ChargeableKey) == Some(JStr(NotOfferedText))
  }

  /** The first service of type `t`. */
  function FirstOfType(ss: seq<Json>, t: string): (r: Option<Json>)
    ensures r.Some? ==> r.value in ss && HasType(r.value, t)
  {
    if ss == [] then None
    else if HasType(ss[0], t) then Some(ss[0])
    else FirstOfType(ss[1..], t)
  }

  /** The first service of type `t` that is not marked "Not offered". */
  function FirstOfferedOfType(ss: seq<Json>, t: string): (r: Option<Json>)
    ensures r.Some? ==> r.value in ss && HasType(r.value, t) && !NotOffered(r.value)
    ensures r.Some? ==> FirstOfType(ss, t).Some?
  {
    if ss == [] then None
    else if HasType(ss[0], t) && !NotOffered(ss[0]) then Some(ss[0])
    else FirstOfferedOfType(ss[1..], t)
  }

  /** The service kept for type `t`: the first offered one if any, else the first of that type. */
  function Best(ss: seq<Json>, t: string): (r: Option<Json>)
    ensures r.Some? ==> r.value in ss && HasType(r.value, t)
    ensures r.None? <==> FirstOfType(ss, t).None?
  {
    if FirstOfferedOfType(ss, t).Some? then FirstOfferedOfType(ss, t) else FirstOfType(ss, t)
  }

  lemma {:induction false} FirstOfTypeAppend(ss: seq<Json>, s: Json, t: string)
    ensures FirstOfType(ss + [s], t) ==
      if FirstOfType(ss, t).Some? then FirstOfType(ss, t) else if HasType(s, t) then Some(s) else None
  {
    if ss == [] {
      assert [s][1..] == [];
    } else {
      assert (ss + [s])[1..] == ss[1..] + [s];
      FirstOfTypeAppend(ss[1..], s, t);
    }
  }

  lemma {:induction false} FirstOfferedAppend(ss: seq<Json>, s: Json, t: string)
    ensures FirstOfferedOfType(ss + [s], t) ==
      if FirstOfferedOfType(ss, t).Some? then FirstOfferedOfType(ss, t)
      else if HasType(s, t) && !NotOffered(s) then Some(s) else None
  {
    if ss == [] {
      assert [s][1..] == [];
    } else {
      assert (ss + [s])[1..] == ss[1..] + [s];
      FirstOfferedAppend(ss[1..], s, t);
    }
  }

  /** When the first service of a type is offered, it is also the first offered one. */
  lemma {:induction false} FirstIsOffered(ss: seq<Json>, t: string)
    requires FirstOfType(ss, t).Some? && !NotOffered(FirstOfType(ss, t).value)
    ensures FirstOfferedOfType(ss, t) == FirstOfType(ss, t)
  {
    if !HasType(ss[0], t) {
      FirstIsOffered(ss[1..], t);
    }
  }

  /** One step of the loop: how the kept service for `t` changes when `s` is seen. */
  lemma BestAppend(ss: seq<Json>, s: Json, t: string)
    ensures Best(ss + [s], t) ==
      if !HasType(s, t) then Best(ss, t)
      else if Best(ss, t).None? || (NotOffered(Best(ss, t).value) && !NotOffered(s)) then Some(s)
      else Best(ss, t)
  {
    FirstOfTypeAppend(ss, s, t);
    FirstOfferedAppend(ss, s, t);
    if FirstOfType(ss, t).Some? && !NotOffered(FirstOfType(ss, t).value) {
      FirstIsOffered(ss, t);
    }
  }

  /** Filtering out the other service types changes neither the first nor the first offered service of a key type. */
  lemma {:induction false} KeyFilterKeepsFirsts(ss: seq<Json>, t: string)
    requires t == Baggage || t == Meal || t == Entertainment
    ensures FirstOfType(KeyServices(ss), t) == FirstOfType(ss, t)
    ensures FirstOfferedOfType(KeyServices(ss), t) == FirstOfferedOfType(ss, t)
  {
    if ss != [] {
      KeyFilterKeepsFirsts(ss[1..], t);
      var rest := KeyServices(ss[1..]);
      if IsKeyService(ss[0]) {
        assert KeyServices(ss) == [ss[0]] + rest;
        assert ([ss[0]] + rest)[0] == ss[0] && ([ss[0]] + rest)[1..] == rest;
      } else {
        assert KeyServices(ss) == rest;
      }
    }
  }

  /** The service kept for a key type is the same whether or not the other types are filtered out first. */
  lemma KeyFilterKeepsBest(ss: seq<Json>, t: string)
    requires t == Baggage || t == Meal || t == Entertainment
    ensures Best(KeyServices(ss), t) == Best(ss, t)
  {
    KeyFilterKeepsFirsts(ss, t);
  }

  function Lookup(m: map<string, Json>, t: string): Option<Json> {
    if t in m then Some(m[t]) else None
  }

  /**
   * The `serviceMap` loop: the first service of each type is kept, and replaced
   * once by a later one of that type if it is "Not offered" and the later one is not.
   */
  method BuildServiceMap(services: seq<Json>) returns (serviceMap: map<string, Json>)
    requires forall i :: 0 <= i < |services| ==> IsKeyService(services[i])
    ensures forall t :: Lookup(serviceMap, t) == Best(services, t)
  {
    serviceMap := map[];
    var i := 0;
    while i < |services|
      invariant 0 <= i <= |services|
      invariant forall t :: Lookup(serviceMap, t) == Best(services[..i], t)
    {
      var s := services[i];
      var serviceType := TypeOf(s);
      var existing := Lookup(serviceMap, serviceType);
      if existing.None? || (NotOffered(existing.value) && !NotOffered(s)) {
        serviceMap := serviceMap[serviceType := s];
      }
      assert services[..i + 1] == services[..i] + [s];
      forall t
        ensures Lookup(serviceMap, t) == Best(services[..i + 1], t)
      {
        BestAppend(services[..i], s, t);
      }
      i := i + 1;
    }
    assert services[..i] == services;
  }

  /** `[...].map(type => serviceMap[type]).filter(Boolean)` over the priority list. */
  function Present(entries: seq<Option<Json>>): (r: seq<Json>)
    ensures |r| <= |entries|
  {
    if entries == [] then []
    else (if entries[0].Some? then [entries[0].value] else []) + Present(entries[1..])
  }

  /** The services shown for a brand, in the order Baggage, Meal, Entertainment. */
  function Prioritised(m: map<string, Json>): seq<Json> {
    Present([Lookup(m, Baggage), Lookup(m, Meal), Lookup(m, Entertainment)])
  }

  function Rank(s: Json): nat {
    if HasType(s, Baggage) then 0 else if HasType(s, Meal) then 1 else 2
  }

  lemma TypesAreExclusive(s: Json)
    ensures !(HasType(s, Baggage) && HasType(s, Meal))
    ensures !(HasType(s, Baggage) && HasType(s, Entertainment))
    ensures !(HasType(s, Meal) && HasType(s, Entertainment))
  {
  }

  /**
   * What is shown for the services of one brand: at most three entries of
   * strictly increasing priority (so distinct types), each the kept service of
   * its type, and one for each type present.
   */
  lemma PrioritisedShape(services: seq<Json>, m: map<string, Json>)
    requires forall t :: Lookup(m, t) == Best(services, t)
    ensures var r := Prioritised(m);
      |r| <= 3 &&
      (forall i, j :: 0 <= i < j < |r| ==> Rank(r[i]) < Rank(r[j])) &&
      (forall i :: 0 <= i < |r| ==> IsKeyService(r[i]) && Best(services, TypeOf(r[i])) == Some(r[i])) &&
      |r| == (if Best(services, Baggage).Some? then 1 else 0)
           + (if Best(services, Meal).Some? then 1 else 0)
           + (if Best(services, Entertainment).Some? then 1 else 0)
  {
    var b, me, e := Lookup(m, Baggage), Lookup(m, Meal), Lookup(m, Entertainment);
    assert b.Some? ==> HasType(b.value, Baggage);
    assert me.Some? ==> HasType(me.value, Meal);
    assert e.Some? ==> HasType(e.value, Entertainment);
    if b.Some? { TypesAreExclusive(b.value); }
    if me.Some? { TypesAreExclusive(me.value); }
    if e.Some? { TypesAreExclusive(e.value); }
    var entries := [b, me, e];
    assert entries[1..] == [me, e];
    assert entries[1..][1..] == [e];
    assert entries[1..][1..][1..] == [];
    assert Present([e]) == (if e.Some? then [e.value] else []);
    assert Present([me, e]) == (if me.Some? then [me.value] else []) + Present([e]);
  }

  /** The heading of a shown service. */
  function Title(service: Json): Option<Json> {
    var serviceType := Member(Some(service), TypeKey);
    if serviceType == Some(JStr(Baggage)) then
      var desc := Member(Member(Some(service), "common_v54_0:ServiceInfo"), "common_v54_0:Description");
      if Truthy(desc) then desc else Some(JStr("Baggage"))
    else if serviceType == Some(JStr(Meal)) then Some(JStr("Meal"))
    else if serviceType == Some(JStr(Entertainment)) then Some(JStr("WiFi"))
    else serviceType
  }

  /** Every shown service has a non-empty title: its description or "Baggage", "Meal", or "WiFi". */
  lemma TitlesOfKeyServices(service: Json)
    requires IsKeyService(service)
    ensures Truthy(Title(service))
    ensures HasType(service, Meal) ==> Title(service) == Some(JStr("Meal"))
    ensures HasType(service, Entertainment) ==> Title(service) == Some(JStr("WiFi"))
    ensures HasType(service, Baggage) ==>
      var desc := Member(Member(Some(service), "common_v54_0:ServiceInfo"), "common_v54_0:Description");
      Title(service) == (if Truthy(desc) then desc else Some(JStr("Baggage")))
  {
  }

  // ---------------------------------------------------------------------------
  // The modal's state
  // ---------------------------------------------------------------------------

  /** The outcome of the details request; a body is always an object. */
  datatype DetailsResponse = Answered(data: map<string, Json>) | Failed(message: string)

  /** The navigation state handed to the booking page. */
  datatype BookingNavigation = BookingNavigation(flight: Json, pricingSolution: Json, itinerary: Json)

  /** The navigation state object `{ flight, pricingSolution, itinerary }`. */
  function NavigationState(nav: BookingNavigation): Json {
    JObj(map["flight" := nav.flight, "pricingSolution" := nav.pricingSolution, "itinerary" := nav.itinerary])
  }

  /** "Continue to Booking": blocked unless both the pricing solution and the itinerary are truthy. */
  function ContinueToBooking(flight: Json, pricingSolution: Option<Json>, itinerary: Option<Json>)
    : (r: Option<BookingNavigation>)
    ensures Truthy(pricingSolution) && Truthy(itinerary) ==> r.Some?
    ensures r.Some? ==> var state := Some(NavigationState(r.value));
      Member(state, "flight") == Some(flight) &&
      Member(state, "pricingSolution") == pricingSolution && Truthy(pricingSolution) &&
      Member(state, "itinerary") == itinerary && Truthy(itinerary)
  {
    if !Truthy(pricingSolution) || !Truthy(itinerary) then None
    else Some(BookingNavigation(flight, pricingSolution.value, itinerary.value))
  }

  /**
   * The details a successful fetch stores let "Continue to Booking" through
   * exactly when the body's pricing solution and itinerary are both truthy,
   * and it then carries those two values unchanged.
   */
  lemma ContinueAfterFetch(d: map<string, Json>, flight: Json)
    ensures var data := Some(JObj(d));
      var nav := ContinueToBooking(flight, Member(data, "pricingSolution"), Member(data, "itinerary"));
      (nav.Some? <==> "pricingSolution" in d && "itinerary" in d &&
                      Truthy(Some(d["pricingSolution"])) && Truthy(Some(d["itinerary"]))) &&
      (nav.Some? ==> nav.value == BookingNavigation(flight, d["pricingSolution"], d["itinerary"]))
  {
  }

  const UnavailableAlert := "Pricing or itinerary not available"

  class DetailModal {
    var pricingInfo: Option<Json>
    var rawPricingSolution: Option<Json>
    var itinerary: Option<Json>
    var brandInfo: Option<seq<Json>>
    var loading: bool
    var error: Option<string>
    var alerted: Option<string>   // the last alert shown

    constructor ()
      ensures pricingInfo == None && rawPricingSolution == None && itinerary == None
      ensures brandInfo == None && loading && error == None && alerted == None
    {
      alerted := None;
      pricingInfo, rawPricingSolution, itinerary := None, None, None;
      brandInfo := None;
      loading := true;
      error := None;
    }

    /** `fetchDetails`, with the request's outcome as a parameter. */
    method FetchDetails(response: DetailsResponse)
      modifies this
      ensures !loading && alerted == old(alerted)
      ensures response.Failed? ==>
        error == Some(response.message) && pricingInfo == old(pricingInfo) &&
        rawPricingSolution == old(rawPricingSolution) && itinerary == old(itinerary) && brandInfo == old(brandInfo)
      ensures response.Answered? ==>
        var data := Some(JObj(response.data));
        rawPricingSolution == Member(data, "pricingSolution") &&
        itinerary == Member(data, "itinerary") &&
        pricingInfo == Member(rawPricingSolution, "air:AirPricingInfo") &&
        brandInfo == (if Brands(rawPricingSolution).Some? then Brands(rawPricingSolution) else old(brandInfo)) &&
        error == old(error)
    {
      loading := true;
      match response {
        case Answered(fields) =>
          var data := Some(JObj(fields));
          rawPricingSolution := Member(data, "pricingSolution");
          itinerary := Member(data, "itinerary");
          pricingInfo := Member(rawPricingSolution, "air:AirPricingInfo");
          var fareInfo := Member(pricingInfo, "air:FareInfo");
          if Truthy(fareInfo) {
            var fareInfoArray := AsList(fareInfo.value);
            brandInfo := Some(TruthyBrands(fareInfoArray));
          }
          loading := false;
        case Failed(message) =>
          error := Some(message);
          loading := false;
      }
    }

    /**
     * The key services shown for one brand, computed as the modal does it: the
     * kept Baggage, Meal and Entertainment services of the brand's own list.
     */
    method ShownServices(brand: Json) returns (shown: seq<Json>)
      ensures var ss := ExtractServices(Some(brand));
        shown == Present([Best(ss, Baggage), Best(ss, Meal), Best(ss, Entertainment)])
    {
      var services := KeyServices(ExtractServices(Some(brand)));
      var serviceMap := BuildServiceMap(services);
      shown := Prioritised(serviceMap);
      KeyFilterKeepsBest(ExtractServices(Some(brand)), Baggage);
      KeyFilterKeepsBest(ExtractServices(Some(brand)), Meal);
      KeyFilterKeepsBest(ExtractServices(Some(brand)), Entertainment);
    }

    /**
     * The "Continue to Booking" button: it navigates with the fetched pricing
     * solution and itinerary when both are truthy, and alerts otherwise.
     */
    method Continue(flight: Json) returns (navigation: Option<BookingNavigation>)
      modifies this
      ensures navigation == ContinueToBooking(flight, rawPricingSolution, itinerary)
      ensures navigation.Some? <==> Truthy(rawPricingSolution) && Truthy(itinerary)
      ensures navigation.None? ==> alerted == Some(UnavailableAlert)
      ensures navigation.Some? ==> alerted == old(alerted)
      ensures pricingInfo == old(pricingInfo) && rawPricingSolution == old(rawPricingSolution)
      ensures itinerary == old(itinerary) && brandInfo == old(brandInfo)
      ensures loading == old(loading) && error == old(error)
    {
      navigation := ContinueToBooking(flight, rawPricingSolution, itinerary);
      if navigation.None? {
        alerted := Some(UnavailableAlert);
      }
    }
  }
}
