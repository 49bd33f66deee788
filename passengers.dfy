/**
 * The passenger step of the booking wizard (src/Components/Booking/Passengers.jsx):
 * an editable list of passenger records that never becomes empty, and the
 * "one infant per adult" counting rule that gates the call to the
 * passenger-validation service.
 */
module PassengerList {
  import opened JsonValue

  /** One passenger; every field holds the text of its form control. */
  datatype Passenger = Passenger(
    title: string,
    firstName: string,
    lastName: string,
    gender: string,
    paxType: string,   // the record's `type`: "ADT", "CNN" or "INF"
    dob: string,
    passportNumber: string,
    passportExpiry: string,
    nationality: string)

  /** The fields the form's controls edit through `handleChange`. */
  datatype Field =
    Title | FirstName | LastName | Gender | PaxType | Dob | PassportNumber | PassportExpiry | Nationality

  const Adult := "ADT"
  const Infant := "INF"
  const InfantMessage := "Each infant must be associated with one adult (1 infant per adult allowed)"

  /** The record a new passenger slot starts with. */
  function EmptyPassenger(): Passenger {
    Passenger("MR", "", "", "M", Adult, "", "", "", "")
  }

  function Get(p: Passenger, f: Field): string {
    match f
    case Title => p.title
    case FirstName => p.firstName
    case LastName => p.lastName
    case Gender => p.gender
    case PaxType => p.paxType
    case Dob => p.dob
    case PassportNumber => p.passportNumber
    case PassportExpiry => p.passportExpiry
    case Nationality => p.nationality
  }

  /** `p[field] = value`: that field takes the value and every other field keeps its own. */
  function Set(p: Passenger, f: Field, v: string): (r: Passenger)
    ensures Get(r, f) == v
    ensures forall g :: g != f ==> Get(r, g) == Get(p, g)
  {
    match f
    case Title => p.(title := v)
    case FirstName => p.(firstName := v)
    case LastName => p.(lastName := v)
    case Gender => p.(gender := v)
    case PaxType => p.(paxType := v)
    case Dob => p.(dob := v)
    case PassportNumber => p.(passportNumber := v)
    case PassportExpiry => p.(passportExpiry := v)
    case Nationality => p.(nationality := v)
  }

  /** `s.filter((_, i) => i !== idx)`: drops the entry at `idx`, if there is one. */
  function Without<T>(s: seq<T>, idx: int): (r: seq<T>)
    ensures 0 <= idx < |s| ==> |r| == |s| - 1
    ensures 0 <= idx < |s| ==> forall j :: 0 <= j < |r| ==> r[j] == (if j < idx then s[j] else s[j + 1])
    ensures !(0 <= idx < |s|) ==> r == s
  {
    if 0 <= idx < |s| then s[..idx] + s[idx + 1..] else s
  }

  /** `ps.filter(p => p.type === t).length`. */
  function CountType(ps: seq<Passenger>, t: string): (n: nat)
    ensures n <= |ps|
    ensures n == 0 <==> forall i :: 0 <= i < |ps| ==> ps[i].paxType != t
  {
    if ps == [] then 0
    else (if ps[0].paxType == t then 1 else 0) + CountType(ps[1..], t)
  }

  /** `validateInfantRule`: the message when infants outnumber adults, nothing otherwise. */
  function ValidateInfantRule(ps: seq<Passenger>): Option<string> {
    if CountType(ps, Infant) > CountType(ps, Adult) then Some(InfantMessage) else None
  }

  lemma {:induction false} CountAppend(a: seq<Passenger>, b: seq<Passenger>, t: string)
    ensures CountType(a + b, t) == CountType(a, t) + CountType(b, t)
  {
    if a == [] {
      assert a + b == b;
    } else {
      assert (a + b)[1..] == a[1..] + b;
      CountAppend(a[1..], b, t);
    }
  }

  lemma {:induction false} CountWithout(ps: seq<Passenger>, idx: nat, t: string)
    requires idx < |ps|
    ensures CountType(Without(ps, idx), t) == CountType(ps, t) - (if ps[idx].paxType == t then 1 else 0)
  {
    assert ps == ps[..idx] + [ps[idx]] + ps[idx + 1..];
    CountAppend(ps[..idx] + [ps[idx]], ps[idx + 1..], t);
    CountAppend(ps[..idx], [ps[idx]], t);
    CountAppend(ps[..idx], ps[idx + 1..], t);
    assert CountType([ps[idx]], t) == (if ps[idx].paxType == t then 1 else 0) by {
      assert [ps[idx]][1..] == [];
    }
  }

  lemma {:induction false} CountUpdate(ps: seq<Passenger>, idx: nat, p: Passenger, t: string)
    requires idx < |ps|
    ensures CountType(ps[idx := p], t)
         == CountType(ps, t) - (if ps[idx].paxType == t then 1 else 0) + (if p.paxType == t then 1 else 0)
  {
    if idx > 0 {
      assert ps[idx := p][1..] == ps[1..][idx - 1 := p];
      CountUpdate(ps[1..], idx - 1, p, t);
    } else {
      assert ps[idx := p][1..] == ps[1..];
    }
  }

  /** The passenger types of a list, position by position. */
  function Types(ps: seq<Passenger>): seq<string> {
    seq(|ps|, i requires 0 <= i < |ps| => ps[i].paxType)
  }

  /** Counting by type is the multiplicity of that type among the list's types. */
  lemma {:induction false} CountIsMultiplicity(ps: seq<Passenger>, t: string)
    ensures CountType(ps, t) == multiset(Types(ps))[t]
  {
    if ps != [] {
      CountIsMultiplicity(ps[1..], t);
      assert Types(ps) == [ps[0].paxType] + Types(ps[1..]);
    }
  }

  /**
   * The rule fails exactly when "INF" occurs more often than "ADT" among the
   * passenger types, and its only message is the one-infant-per-adult text.
   */
  lemma InfantRuleVerdict(ps: seq<Passenger>)
    ensures ValidateInfantRule(ps).Some? <==> multiset(Types(ps))[Infant] > multiset(Types(ps))[Adult]
    ensures ValidateInfantRule(ps) in {None, Some(InfantMessage)}
  {
    CountIsMultiplicity(ps, Infant);
    CountIsMultiplicity(ps, Adult);
  }

  /** The verdict depends only on how many passengers of each type there are, not on their order. */
  lemma VerdictIgnoresOrder(ps: seq<Passenger>, qs: seq<Passenger>)
    requires multiset(Types(ps)) == multiset(Types(qs))
    ensures ValidateInfantRule(ps) == ValidateInfantRule(qs)
  {
    InfantRuleVerdict(ps);
    InfantRuleVerdict(qs);
  }

  /** Adding a passenger who is neither adult nor infant never changes the verdict. */
  lemma ChildrenDoNotCount(ps: seq<Passenger>, c: Passenger)
    requires c.paxType != Adult && c.paxType != Infant
    ensures ValidateInfantRule(ps + [c]) == ValidateInfantRule(ps)
  {
    CountAppend(ps, [c], Adult);
    CountAppend(ps, [c], Infant);
    assert [c][1..] == [];
  }

  /** Any list of freshly added passengers passes the rule: every new slot is an adult. */
  lemma {:induction false} FreshListsPass(ps: seq<Passenger>)
    requires forall i :: 0 <= i < |ps| ==> ps[i] == EmptyPassenger()
    ensures CountType(ps, Infant) == 0 && CountType(ps, Adult) == |ps|
    ensures ValidateInfantRule(ps) == None
  {
    if ps != [] {
      FreshListsPass(ps[1..]);
    }
  }

  /** A field other than the type never changes the infant-rule verdict. */
  lemma EditingOtherFieldsKeepsVerdict(ps: seq<Passenger>, idx: nat, f: Field, v: string)
    requires idx < |ps| && f != PaxType
    ensures ValidateInfantRule(ps[idx := Set(ps[idx], f, v)]) == ValidateInfantRule(ps)
  {
    CountUpdate(ps, idx, Set(ps[idx], f, v), Adult);
    CountUpdate(ps, idx, Set(ps[idx], f, v), Infant);
    assert Get(Set(ps[idx], f, v), PaxType) == Get(ps[idx], PaxType);
  }

  /** `parts.join(sep)`. */
  function Join(parts: seq<string>, sep: string): (r: string)
    ensures |parts| == 1 ==> r == parts[0]
    ensures |parts| == 0 ==> r == ""
    ensures |parts| >= 1 ==> parts[0] <= r
  {
    if |parts| == 0 then ""
    else if |parts| == 1 then parts[0]
    else parts[0] + sep + Join(parts[1..], sep)
  }

  /** Joining two non-empty lists puts one separator between their joined texts. */
  lemma {:induction false} JoinAppend(a: seq<string>, b: seq<string>, sep: string)
    requires |a| >= 1 && |b| >= 1
    ensures Join(a + b, sep) == Join(a, sep) + sep + Join(b, sep)
  {
    if |a| == 1 {
      assert (a + b)[0] == a[0] && (a + b)[1..] == b;
    } else {
      assert (a + b)[0] == a[0] && (a + b)[1..] == a[1..] + b;
      JoinAppend(a[1..], b, sep);
    }
  }

  /** The outcome of the passenger-validation request. */
  datatype ValidationResponse =
    | Accepted
    | Rejected(errors: Option<seq<string>>)   // `err.response?.data?.errors`

  /** `err.response?.data?.errors?.join(", ")`. */
  function RejectionText(errors: Option<seq<string>>): Option<string> {
    match errors
    case None => None
    case Some(es) => Some(Join(es, ", "))
  }

  /** The state of the passenger step: the list, the error banner, the busy flag. */
  class PassengerEditor {
    var passengers: seq<Passenger>
    var error: Option<string>
    var loading: bool

    /** The list is never empty. */
    ghost predicate Valid()
      reads this
    {
      |passengers| >= 1
    }

    constructor ()
      ensures Valid()
      ensures passengers == [EmptyPassenger()] && error == None && !loading
    {
      passengers := [EmptyPassenger()];
      error := None;
      loading := false;
    }

    /** `handleChange(idx, field, value)`; `idx` is the index of a rendered passenger card. */
    method HandleChange(idx: nat, field: Field, value: string)
      requires Valid() && idx < |passengers|
      modifies this
      ensures Valid()
      ensures |passengers| == |old(passengers)|
      ensures Get(passengers[idx], field) == value
      ensures forall g :: g != field ==> Get(passengers[idx], g) == Get(old(passengers)[idx], g)
      ensures forall j :: 0 <= j < |passengers| && j != idx ==> passengers[j] == old(passengers)[j]
      ensures error == old(error) && loading == old(loading)
    {
      var copy := passengers;
      copy := copy[idx := Set(copy[idx], field, value)];
      passengers := copy;
    }

    /** `addPassenger`: one default passenger at the end, the others untouched. */
    method AddPassenger()
      requires Valid()
      modifies this
      ensures Valid()
      ensures passengers == old(passengers) + [EmptyPassenger()]
      ensures error == old(error) && loading == old(loading)
    {
      passengers := passengers + [EmptyPassenger()];
    }

    /** `removePassenger(idx)`: a no-op on a one-element list, otherwise drops entry `idx`. */
    method RemovePassenger(idx: int)
      requires Valid()
      modifies this
      ensures Valid()
      ensures |old(passengers)| == 1 ==> passengers == old(passengers)
      ensures |old(passengers)| > 1 ==> passengers == Without(old(passengers), idx)
      ensures error == old(error) && loading == old(loading)
    {
      if |passengers| == 1 {
        return;
      }
      passengers := Without(passengers, idx);
    }

    /**
     * `submit`, with the validation request's outcome as a parameter.
     * `requested` tells whether the request was made, `next` whether
     * `onNext` was called and with what.
     */
    method Submit(response: ValidationResponse) returns (requested: bool, next: Option<seq<Passenger>>)
      requires Valid()
      modifies this
      ensures Valid() && passengers == old(passengers)
      ensures requested <==> CountType(passengers, Infant) <= CountType(passengers, Adult)
      ensures !requested ==> error == Some(InfantMessage) && loading == old(loading) && next == None
      ensures requested && response.Accepted? ==> next == Some(passengers) && error == None
      ensures requested && response.Rejected? ==> next == None && error == RejectionText(response.errors)
      ensures requested ==> !loading
    {
      var infantError := ValidateInfantRule(passengers);
      if infantError.Some? {
        error := infantError;
        return false, None;
      }
      requested := true;
      loading := true;
      error := None;
      match response {
        case Accepted =>
          next := Some(passengers);
        case Rejected(errors) =>
          error := RejectionText(errors);
          next := None;
      }
      loading := false;
    }
  }
}
