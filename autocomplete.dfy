/**
 * The airport autocomplete input (src/Components/Common/AutoComplete.jsx):
 * the case-insensitive substring filter over four airport fields with a
 * minimum query length and a result cap, and the select and clear handlers.
 */
module AirportAutocomplete {
  import opened JsonValue

  datatype Airport = Airport(code: string, name: string, city: string, country: string)

  const MinQueryLength := 2
  const MaxSuggestions := 8

  predicate IsUpper(c: char) {
    'A' <= c <= 'Z'
  }

  /** Lower-casing of one character, ASCII letters only. */
  function LowerChar(c: char): char {
    if IsUpper(c) then (c as int + 32) as char else c
  }

  /** `text.toLowerCase()`, restricted to ASCII. */
  function ToLower(s: string): (r: string)
    ensures |r| == |s|
    ensures forall i :: 0 <= i < |r| ==> r[i] == LowerChar(s[i])
  {
    if s == [] then [] else [LowerChar(s[0])] + ToLower(s[1..])
  }

  lemma ToLowerIdempotent(s: string)
    ensures ToLower(ToLower(s)) == ToLower(s)
  {
  }

  /** `needle` occurs in `hay` starting at index `i`. */
  predicate OccursAt(hay: string, needle: string, i: int) {
    0 <= i && i + |needle| <= |hay| && hay[i..i + |needle|] == needle
  }

  /** `hay.includes(needle)`. */
  predicate Contains(hay: string, needle: string) {
    exists i :: 0 <= i <= |hay| && OccursAt(hay, needle, i)
  }

  /** The filter's test: the lower-cased query occurs in the lower-cased code, name, city or country. */
  predicate Matches(a: Airport, query: string) {
    var q := ToLower(query);
    Contains(ToLower(a.code), q) || Contains(ToLower(a.name), q)
    || Contains(ToLower(a.city), q) || Contains(ToLower(a.country), q)
  }

  /** The match ignores case: a query matches exactly when its lower-cased form does. */
  lemma MatchIgnoresCase(a: Airport, query: string)
    ensures Matches(a, query) <==> Matches(a, ToLower(query))
  {
    ToLowerIdempotent(query);
  }

  /** Typing an airport's own code (in any case) finds that airport. */
  lemma CodeFindsAirport(a: Airport)
    ensures Matches(a, a.code)
  {
    var c := ToLower(a.code);
    assert c[0..0 + |c|] == c;
    assert OccursAt(c, c, 0);
  }

  /** `airports.filter(...)`: the matching airports in list order. */
  function FilterMatches(airports: seq<Airport>, query: string): (r: seq<Airport>)
    ensures |r| <= |airports|
    ensures forall i :: 0 <= i < |r| ==> Matches(r[i], query)
    ensures forall a :: a in r <==> a in airports && Matches(a, query)
  {
    if airports == [] then []
    else (if Matches(airports[0], query) then [airports[0]] else []) + FilterMatches(airports[1..], query)
  }

  /** Filtering keeps list order: the matches of a concatenation are the matches of each part, in turn. */
  lemma {:induction false} FilterKeepsOrder(a: seq<Airport>, b: seq<Airport>, query: string)
    ensures FilterMatches(a + b, query) == FilterMatches(a, query) + FilterMatches(b, query)
  {
    if a == [] {
      assert a + b == b;
    } else {
      assert (a + b)[1..] == a[1..] + b;
      FilterKeepsOrder(a[1..], b, query);
    }
  }

  /** `handleInputChange`'s list: nothing for a short query, else the first eight matches. */
  function Suggestions(airports: seq<Airport>, query: string): seq<Airport> {
    if |query| < MinQueryLength then []
    else
      var matches := FilterMatches(airports, query);
      if |matches| <= MaxSuggestions then matches else matches[..MaxSuggestions]
  }

  /**
   * The suggestions are matching airports from the list, at most eight, and
   * they are the leading matches in list order: all of them when eight or
   * fewer airports match, and exactly eight otherwise.
   */
  lemma SuggestionsSpec(airports: seq<Airport>, query: string)
    ensures var r := Suggestions(airports, query);
      |r| <= MaxSuggestions &&
      (|query| < MinQueryLength ==> r == []) &&
      (forall i :: 0 <= i < |r| ==> r[i] in airports && Matches(r[i], query)) &&
      (|query| >= MinQueryLength ==> r == FilterMatches(airports, query)[..|r|]) &&
      (|query| >= MinQueryLength ==>
         |r| == if |FilterMatches(airports, query)| <= MaxSuggestions then |FilterMatches(airports, query)| else MaxSuggestions) &&
      (|query| >= MinQueryLength && |FilterMatches(airports, query)| <= MaxSuggestions ==>
         forall a :: a in airports && Matches(a, query) ==> a in r)
  {
  }

  /** The input's state. `reported` is the last value handed to the parent's `onChange`. */
  class Autocomplete {
    var inputValue: string
    var suggestions: seq<Airport>
    var isOpen: bool
    var airports: seq<Airport>
    var reported: Option<string>

    /** The dropdown is drawn only while open and non-empty. */
    predicate Shown()
      reads this
    {
      isOpen && |suggestions| > 0
    }

    /** `value || ""` seeds the input; the airport list is empty until it is loaded. */
    constructor (value: Option<string>)
      ensures inputValue == value.GetOr("") && suggestions == [] && !isOpen
      ensures airports == [] && reported == None
    {
      inputValue := value.GetOr("");
      suggestions := [];
      isOpen := false;
      airports := [];
      reported := None;
    }

    /** The airport list arriving from its fetch. */
    method AirportsLoaded(list: seq<Airport>)
      modifies this
      ensures airports == list
      ensures inputValue == old(inputValue) && suggestions == old(suggestions) && isOpen == old(isOpen)
      ensures reported == old(reported)
    {
      airports := list;
    }

    /** `handleInputChange`: the dropdown is open exactly when there is something to suggest. */
    method HandleInputChange(query: string)
      modifies this
      ensures inputValue == query
      ensures suggestions == Suggestions(airports, query)
      ensures isOpen <==> suggestions != []
      ensures |query| < MinQueryLength ==> suggestions == [] && !isOpen
      ensures airports == old(airports) && reported == old(reported)
    {
      inputValue := query;
      if |query| < MinQueryLength {
        suggestions := [];
        isOpen := false;
        return;
      }
      var filtered := FilterMatches(airports, query);
      if |filtered| > MaxSuggestions {
        filtered := filtered[..MaxSuggestions];
      }
      suggestions := filtered;
      isOpen := |filtered| > 0;
    }

    /** `handleSelect`: shows "CODE - City", reports only the code, closes the dropdown. */
    method HandleSelect(a: Airport)
      modifies this
      ensures inputValue == a.code + " - " + a.city
      ensures reported == Some(a.code)
      ensures !isOpen && !Shown()
      ensures suggestions == old(suggestions) && airports == old(airports)
    {
      inputValue := a.code + " - " + a.city;
      reported := Some(a.code);
      isOpen := false;
    }

    /** `handleClear`: empties the input, reports "", drops the suggestions; `isOpen` is left as it was. */
    method HandleClear()
      modifies this
      ensures inputValue == "" && reported == Some("") && suggestions == []
      ensures isOpen == old(isOpen) && !Shown()
      ensures airports == old(airports)
    {
      inputValue := "";
      reported := Some("");
      suggestions := [];
    }

    /** A mousedown outside the component closes the dropdown. */
    method ClickOutside()
      modifies this
      ensures !isOpen && !Shown()
      ensures inputValue == old(inputValue) && suggestions == old(suggestions)
      ensures airports == old(airports) && reported == old(reported)
    {
      isOpen := false;
    }

    /** Focusing the input reopens the dropdown when the text is long enough. */
    method Focus()
      modifies this
      ensures isOpen == (old(isOpen) || |inputValue| >= MinQueryLength)
      ensures inputValue == old(inputValue) && suggestions == old(suggestions)
      ensures airports == old(airports) && reported == old(reported)
    {
      if |inputValue| >= MinQueryLength {
        isOpen := true;
      }
    }
  }
}
