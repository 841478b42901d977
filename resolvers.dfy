/**
 * The `searchCity` query resolver: a case-insensitive substring filter over
 * a fixed list of five cities.
 *
 * Lower-casing is modelled for ASCII letters only; `Includes` is the
 * substring test of `String.prototype.includes` (starting at position 0).
 */
module Resolvers {

  datatype City = City(latitude: real, longitude: real, name: string, country: string)

  /** The hard-coded city list, in the order the resolver filters it. */
  const CITIES: seq<City> := [
    City(40.7128, -74.006, "New York", "USA"),
    City(34.0522, -118.2437, "Los Angeles", "USA"),
    City(51.5074, -0.1278, "London", "UK"),
    City(48.8566, 2.3522, "Paris", "France"),
    City(35.6895, 139.6917, "Tokyo", "Japan")
  ]

  // ---------------------------------------------------------------------
  // Lower-casing (ASCII)
  // ---------------------------------------------------------------------

  predicate IsUpper(c: char)
  {
    'A' <= c <= 'Z'
  }

  function LowerChar(c: char): (d: char)
    ensures !IsUpper(d)
    ensures !IsUpper(c) ==> d == c
    ensures IsUpper(c) ==> d as int - c as int == 'a' as int - 'A' as int
  {
    if IsUpper(c) then (c as int - 'A' as int + 'a' as int) as char else c
  }

  /** `toLowerCase`: every letter lowered, everything else kept, length unchanged. */
  function ToLower(s: string): (r: string)
    ensures |r| == |s|
    ensures forall i :: 0 <= i < |s| ==> r[i] == LowerChar(s[i])
    ensures forall i :: 0 <= i < |r| ==> !IsUpper(r[i])
  {
    seq(|s|, i requires 0 <= i < |s| => LowerChar(s[i]))
  }

  lemma ToLowerIdempotent(s: string)
    ensures ToLower(ToLower(s)) == ToLower(s)
  {
  }

  // ---------------------------------------------------------------------
  // Substring containment
  // ---------------------------------------------------------------------

  /** `sub` occurs in `s` starting at index `i`. */
  ghost predicate OccursAt(s: string, sub: string, i: int)
  {
    0 <= i && i + |sub| <= |s| && s[i..i + |sub|] == sub
  }

  /** `s.includes(sub)`: `sub` occurs somewhere in `s`; the empty string occurs everywhere. */
  function Includes(s: string, sub: string): (b: bool)
    ensures b <==> exists i :: OccursAt(s, sub, i)
    decreases |s|
  {
    if |sub| <= |s| && s[..|sub|] == sub then
      assert OccursAt(s, sub, 0);
      true
    else if |s| == 0 then
      assert forall i :: !OccursAt(s, sub, i);
      false
    else
      var rest := Includes(s[1..], sub);
      assert rest ==> exists i :: OccursAt(s, sub, i) by {
        if rest {
          var i :| OccursAt(s[1..], sub, i);
          assert s[1..][i..i + |sub|] == s[i + 1..i + 1 + |sub|];
          assert OccursAt(s, sub, i + 1);
        }
      }
      assert (exists i :: OccursAt(s, sub, i)) ==> rest by {
        if exists i :: OccursAt(s, sub, i) {
          var i :| OccursAt(s, sub, i);
          assert i != 0;
          assert s[1..][i - 1..i - 1 + |sub|] == s[i..i + |sub|];
          assert OccursAt(s[1..], sub, i - 1);
        }
      }
      rest
  }

  // ---------------------------------------------------------------------
  // The filter
  // ---------------------------------------------------------------------

  /** `a` is `b` with some elements dropped and the rest kept in order. */
  predicate IsSubsequence<T(==)>(a: seq<T>, b: seq<T>)
    decreases |b|
  {
    a == [] || (b != [] && ((a[0] == b[0] && IsSubsequence(a[1..], b[1..])) || IsSubsequence(a, b[1..])))
  }

  /** The filter's test: the lower-cased name contains the lower-cased query. */
  predicate CityMatches(city: City, query: string)
  {
    Includes(ToLower(city.name), ToLower(query))
  }

  /** `cities.filter(city => CityMatches(city, query))`. */
  function FilterCities(cities: seq<City>, query: string): (r: seq<City>)
    ensures |r| <= |cities|
    ensures IsSubsequence(r, cities)
    ensures forall c :: c in r ==> c in cities && CityMatches(c, query)
    ensures forall c :: c in cities && CityMatches(c, query) ==> c in r
  {
    if cities == [] then []
    else if CityMatches(cities[0], query) then [cities[0]] + FilterCities(cities[1..], query)
    else FilterCities(cities[1..], query)
  }

  /** The filter keeps each matching city exactly as often as the input holds it, and drops the rest. */
  lemma {:induction false} FilterCitiesMultiplicity(cities: seq<City>, query: string)
    ensures forall c :: multiset(FilterCities(cities, query))[c]
                        == if CityMatches(c, query) then multiset(cities)[c] else 0
    decreases |cities|
  {
    if cities != [] {
      FilterCitiesMultiplicity(cities[1..], query);
      assert cities == [cities[0]] + cities[1..];
    }
  }

  /** `Query.searchCity({ query })`. */
  function SearchCity(query: string): (r: seq<City>)
    ensures |r| <= |CITIES|
    ensures IsSubsequence(r, CITIES)
    ensures forall c :: c in r <==> c in CITIES && CityMatches(c, query)
  {
    FilterCities(CITIES, query)
  }

  // ---------------------------------------------------------------------
  // Properties of the query
  // ---------------------------------------------------------------------

  /** The filter only looks at the lower-cased query. */
  lemma {:induction false} FilterCitiesCaseInsensitive(cities: seq<City>, q1: string, q2: string)
    requires ToLower(q1) == ToLower(q2)
    ensures FilterCities(cities, q1) == FilterCities(cities, q2)
    decreases |cities|
  {
    if cities != [] {
      FilterCitiesCaseInsensitive(cities[1..], q1, q2);
    }
  }

  /** Two queries with the same lower-case form give the same result. */
  lemma SearchCityCaseInsensitive(q1: string, q2: string)
    requires ToLower(q1) == ToLower(q2)
    ensures SearchCity(q1) == SearchCity(q2)
  {
    FilterCitiesCaseInsensitive(CITIES, q1, q2);
  }

  /** In particular, lower-casing the query first changes nothing. */
  lemma SearchCityLowerCasedQuery(query: string)
    ensures SearchCity(ToLower(query)) == SearchCity(query)
  {
    ToLowerIdempotent(query);
    SearchCityCaseInsensitive(ToLower(query), query);
  }

  /** When every city matches, the filter keeps the whole list. */
  lemma {:induction false} FilterCitiesAllMatch(cities: seq<City>, query: string)
    requires forall c :: c in cities ==> CityMatches(c, query)
    ensures FilterCities(cities, query) == cities
    decreases |cities|
  {
    if cities != [] {
      FilterCitiesAllMatch(cities[1..], query);
    }
  }

  /** The empty query is contained in every name, so it returns all five cities. */
  lemma SearchCityEmptyQuery()
    ensures SearchCity("") == CITIES
  {
    forall c | c in CITIES
      ensures CityMatches(c, "")
    {
      assert OccursAt(ToLower(c.name), ToLower(""), 0);
    }
    FilterCitiesAllMatch(CITIES, "");
  }
}
