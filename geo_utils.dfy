/** Airport coordinates for the front end: a built-in table, a persistent cache
    of codes resolved later, and distances derived from them. The built-in
    table and the cache are passed in; their keys are airport codes. */
module Geo {
  import opened Common

  datatype Coords = Coords(lat: real, lon: real)

  /** The built-in table: every entry is a coordinate object. */
  type StaticTable = map<string, Coords>

  /** The cache as stored: an entry may hold `null` (`None`). */
  type Cache = map<string, Option<Coords>>

  /** A code is usable when it is present and not the empty string. */
  predicate Present(icao: Option<string>) { icao.Some? && icao.value != "" }

  function Code(icao: Option<string>): string
    requires Present(icao)
  {
    ToUpper(icao.value)
  }

  /** Looks the upper-cased code up in the built-in table first, then in the
      cache; a cache entry holding `null` counts as missing. */
  function GetAirportCoordinates(statics: StaticTable, cache: Cache, icao: Option<string>): (r: Option<Coords>)
    ensures !Present(icao) ==> r == None
    ensures Present(icao) && Code(icao) in statics ==> r == Some(statics[Code(icao)])
    ensures Present(icao) && Code(icao) !in statics ==>
      r == (if Code(icao) in cache then cache[Code(icao)] else None)
  {
    if !Present(icao) then None
    else
      var code := ToUpper(icao.value);
      if code in statics then Some(statics[code])
      else if code in cache && cache[code].Some? then cache[code]
      else None
  }

  /** The lookup ignores the case of the code it is given. */
  lemma LookupIgnoresCase(statics: StaticTable, cache: Cache, icao: string)
    ensures GetAirportCoordinates(statics, cache, Some(ToUpper(icao)))
         == GetAirportCoordinates(statics, cache, Some(icao))
  {
    ToUpperIdempotent(icao);
  }

  /** Known means listed, even when the cached entry is `null`. */
  function IsAirportKnown(statics: StaticTable, cache: Cache, icao: Option<string>): (known: bool)
    ensures known <==> Present(icao) && (Code(icao) in statics || Code(icao) in cache)
  {
    if !Present(icao) then false
    else
      var code := ToUpper(icao.value);
      code in statics || code in cache
  }

  /** Every code the lookup resolves is known; the converse fails only for a
      cached `null`. */
  lemma ResolvedIsKnown(statics: StaticTable, cache: Cache, icao: Option<string>)
    ensures GetAirportCoordinates(statics, cache, icao).Some? ==> IsAirportKnown(statics, cache, icao)
    ensures IsAirportKnown(statics, cache, icao) && GetAirportCoordinates(statics, cache, icao).None?
        ==> Code(icao) !in statics && cache[Code(icao)] == None
  {
  }

  /** The persistent airport cache. */
  class AirportCache {
    var entries: Cache

    constructor (stored: Cache)
      ensures entries == stored
    {
      entries := stored;
    }

    /** Stores `coords` under the upper-cased code; every other entry stays. */
    method SaveToAirportCache(icao: string, coords: Option<Coords>)
      modifies this
      ensures entries == old(entries)[ToUpper(icao) := coords]
      ensures forall k :: k in old(entries) && k != ToUpper(icao) ==> k in entries && entries[k] == old(entries)[k]
    {
      entries := entries[ToUpper(icao) := coords];
    }
  }

  /** After coordinates are cached for a code the built-in table does not list,
      the lookup returns them, under any spelling of the code. */
  lemma SavedCoordsAreFound(statics: StaticTable, cache: Cache, icao: string, other: string, c: Coords)
    requires icao != [] && ToUpper(icao) !in statics && ToUpper(other) == ToUpper(icao)
    ensures GetAirportCoordinates(statics, cache[ToUpper(icao) := Some(c)], Some(other)) == Some(c)
  {
    assert |other| == |icao|;
  }

  /** A built-in entry cannot be shadowed by caching the same code. */
  lemma StaticTableWins(statics: StaticTable, cache: Cache, icao: string, c: Option<Coords>)
    requires icao != [] && ToUpper(icao) in statics
    ensures GetAirportCoordinates(statics, cache[ToUpper(icao) := c], Some(icao)) == Some(statics[ToUpper(icao)])
  {
  }

  // ---------------------------------------------------------------------------
  // Known codes

  /** De-duplication keeping first occurrences, as a `Set` built from a list
      and spread back into a list. */
  function Dedup(s: seq<string>): (r: seq<string>)
    ensures NoDuplicates(r)
    ensures forall x :: x in r <==> x in s
    ensures |r| <= |s|
  {
    if s == [] then []
    else
      var d := Dedup(s[..|s| - 1]);
      var last := s[|s| - 1];
      assert forall x :: x in s <==> x in s[..|s| - 1] || x == last;
      if last in d then d else d + [last]
  }

  /** De-duplicating a list without repeats returns it unchanged. */
  lemma {:induction false} DedupOfDistinct(s: seq<string>)
    requires NoDuplicates(s)
    ensures Dedup(s) == s
    decreases |s|
  {
    if s != [] {
      DedupOfDistinct(s[..|s| - 1]);
      assert s[|s| - 1] !in s[..|s| - 1];
    }
  }

  /** De-duplicating a concatenation starts with the de-duplicated first part. */
  lemma {:induction false} DedupPrefix(a: seq<string>, b: seq<string>)
    ensures |Dedup(a)| <= |Dedup(a + b)| && Dedup(a + b)[..|Dedup(a)|] == Dedup(a)
    decreases |b|
  {
    if b == [] {
      assert a + b == a;
    } else {
      var ab := a + b;
      assert ab[..|ab| - 1] == a + b[..|b| - 1];
      DedupPrefix(a, b[..|b| - 1]);
    }
  }

  /** The codes of the built-in table followed by the cached codes, each code
      once. `staticKeys` and `cacheKeys` are the two key lists in their
      enumeration order. */
  method GetKnownAirports(staticKeys: seq<string>, cacheKeys: seq<string>) returns (known: seq<string>)
    ensures known == Dedup(staticKeys + cacheKeys)
  {
    var all := staticKeys + cacheKeys;
    known := [];
    var i := 0;
    while i < |all|
      invariant 0 <= i <= |all|
      invariant known == Dedup(all[..i])
    {
      assert all[..i + 1][..i] == all[..i];
      if all[i] !in known {
        known := known + [all[i]];
      }
      i := i + 1;
    }
    assert all[..|all|] == all;
  }

  /** The known codes are exactly the union of both key lists, without
      repeats, and the built-in codes come first in their own order. */
  lemma KnownAirportsUnion(staticKeys: seq<string>, cacheKeys: seq<string>)
    requires NoDuplicates(staticKeys)
    ensures var r := Dedup(staticKeys + cacheKeys);
      NoDuplicates(r)
      && (forall x :: x in r <==> x in staticKeys || x in cacheKeys)
      && |staticKeys| <= |r| && r[..|staticKeys|] == staticKeys
  {
    DedupOfDistinct(staticKeys);
    DedupPrefix(staticKeys, cacheKeys);
  }

  // ---------------------------------------------------------------------------
  // Distances

  /** Distance from the origin airport to the current position; nothing when
      the origin does not resolve or a coordinate is missing. */
  function CalculateFlownDistance(dist: DistanceFn, statics: StaticTable, cache: Cache,
                                  origin: Option<string>, lat: Option<real>, lon: Option<real>): (r: Option<real>)
    ensures r.None? <==> GetAirportCoordinates(statics, cache, origin).None? || lat.None? || lon.None?
    ensures r.Some? ==> r.value >= 0.0
  {
    var o := GetAirportCoordinates(statics, cache, origin);
    if o.None? || lat.None? || lon.None? then None
    else Some(dist(o.value.lat, o.value.lon, lat.value, lon.value) as real)
  }

  /** Whole nautical miles between two airports; nothing unless both resolve. */
  function CalculateRouteDistance(dist: DistanceFn, statics: StaticTable, cache: Cache,
                                  origin: Option<string>, dest: Option<string>): (r: Option<int>)
    ensures r.None? <==> GetAirportCoordinates(statics, cache, origin).None? || GetAirportCoordinates(statics, cache, dest).None?
    ensures r.Some? ==> r.value >= 0
  {
    var o := GetAirportCoordinates(statics, cache, origin);
    var d := GetAirportCoordinates(statics, cache, dest);
    if o.None? || d.None? then None
    else Some(RoundHalfUp(dist(o.value.lat, o.value.lon, d.value.lat, d.value.lon)))
  }
}
