/** The application's checklist state: the checked items, the collapsed
    sections and the flight route, with the toggles, the two resets, the
    automatic flown-distance update from the GPS position, and the fallback
    when loading a stored set. Browser storage and the confirmation dialog are
    parameters. */
module App {
  import opened Common
  import opened Geo
  import opened FlightInfo

  /** Membership flips for `id` and for nothing else. */
  function Toggle(s: set<string>, id: string): (r: set<string>)
    ensures id in r <==> id !in s
    ensures forall x :: x != id ==> (x in r <==> x in s)
  {
    if id in s then s - {id} else s + {id}
  }

  /** Toggling twice restores the set. */
  lemma ToggleTwice(s: set<string>, id: string)
    ensures Toggle(Toggle(s, id), id) == s
  {
  }

  /** Toggles of different ids commute. */
  lemma TogglesCommute(s: set<string>, a: string, b: string)
    ensures Toggle(Toggle(s, a), b) == Toggle(Toggle(s, b), a)
  {
  }

  /** A stored set: the default when nothing (or the empty string) is stored
      or when the stored text does not parse (`parsed == None`); otherwise the
      set of the parsed list. */
  function LoadFromStorage(saved: Option<string>, parsed: Option<seq<string>>, defaultValue: set<string>): (r: set<string>)
    ensures saved.None? || saved.value == "" || parsed.None? ==> r == defaultValue
    ensures saved.Some? && saved.value != "" && parsed.Some? ==> forall x :: x in r <==> x in parsed.value
  {
    if saved.Some? && saved.value != "" && parsed.Some? then set x | x in parsed.value
    else defaultValue
  }

  /** Moves the flown distance to the GPS distance only when the two differ by
      more than half a mile; afterwards the stored distance is within half a
      mile of the GPS one, and nothing else in the route changes. */
  function ApplyGpsDistance(prev: FlightRoute, gpsFlownDistance: real): (r: FlightRoute)
    ensures r.origin == prev.origin && r.destination == prev.destination && r.totalDistance == prev.totalDistance
    ensures Abs(r.flownDistance - gpsFlownDistance) <= 0.5
    ensures r == prev <==> Abs(prev.flownDistance - gpsFlownDistance) <= 0.5
    ensures r != prev ==> r.flownDistance == gpsFlownDistance
  {
    if Abs(gpsFlownDistance - prev.flownDistance) > 0.5 then prev.(flownDistance := gpsFlownDistance)
    else prev
  }

  /** A second update with the same position changes nothing more. */
  lemma ApplyGpsDistanceIdempotent(prev: FlightRoute, gps: real)
    ensures ApplyGpsDistance(ApplyGpsDistance(prev, gps), gps) == ApplyGpsDistance(prev, gps)
  {
  }

  /** The effect run when the connection, the position or the origin changes:
      only while connected, with an origin set and known, and with both
      coordinates, is the distance from the origin applied. */
  function FlownDistanceUpdate(dist: DistanceFn, statics: StaticTable, cache: Cache, isConnected: bool,
                               route: FlightRoute, latitude: Option<real>, longitude: Option<real>): (r: FlightRoute)
    ensures r != route ==>
      isConnected && route.origin != "" && latitude.Some? && longitude.Some?
      && IsAirportKnown(statics, cache, Some(route.origin))
    ensures r.origin == route.origin && r.destination == route.destination && r.totalDistance == route.totalDistance
    ensures r != route ==>
      var gps := CalculateFlownDistance(dist, statics, cache, Some(route.origin), latitude, longitude);
      gps.Some? && r.flownDistance == gps.value && Abs(route.flownDistance - gps.value) > 0.5
    ensures (isConnected && route.origin != "" && latitude.Some? && longitude.Some?
             && IsAirportKnown(statics, cache, Some(route.origin))) ==>
      var gps := CalculateFlownDistance(dist, statics, cache, Some(route.origin), latitude, longitude);
      r == (if gps.Some? then ApplyGpsDistance(route, gps.value) else route)
  {
    if !isConnected || route.origin == "" || latitude.None? || longitude.None? then route
    else if !IsAirportKnown(statics, cache, Some(route.origin)) then route
    else
      var gps := CalculateFlownDistance(dist, statics, cache, Some(route.origin), latitude, longitude);
      if gps.Some? && gps.value >= 0.0 then ApplyGpsDistance(route, gps.value)
      else route
  }

  /** The route after a checklist reset. */
  const EmptyRoute: FlightRoute := FlightRoute("", "", 0.0, 0.0)

  class AppState {
    var checkedItems: set<string>
    var collapsedSections: set<string>
    var flightRoute: FlightRoute

    constructor (checked: set<string>, collapsed: set<string>, route: FlightRoute)
      ensures checkedItems == checked && collapsedSections == collapsed && flightRoute == route
    {
      checkedItems := checked;
      collapsedSections := collapsed;
      flightRoute := route;
    }

    /** Flips one item: a copy of the set loses the id if it had it and gains
        it otherwise. */
    method HandleItemToggle(itemId: string)
      modifies this
      ensures checkedItems == Toggle(old(checkedItems), itemId)
      ensures collapsedSections == old(collapsedSections) && flightRoute == old(flightRoute)
    {
      var newSet := checkedItems;
      if itemId in newSet {
        newSet := newSet - {itemId};
      } else {
        newSet := newSet + {itemId};
      }
      checkedItems := newSet;
    }

    /** Flips one section between collapsed and expanded. */
    method HandleSectionToggle(sectionId: string)
      modifies this
      ensures collapsedSections == Toggle(old(collapsedSections), sectionId)
      ensures checkedItems == old(checkedItems) && flightRoute == old(flightRoute)
    {
      var newSet := collapsedSections;
      if sectionId in newSet {
        newSet := newSet - {sectionId};
      } else {
        newSet := newSet + {sectionId};
      }
      collapsedSections := newSet;
    }

    /** Once confirmed, clears every check mark and collapsed section and
        empties the route. */
    method HandleResetChecklist(confirmed: bool)
      modifies this
      ensures confirmed ==> checkedItems == {} && collapsedSections == {} && flightRoute == EmptyRoute
      ensures !confirmed ==>
        checkedItems == old(checkedItems) && collapsedSections == old(collapsedSections) && flightRoute == old(flightRoute)
    {
      if confirmed {
        checkedItems := {};
        collapsedSections := {};
        flightRoute := EmptyRoute;
      }
    }

    /** Once confirmed, zeroes the flown distance and keeps the rest. */
    method HandleResetFlight(confirmed: bool)
      modifies this
      ensures confirmed ==> flightRoute == old(flightRoute).(flownDistance := 0.0)
      ensures !confirmed ==> flightRoute == old(flightRoute)
      ensures checkedItems == old(checkedItems) && collapsedSections == old(collapsedSections)
    {
      if confirmed {
        flightRoute := flightRoute.(flownDistance := 0.0);
      }
    }

    /** The flown-distance effect applied to the current route. */
    method OnPositionChange(dist: DistanceFn, statics: StaticTable, cache: Cache, isConnected: bool,
                            latitude: Option<real>, longitude: Option<real>)
      modifies this
      ensures flightRoute == FlownDistanceUpdate(dist, statics, cache, isConnected, old(flightRoute), latitude, longitude)
      ensures checkedItems == old(checkedItems) && collapsedSections == old(collapsedSections)
    {
      flightRoute := FlownDistanceUpdate(dist, statics, cache, isConnected, flightRoute, latitude, longitude);
    }
  }
}
