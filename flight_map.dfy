/** The route map of the logbook: the airports mentioned by the flights, those
    whose coordinates resolve, and one line per undirected airport pair with
    the number of flights flown on it. */
module FlightMap {
  import opened Common
  import opened Geo

  datatype Flight = Flight(origin: Option<string>, destination: Option<string>)

  /** A drawn route; `origin` and `destination` follow the first flight seen on
      the pair. */
  datatype Route = Route(from: Coords, to: Coords, origin: string, destination: string, count: nat)

  /** The route table in insertion order, each entry under its string key. */
  type RouteTable = seq<(string, Route)>

  /** An endpoint as the map uses it: present, non-empty, upper-cased. */
  function UpperCode(s: Option<string>): (r: Option<string>)
    ensures r.Some? <==> s.Some? && s.value != ""
    ensures r.Some? ==> r.value == ToUpper(s.value) && r.value != []
  {
    if s.Some? && s.value != "" then Some(ToUpper(s.value)) else None
  }

  predicate Mentions(f: Flight, x: string) {
    UpperCode(f.origin) == Some(x) || UpperCode(f.destination) == Some(x)
  }

  // ---------------------------------------------------------------------------
  // Airports

  /** Appends a code unless it is missing or already listed. */
  function AddCode(codes: seq<string>, code: Option<string>): (r: seq<string>)
    requires NoDuplicates(codes)
    ensures NoDuplicates(r)
    ensures forall x :: x in r <==> x in codes || code == Some(x)
  {
    if code.Some? && code.value !in codes then codes + [code.value] else codes
  }

  /** The airport set: upper-cased origins and destinations, first mention
      first, each once. */
  function AirportCodes(flights: seq<Flight>): (r: seq<string>)
    ensures NoDuplicates(r)
    ensures forall x :: x in r <==> MentionedIn(flights, x)
  {
    if flights == [] then []
    else
      var init := flights[..|flights| - 1];
      var f := flights[|flights| - 1];
      MentionsOfLast(flights);
      AddCode(AddCode(AirportCodes(init), UpperCode(f.origin)), UpperCode(f.destination))
  }

  predicate MentionedIn(flights: seq<Flight>, x: string) {
    exists j :: 0 <= j < |flights| && Mentions(flights[j], x)
  }

  /** An airport is mentioned in a list when it is mentioned before the last
      flight or by the last flight. */
  lemma MentionsOfLast(flights: seq<Flight>)
    requires flights != []
    ensures forall x :: MentionedIn(flights, x) <==> MentionedIn(flights[..|flights| - 1], x) || Mentions(flights[|flights| - 1], x)
  {
    var init := flights[..|flights| - 1];
    forall x | MentionedIn(flights, x)
      ensures MentionedIn(init, x) || Mentions(flights[|flights| - 1], x)
    {
      var j :| 0 <= j < |flights| && Mentions(flights[j], x);
      if j < |init| {
        assert Mentions(init[j], x);
      }
    }
    forall x | MentionedIn(init, x)
      ensures MentionedIn(flights, x)
    {
      var j :| 0 <= j < |init| && Mentions(init[j], x);
      assert flights[j] == init[j];
    }
  }

  /** The airports that resolved, with their coordinates. */
  function ResolvedAirports(codes: seq<string>, resolve: string -> Option<Coords>): (m: map<string, Coords>)
    ensures forall x :: x in m <==> x in codes && resolve(x).Some?
    ensures forall x :: x in m ==> m[x] == resolve(x).value
  {
    map x | x in codes && resolve(x).Some? :: resolve(x).value
  }

  // ---------------------------------------------------------------------------
  // Routes

  /** `${origin}-${dest}` */
  function RouteKey(origin: string, dest: string): string {
    origin + "-" + dest
  }

  predicate Qualifies(f: Flight, airports: map<string, Coords>) {
    UpperCode(f.origin).Some? && UpperCode(f.destination).Some?
    && UpperCode(f.origin).value in airports && UpperCode(f.destination).value in airports
  }

  /** The flight is flown between `a` and `b`, in either direction. */
  predicate OnPair(f: Flight, airports: map<string, Coords>, a: string, b: string) {
    Qualifies(f, airports)
    && ((UpperCode(f.origin).value == a && UpperCode(f.destination).value == b)
        || (UpperCode(f.origin).value == b && UpperCode(f.destination).value == a))
  }

  predicate SamePair(r: Route, a: string, b: string) {
    (r.origin == a && r.destination == b) || (r.origin == b && r.destination == a)
  }

  predicate HasKey(rt: RouteTable, key: string) {
    exists i :: 0 <= i < |rt| && rt[i].0 == key
  }

  function KeyIndex(rt: RouteTable, key: string): (i: nat)
    requires HasKey(rt, key)
    ensures i < |rt| && rt[i].0 == key
    ensures forall j :: 0 <= j < i ==> rt[j].0 != key
  {
    if rt[0].0 == key then 0
    else
      assert HasKey(rt[1..], key) by {
        var i :| 0 <= i < |rt| && rt[i].0 == key;
        assert rt[1..][i - 1].0 == key;
      }
      1 + KeyIndex(rt[1..], key)
  }

  /** The entry found for a flight from `o` to `d`: the one under its own key
      if present, otherwise the one under the reverse key. */
  function FoundIndex(rt: RouteTable, o: string, d: string): (i: nat)
    requires HasKey(rt, RouteKey(o, d)) || HasKey(rt, RouteKey(d, o))
    ensures i < |rt| && (rt[i].0 == RouteKey(o, d) || rt[i].0 == RouteKey(d, o))
  {
    if HasKey(rt, RouteKey(o, d)) then KeyIndex(rt, RouteKey(o, d)) else KeyIndex(rt, RouteKey(d, o))
  }

  /** One flight's effect on the route table: a qualifying flight either bumps
      the entry stored under its key or its reverse key, or adds a new entry
      with count 1. */
  function AddFlight(rt: RouteTable, airports: map<string, Coords>, f: Flight): RouteTable {
    if !Qualifies(f, airports) then rt
    else
      var o := UpperCode(f.origin).value;
      var d := UpperCode(f.destination).value;
      var key := RouteKey(o, d);
      var reverse := RouteKey(d, o);
      if !HasKey(rt, key) && !HasKey(rt, reverse) then
        rt + [(key, Route(airports[o], airports[d], o, d, 1))]
      else
        var i := FoundIndex(rt, o, d);
        rt[i := (rt[i].0, rt[i].1.(count := rt[i].1.count + 1))]
  }

  function BuildRoutes(flights: seq<Flight>, airports: map<string, Coords>): RouteTable {
    if flights == [] then []
    else AddFlight(BuildRoutes(flights[..|flights| - 1], airports), airports, flights[|flights| - 1])
  }

  /** Number of qualifying flights between `a` and `b`, either direction. */
  function CountPair(flights: seq<Flight>, airports: map<string, Coords>, a: string, b: string): nat {
    if flights == [] then 0
    else CountPair(flights[..|flights| - 1], airports, a, b)
         + (if OnPair(flights[|flights| - 1], airports, a, b) then 1 else 0)
  }

  function Values(rt: RouteTable): (r: seq<Route>)
    ensures |r| == |rt| && forall i :: 0 <= i < |rt| ==> r[i] == rt[i].1
  {
    if rt == [] then [] else [rt[0].1] + Values(rt[1..])
  }

  predicate NoDash(s: string) { '-' !in s }

  lemma RouteKeyParts(o: string, d: string)
    ensures |RouteKey(o, d)| == |o| + 1 + |d|
    ensures RouteKey(o, d)[..|o|] == o && RouteKey(o, d)[|o|] == '-' && RouteKey(o, d)[|o| + 1..] == d
  {
  }

  /** Airport codes without a dash give every pair its own key. */
  lemma RouteKeyInjective(o1: string, d1: string, o2: string, d2: string)
    requires NoDash(o1) && NoDash(d1) && NoDash(o2) && NoDash(d2)
    requires RouteKey(o1, d1) == RouteKey(o2, d2)
    ensures o1 == o2 && d1 == d2
  {
    RouteKeyParts(o1, d1);
    RouteKeyParts(o2, d2);
    var k := RouteKey(o1, d1);
    if |o1| < |o2| {
      assert false;
    } else if |o2| < |o1| {
      assert false;
    }
  }

  lemma {:induction false} CountPairSnoc(init: seq<Flight>, f: Flight, airports: map<string, Coords>, a: string, b: string)
    ensures CountPair(init + [f], airports, a, b)
         == CountPair(init, airports, a, b) + (if OnPair(f, airports, a, b) then 1 else 0)
  {
    assert (init + [f])[..|init|] == init;
  }

  lemma {:induction false} CountPairPositive(flights: seq<Flight>, airports: map<string, Coords>, a: string, b: string)
    requires CountPair(flights, airports, a, b) > 0
    ensures exists j :: 0 <= j < |flights| && OnPair(flights[j], airports, a, b)
    decreases |flights|
  {
    var init := flights[..|flights| - 1];
    if !OnPair(flights[|flights| - 1], airports, a, b) {
      CountPairPositive(init, airports, a, b);
      var j :| 0 <= j < |init| && OnPair(init[j], airports, a, b);
      assert flights[j] == init[j];
    }
  }

  /** An entry is stored under its own key, joins two resolved airports, and
      counts the flights on its pair. */
  predicate EntryOk(e: (string, Route), flights: seq<Flight>, airports: map<string, Coords>) {
    e.0 == RouteKey(e.1.origin, e.1.destination)
    && e.1.origin in airports && e.1.destination in airports
    && e.1.count == CountPair(flights, airports, e.1.origin, e.1.destination)
    && e.1.count >= 1
  }

  predicate DistinctPairs(rt: RouteTable) {
    forall i, j :: 0 <= i < j < |rt| ==> !SamePair(rt[i].1, rt[j].1.origin, rt[j].1.destination)
  }

  /** Every pair that has a qualifying flight has an entry. */
  ghost predicate Complete(rt: RouteTable, flights: seq<Flight>, airports: map<string, Coords>) {
    forall a, b :: CountPair(flights, airports, a, b) > 0 ==>
      exists i :: 0 <= i < |rt| && SamePair(rt[i].1, a, b)
  }

  /** What the table guarantees after any prefix of the flights. */
  ghost predicate TableInvariant(rt: RouteTable, flights: seq<Flight>, airports: map<string, Coords>) {
    (forall i :: 0 <= i < |rt| ==> EntryOk(rt[i], flights, airports))
    && DistinctPairs(rt)
    && Complete(rt, flights, airports)
  }

  predicate DashFree(airports: map<string, Coords>) {
    forall k :: k in airports ==> NoDash(k)
  }

  /** Under the dash-free code assumption, finding the key or its reverse is
      finding an entry for the flight's undirected pair. */
  lemma {:induction false} KeyLookupIsPairLookup(rt: RouteTable, flights: seq<Flight>, airports: map<string, Coords>, o: string, d: string)
    requires forall i :: 0 <= i < |rt| ==> EntryOk(rt[i], flights, airports)
    requires DashFree(airports) && NoDash(o) && NoDash(d)
    ensures HasKey(rt, RouteKey(o, d)) || HasKey(rt, RouteKey(d, o))
        <==> exists i :: 0 <= i < |rt| && SamePair(rt[i].1, o, d)
    ensures HasKey(rt, RouteKey(o, d)) || HasKey(rt, RouteKey(d, o)) ==> SamePair(rt[FoundIndex(rt, o, d)].1, o, d)
  {
    if HasKey(rt, RouteKey(o, d)) {
      var i := KeyIndex(rt, RouteKey(o, d));
      RouteKeyInjective(o, d, rt[i].1.origin, rt[i].1.destination);
    }
    if HasKey(rt, RouteKey(d, o)) {
      var i := KeyIndex(rt, RouteKey(d, o));
      RouteKeyInjective(d, o, rt[i].1.origin, rt[i].1.destination);
    }
    if i :| 0 <= i < |rt| && SamePair(rt[i].1, o, d) {
      if rt[i].1.origin == o && rt[i].1.destination == d {
        assert rt[i].0 == RouteKey(o, d);
      } else {
        assert rt[i].0 == RouteKey(d, o);
      }
    }
  }

  /** Appending an entry for a pair not yet in the table keeps every entry
      right, provided the earlier flights never used that pair. */
  lemma {:induction false} AppendEntries(rt: RouteTable, init: seq<Flight>, airports: map<string, Coords>, f: Flight)
    requires Qualifies(f, airports)
    requires forall i :: 0 <= i < |rt| ==> EntryOk(rt[i], init, airports)
    requires var o := UpperCode(f.origin).value; var d := UpperCode(f.destination).value;
      (forall i :: 0 <= i < |rt| ==> !SamePair(rt[i].1, o, d)) && CountPair(init, airports, o, d) == 0
    ensures var o := UpperCode(f.origin).value; var d := UpperCode(f.destination).value;
      var rt' := rt + [(RouteKey(o, d), Route(airports[o], airports[d], o, d, 1))];
      forall i :: 0 <= i < |rt'| ==> EntryOk(rt'[i], init + [f], airports)
  {
    var o := UpperCode(f.origin).value;
    var d := UpperCode(f.destination).value;
    var rt' := rt + [(RouteKey(o, d), Route(airports[o], airports[d], o, d, 1))];
    forall i | 0 <= i < |rt'|
      ensures EntryOk(rt'[i], init + [f], airports)
    {
      CountPairSnoc(init, f, airports, rt'[i].1.origin, rt'[i].1.destination);
      if i < |rt| {
        assert rt'[i] == rt[i] && EntryOk(rt[i], init, airports);
        assert !SamePair(rt[i].1, o, d);
      }
    }
  }

  lemma {:induction false} AppendDistinct(rt: RouteTable, e: (string, Route))
    requires DistinctPairs(rt)
    requires forall i :: 0 <= i < |rt| ==> !SamePair(rt[i].1, e.1.origin, e.1.destination)
    ensures DistinctPairs(rt + [e])
  {
    var rt' := rt + [e];
    forall i, j | 0 <= i < j < |rt'|
      ensures !SamePair(rt'[i].1, rt'[j].1.origin, rt'[j].1.destination)
    {
      assert rt'[i] == rt[i];
    }
  }

  lemma {:induction false} AppendComplete(rt: RouteTable, init: seq<Flight>, airports: map<string, Coords>, f: Flight, e: (string, Route))
    requires Complete(rt, init, airports) && Qualifies(f, airports)
    requires SamePair(e.1, UpperCode(f.origin).value, UpperCode(f.destination).value)
    ensures Complete(rt + [e], init + [f], airports)
  {
    var rt' := rt + [e];
    forall a, b | CountPair(init + [f], airports, a, b) > 0
      ensures exists i :: 0 <= i < |rt'| && SamePair(rt'[i].1, a, b)
    {
      CountPairSnoc(init, f, airports, a, b);
      if OnPair(f, airports, a, b) {
        assert SamePair(rt'[|rt|].1, a, b);
      } else {
        var i :| 0 <= i < |rt| && SamePair(rt[i].1, a, b);
        assert rt'[i] == rt[i];
      }
    }
  }

  /** Bumping the entry of the flight's pair keeps every entry right. */
  lemma {:induction false} BumpEntries(rt: RouteTable, init: seq<Flight>, airports: map<string, Coords>, f: Flight, k: nat)
    requires Qualifies(f, airports)
    requires forall i :: 0 <= i < |rt| ==> EntryOk(rt[i], init, airports)
    requires DistinctPairs(rt)
    requires k < |rt| && SamePair(rt[k].1, UpperCode(f.origin).value, UpperCode(f.destination).value)
    ensures var rt' := rt[k := (rt[k].0, rt[k].1.(count := rt[k].1.count + 1))];
      forall i :: 0 <= i < |rt'| ==> EntryOk(rt'[i], init + [f], airports)
  {
    var rt' := rt[k := (rt[k].0, rt[k].1.(count := rt[k].1.count + 1))];
    forall i | 0 <= i < |rt'|
      ensures EntryOk(rt'[i], init + [f], airports)
    {
      CountPairSnoc(init, f, airports, rt[i].1.origin, rt[i].1.destination);
      assert EntryOk(rt[i], init, airports);
      if i != k {
        if i < k {
          assert !SamePair(rt[i].1, rt[k].1.origin, rt[k].1.destination);
        } else {
          assert !SamePair(rt[k].1, rt[i].1.origin, rt[i].1.destination);
        }
        assert !OnPair(f, airports, rt[i].1.origin, rt[i].1.destination);
      }
    }
  }

  lemma {:induction false} BumpDistinct(rt: RouteTable, k: nat)
    requires DistinctPairs(rt) && k < |rt|
    ensures DistinctPairs(rt[k := (rt[k].0, rt[k].1.(count := rt[k].1.count + 1))])
  {
  }

  lemma {:induction false} BumpComplete(rt: RouteTable, init: seq<Flight>, airports: map<string, Coords>, f: Flight, k: nat)
    requires Complete(rt, init, airports) && Qualifies(f, airports)
    requires k < |rt| && SamePair(rt[k].1, UpperCode(f.origin).value, UpperCode(f.destination).value)
    ensures Complete(rt[k := (rt[k].0, rt[k].1.(count := rt[k].1.count + 1))], init + [f], airports)
  {
    var rt' := rt[k := (rt[k].0, rt[k].1.(count := rt[k].1.count + 1))];
    forall a, b | CountPair(init + [f], airports, a, b) > 0
      ensures exists i :: 0 <= i < |rt'| && SamePair(rt'[i].1, a, b)
    {
      CountPairSnoc(init, f, airports, a, b);
      if OnPair(f, airports, a, b) {
        assert SamePair(rt'[k].1, a, b);
      } else {
        var i :| 0 <= i < |rt| && SamePair(rt[i].1, a, b);
        assert SamePair(rt'[i].1, a, b);
      }
    }
  }

  /** A flight that does not qualify changes neither the table nor any count. */
  lemma {:induction false} SkipKeepsInvariant(rt: RouteTable, init: seq<Flight>, airports: map<string, Coords>, f: Flight)
    requires !Qualifies(f, airports) && TableInvariant(rt, init, airports)
    ensures TableInvariant(rt, init + [f], airports)
  {
    forall a, b
      ensures CountPair(init + [f], airports, a, b) == CountPair(init, airports, a, b)
    {
      CountPairSnoc(init, f, airports, a, b);
    }
  }

  /** A flight on a pair without an entry appends one with count 1. */
  lemma {:induction false} AppendKeepsInvariant(rt: RouteTable, init: seq<Flight>, airports: map<string, Coords>, f: Flight)
    requires Qualifies(f, airports) && TableInvariant(rt, init, airports)
    requires forall i :: 0 <= i < |rt| ==> !SamePair(rt[i].1, UpperCode(f.origin).value, UpperCode(f.destination).value)
    ensures var o := UpperCode(f.origin).value; var d := UpperCode(f.destination).value;
      TableInvariant(rt + [(RouteKey(o, d), Route(airports[o], airports[d], o, d, 1))], init + [f], airports)
  {
    var o := UpperCode(f.origin).value;
    var d := UpperCode(f.destination).value;
    var e := (RouteKey(o, d), Route(airports[o], airports[d], o, d, 1));
    if CountPair(init, airports, o, d) > 0 {
      assert false;
    }
    AppendEntries(rt, init, airports, f);
    AppendDistinct(rt, e);
    AppendComplete(rt, init, airports, f, e);
  }

  /** A flight on a pair with an entry bumps that entry's count. */
  lemma {:induction false} BumpKeepsInvariant(rt: RouteTable, init: seq<Flight>, airports: map<string, Coords>, f: Flight, k: nat)
    requires Qualifies(f, airports) && TableInvariant(rt, init, airports)
    requires k < |rt| && SamePair(rt[k].1, UpperCode(f.origin).value, UpperCode(f.destination).value)
    ensures TableInvariant(rt[k := (rt[k].0, rt[k].1.(count := rt[k].1.count + 1))], init + [f], airports)
  {
    BumpEntries(rt, init, airports, f, k);
    BumpDistinct(rt, k);
    BumpComplete(rt, init, airports, f, k);
  }

  lemma {:induction false} AddFlightAppends(rt: RouteTable, airports: map<string, Coords>, f: Flight)
    requires Qualifies(f, airports)
    requires var o := UpperCode(f.origin).value; var d := UpperCode(f.destination).value;
      !HasKey(rt, RouteKey(o, d)) && !HasKey(rt, RouteKey(d, o))
    ensures var o := UpperCode(f.origin).value; var d := UpperCode(f.destination).value;
      AddFlight(rt, airports, f) == rt + [(RouteKey(o, d), Route(airports[o], airports[d], o, d, 1))]
  {
  }

  lemma {:induction false} AddFlightBumps(rt: RouteTable, airports: map<string, Coords>, f: Flight, k: nat)
    requires Qualifies(f, airports)
    requires var o := UpperCode(f.origin).value; var d := UpperCode(f.destination).value;
      (HasKey(rt, RouteKey(o, d)) || HasKey(rt, RouteKey(d, o))) && k == FoundIndex(rt, o, d)
    ensures AddFlight(rt, airports, f) == rt[k := (rt[k].0, rt[k].1.(count := rt[k].1.count + 1))]
  {
  }

  /** A qualifying flight whose key and reverse key are both absent appends
      a new entry and keeps the invariant. */
  lemma {:induction false} NewPairKeepsInvariant(rt: RouteTable, init: seq<Flight>, airports: map<string, Coords>, f: Flight)
    requires DashFree(airports) && Qualifies(f, airports) && TableInvariant(rt, init, airports)
    requires var o := UpperCode(f.origin).value; var d := UpperCode(f.destination).value;
      !HasKey(rt, RouteKey(o, d)) && !HasKey(rt, RouteKey(d, o))
    ensures TableInvariant(AddFlight(rt, airports, f), init + [f], airports)
  {
    var o := UpperCode(f.origin).value;
    var d := UpperCode(f.destination).value;
    assert NoDash(o) && NoDash(d);
    KeyLookupIsPairLookup(rt, init, airports, o, d);
    AddFlightAppends(rt, airports, f);
    AppendKeepsInvariant(rt, init, airports, f);
  }

  /** A qualifying flight whose key or reverse key is present bumps that
      entry and keeps the invariant. */
  lemma {:induction false} KnownPairKeepsInvariant(rt: RouteTable, init: seq<Flight>, airports: map<string, Coords>, f: Flight)
    requires DashFree(airports) && Qualifies(f, airports) && TableInvariant(rt, init, airports)
    requires var o := UpperCode(f.origin).value; var d := UpperCode(f.destination).value;
      HasKey(rt, RouteKey(o, d)) || HasKey(rt, RouteKey(d, o))
    ensures TableInvariant(AddFlight(rt, airports, f), init + [f], airports)
  {
    var o := UpperCode(f.origin).value;
    var d := UpperCode(f.destination).value;
    assert NoDash(o) && NoDash(d);
    KeyLookupIsPairLookup(rt, init, airports, o, d);
    var k := FoundIndex(rt, o, d);
    AddFlightBumps(rt, airports, f, k);
    BumpKeepsInvariant(rt, init, airports, f, k);
  }

  /** One flight keeps the invariant. */
  lemma {:induction false} AddFlightKeepsInvariant(rt: RouteTable, init: seq<Flight>, airports: map<string, Coords>, f: Flight)
    requires DashFree(airports) && TableInvariant(rt, init, airports)
    ensures TableInvariant(AddFlight(rt, airports, f), init + [f], airports)
  {
    if !Qualifies(f, airports) {
      SkipKeepsInvariant(rt, init, airports, f);
    } else if HasKey(rt, RouteKey(UpperCode(f.origin).value, UpperCode(f.destination).value))
           || HasKey(rt, RouteKey(UpperCode(f.destination).value, UpperCode(f.origin).value)) {
      KnownPairKeepsInvariant(rt, init, airports, f);
    } else {
      NewPairKeepsInvariant(rt, init, airports, f);
    }
  }

  /** The table built from any list of flights satisfies the invariant. */
  lemma {:induction false} BuildRoutesInvariant(flights: seq<Flight>, airports: map<string, Coords>)
    requires DashFree(airports)
    ensures TableInvariant(BuildRoutes(flights, airports), flights, airports)
    decreases |flights|
  {
    if flights == [] {
      assert forall a, b :: CountPair(flights, airports, a, b) == 0;
    } else {
      var init := flights[..|flights| - 1];
      var f := flights[|flights| - 1];
      assert flights == init + [f];
      BuildRoutesInvariant(init, airports);
      AddFlightKeepsInvariant(BuildRoutes(init, airports), init, airports, f);
    }
  }

  lemma {:induction false} CountPairAtLeast(flights: seq<Flight>, airports: map<string, Coords>, j: nat)
    requires j < |flights| && Qualifies(flights[j], airports)
    ensures CountPair(flights, airports, UpperCode(flights[j].origin).value, UpperCode(flights[j].destination).value) >= 1
    decreases |flights|
  {
    if j < |flights| - 1 {
      var init := flights[..|flights| - 1];
      assert init[j] == flights[j];
      CountPairAtLeast(init, airports, j);
    }
  }

  /** The drawn routes: each has a count of at least one that equals the number
      of qualifying flights on its undirected pair, no two share a pair, both
      endpoints resolved, and every qualifying flight is on some route. */
  lemma {:induction false} RoutesCountFlights(flights: seq<Flight>, airports: map<string, Coords>)
    requires DashFree(airports)
    ensures var routes := Values(BuildRoutes(flights, airports));
      (forall i :: 0 <= i < |routes| ==>
        routes[i].count >= 1
        && routes[i].count == CountPair(flights, airports, routes[i].origin, routes[i].destination)
        && routes[i].origin in airports && routes[i].destination in airports)
      && (forall i, j :: 0 <= i < j < |routes| ==> !SamePair(routes[i], routes[j].origin, routes[j].destination))
      && (forall j :: 0 <= j < |flights| && Qualifies(flights[j], airports) ==>
            exists i :: 0 <= i < |routes| && SamePair(routes[i], UpperCode(flights[j].origin).value, UpperCode(flights[j].destination).value))
  {
    BuildRoutesInvariant(flights, airports);
    var rt := BuildRoutes(flights, airports);
    RoutesCounted(rt, flights, airports);
    forall j | 0 <= j < |flights| && Qualifies(flights[j], airports)
      ensures exists i :: 0 <= i < |rt| && SamePair(Values(rt)[i], UpperCode(flights[j].origin).value, UpperCode(flights[j].destination).value)
    {
      RouteForFlight(rt, flights, airports, j);
    }
  }

  /** Codes that contain a dash can share a route key: a flight "A-B" to "C"
      and a flight "A" to "B-C" are both stored under "A-B-C", so the map
      draws one route with count 2 between "A-B" and "C", although only one
      flight joins that pair. */
  lemma DashedCodesShareARoute(c: Coords)
    ensures var airports := map["A-B" := c, "C" := c, "A" := c, "B-C" := c];
      var flights := [Flight(Some("A-B"), Some("C")), Flight(Some("A"), Some("B-C"))];
      var routes := Values(BuildRoutes(flights, airports));
      |routes| == 1 && routes[0].count == 2
      && CountPair(flights, airports, routes[0].origin, routes[0].destination) == 1
  {
    var airports := map["A-B" := c, "C" := c, "A" := c, "B-C" := c];
    var f1 := Flight(Some("A-B"), Some("C"));
    var f2 := Flight(Some("A"), Some("B-C"));
    var flights := [f1, f2];
    assert ToUpper("A-B") == "A-B";
    assert ToUpper("C") == "C";
    assert ToUpper("A") == "A";
    assert ToUpper("B-C") == "B-C";
    assert [f1, f2][..1] == [f1];
    assert [f1][..0] == [];
    assert UpperCode(f1.origin) == Some("A-B") && UpperCode(f1.destination) == Some("C");
    assert UpperCode(f2.origin) == Some("A") && UpperCode(f2.destination) == Some("B-C");
    assert RouteKey("A-B", "C") == "A-B-C" && RouteKey("A", "B-C") == "A-B-C";
    assert BuildRoutes([f1][..0], airports) == [];
    assert !HasKey([], RouteKey("A-B", "C")) && !HasKey([], RouteKey("C", "A-B"));
    var rt1 := BuildRoutes([f1], airports);
    assert rt1 == AddFlight([], airports, f1);
    assert rt1 == [("A-B-C", Route(c, c, "A-B", "C", 1))];
    assert rt1[0].0 == RouteKey("A", "B-C");
    assert HasKey(rt1, RouteKey("A", "B-C"));
    assert BuildRoutes(flights, airports) == [("A-B-C", Route(c, c, "A-B", "C", 2))];
    assert !OnPair(f2, airports, "A-B", "C");
    assert CountPair([f1], airports, "A-B", "C") == 1;
  }

  /** Each route of a table keeping the invariant counts its flights. */
  lemma {:induction false} RoutesCounted(rt: RouteTable, flights: seq<Flight>, airports: map<string, Coords>)
    requires forall i :: 0 <= i < |rt| ==> EntryOk(rt[i], flights, airports)
    ensures var routes := Values(rt);
      forall i :: 0 <= i < |routes| ==>
        routes[i].count >= 1
        && routes[i].count == CountPair(flights, airports, routes[i].origin, routes[i].destination)
        && routes[i].origin in airports && routes[i].destination in airports
  {
    var routes := Values(rt);
    forall i | 0 <= i < |routes|
      ensures routes[i].count >= 1
        && routes[i].count == CountPair(flights, airports, routes[i].origin, routes[i].destination)
        && routes[i].origin in airports && routes[i].destination in airports
    {
      assert EntryOk(rt[i], flights, airports);
    }
  }

  /** A complete table has a route for every qualifying flight. */
  lemma RouteForFlight(rt: RouteTable, flights: seq<Flight>, airports: map<string, Coords>, j: nat)
    requires Complete(rt, flights, airports)
    requires j < |flights| && Qualifies(flights[j], airports)
    ensures exists i :: 0 <= i < |rt| && SamePair(Values(rt)[i], UpperCode(flights[j].origin).value, UpperCode(flights[j].destination).value)
  {
    var a := UpperCode(flights[j].origin).value;
    var b := UpperCode(flights[j].destination).value;
    CountPairAtLeast(flights, airports, j);
    var i :| 0 <= i < |rt| && SamePair(rt[i].1, a, b);
    assert SamePair(Values(rt)[i], a, b);
  }

  // ---------------------------------------------------------------------------
  // The procedure

  method CollectAirports(fs: seq<Flight>) returns (airportSet: seq<string>)
    ensures airportSet == AirportCodes(fs)
  {
    airportSet := [];
    var i := 0;
    while i < |fs|
      invariant 0 <= i <= |fs|
      invariant airportSet == AirportCodes(fs[..i])
    {
      assert fs[..i + 1][..i] == fs[..i];
      var f := fs[i];
      if f.origin.Some? && f.origin.value != "" {
        var code := ToUpper(f.origin.value);
        if code !in airportSet {
          airportSet := airportSet + [code];
        }
      }
      if f.destination.Some? && f.destination.value != "" {
        var code := ToUpper(f.destination.value);
        if code !in airportSet {
          airportSet := airportSet + [code];
        }
      }
      i := i + 1;
    }
    assert fs[..|fs|] == fs;
  }

  method ResolveAirports(airportSet: seq<string>, resolve: string -> Option<Coords>) returns (airports: map<string, Coords>)
    ensures airports == ResolvedAirports(airportSet, resolve)
  {
    airports := map[];
    var k := 0;
    while k < |airportSet|
      invariant 0 <= k <= |airportSet|
      invariant airports == ResolvedAirports(airportSet[..k], resolve)
    {
      assert forall x :: x in airportSet[..k + 1] <==> x in airportSet[..k] || x == airportSet[k];
      var coords := resolve(airportSet[k]);
      if coords.Some? {
        airports := airports[airportSet[k] := coords.value];
      }
      k := k + 1;
    }
    assert airportSet[..|airportSet|] == airportSet;
  }

  method CountRoutes(fs: seq<Flight>, airports: map<string, Coords>) returns (table: RouteTable)
    ensures table == BuildRoutes(fs, airports)
  {
    table := [];
    var n := 0;
    while n < |fs|
      invariant 0 <= n <= |fs|
      invariant table == BuildRoutes(fs[..n], airports)
    {
      assert fs[..n + 1][..n] == fs[..n];
      var f := fs[n];
      var origin := UpperCode(f.origin);
      var dest := UpperCode(f.destination);
      if origin.Some? && dest.Some? && origin.value in airports && dest.value in airports {
        var routeKey := RouteKey(origin.value, dest.value);
        var reverseKey := RouteKey(dest.value, origin.value);
        if !HasKey(table, routeKey) && !HasKey(table, reverseKey) {
          table := table + [(routeKey, Route(airports[origin.value], airports[dest.value], origin.value, dest.value, 1))];
        } else {
          var idx := if HasKey(table, routeKey) then KeyIndex(table, routeKey) else KeyIndex(table, reverseKey);
          table := table[idx := (table[idx].0, table[idx].1.(count := table[idx].1.count + 1))];
        }
      }
      n := n + 1;
    }
    assert fs[..|fs|] == fs;
  }

  /** Builds the airport map and the route list. `resolve` stands for the
      coordinate lookup (table, cache, then remote service). No flights give no
      routes and no airports. */
  method ProcessFlights(flights: Option<seq<Flight>>, resolve: string -> Option<Coords>)
    returns (routes: seq<Route>, airports: map<string, Coords>)
    ensures flights.None? || flights.value == [] ==> routes == [] && airports == map[]
    ensures flights.Some? ==>
      airports == ResolvedAirports(AirportCodes(flights.value), resolve)
      && routes == Values(BuildRoutes(flights.value, airports))
  {
    if flights.None? || |flights.value| == 0 {
      return [], map[];
    }
    var airportSet := CollectAirports(flights.value);
    airports := ResolveAirports(airportSet, resolve);
    var table := CountRoutes(flights.value, airports);
    routes := Values(table);
  }

  // ---------------------------------------------------------------------------
  // Zoom

  const MinZoom: real := 1.0
  const MaxZoom: real := 8.0

  function ZoomIn(zoom: real): (z: real)
    ensures z <= MaxZoom
    ensures MinZoom <= zoom ==> MinZoom <= z
    ensures zoom > 0.0 && zoom * 1.5 <= MaxZoom ==> z > zoom
  {
    Min(zoom * 1.5, MaxZoom)
  }

  function ZoomOut(zoom: real): (z: real)
    ensures z >= MinZoom
    ensures zoom <= MaxZoom ==> z <= MaxZoom
    ensures zoom / 1.5 >= MinZoom ==> z < zoom
  {
    Max(zoom / 1.5, MinZoom)
  }

  /** Any sequence of zoom steps from a zoom in [1, 8] stays in [1, 8]. */
  lemma {:induction false} ZoomStaysInRange(zoom: real, steps: seq<bool>)
    requires MinZoom <= zoom <= MaxZoom
    ensures MinZoom <= ApplyZoom(zoom, steps) <= MaxZoom
    decreases |steps|
  {
    if steps != [] {
      ZoomStaysInRange(if steps[0] then ZoomIn(zoom) else ZoomOut(zoom), steps[1..]);
    }
  }

  /** `true` is a zoom-in click, `false` a zoom-out click. */
  function ApplyZoom(zoom: real, steps: seq<bool>): real
    decreases |steps|
  {
    if steps == [] then zoom
    else ApplyZoom(if steps[0] then ZoomIn(zoom) else ZoomOut(zoom), steps[1..])
  }
}
