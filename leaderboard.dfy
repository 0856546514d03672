/** The leaderboard page: the demo list shown when the database has no
    entries, sorted by the selected tab, and the rank badges. */
module Leaderboard {
  import opened Common
  import opened TimeText

  datatype LeaderEntry = LeaderEntry(
    userId: string,
    displayName: string,
    totalScore: int,
    totalFlightTime: int,
    totalDistance: int,
    flightCount: int)

  const DemoLeaderboard: seq<LeaderEntry> := [
    LeaderEntry("demo-1", "Captain Sky", 12500, 180000, 45000, 85),
    LeaderEntry("demo-2", "AeroMax", 9800, 145000, 38000, 72),
    LeaderEntry("demo-3", "WingCommander", 8200, 120000, 32000, 58),
    LeaderEntry("demo-4", "SkyNavigator", 7500, 110000, 28450, 47),
    LeaderEntry("demo-5", "SkyPilot42", 6100, 95000, 24000, 41),
    LeaderEntry("demo-6", "JetStream", 5400, 82000, 21000, 35),
    LeaderEntry("demo-7", "CloudRider", 4200, 68000, 17500, 28),
    LeaderEntry("demo-8", "AirBoss", 3100, 54000, 14000, 22),
    LeaderEntry("demo-9", "FlightStar", 2400, 42000, 11000, 18),
    LeaderEntry("demo-10", "NovaPilot", 1800, 32000, 8500, 14)
  ]

  /** The sort key of a tab: the comparator `b.key - a.key` orders by this
      key, largest first; an unknown tab compares every pair as equal. */
  function SortKey(e: LeaderEntry, tab: string): int {
    if tab == "score" then e.totalScore
    else if tab == "time" then e.totalFlightTime
    else if tab == "flights" then e.flightCount
    else 0
  }

  /** Largest key first. */
  ghost predicate SortedDesc(s: seq<LeaderEntry>, tab: string) {
    forall p, q :: 0 <= p < q < |s| ==> SortKey(s[p], tab) >= SortKey(s[q], tab)
  }

  /** The first `n` entries are in order, largest key first. */
  ghost predicate SortedPrefix(a: seq<LeaderEntry>, n: nat, tab: string)
    requires n <= |a|
  {
    forall p, q :: 0 <= p < q < n ==> SortKey(a[p], tab) >= SortKey(a[q], tab)
  }

  /** Exchanges two neighbouring entries. */
  method SwapDown(a: array<LeaderEntry>, j: nat)
    requires 0 < j < a.Length
    modifies a
    ensures a[..] == old(a[..])[j - 1 := old(a[j])][j := old(a[j - 1])]
    ensures multiset(a[..]) == multiset(old(a[..]))
  {
    a[j - 1], a[j] := a[j], a[j - 1];
  }

  /** While entry `i` moves left it sits at `j`: the other entries of the
      first `i + 1` keep their order and everything it has passed is smaller. */
  ghost predicate Inserting(s: seq<LeaderEntry>, i: nat, j: nat, tab: string)
    requires j <= i < |s|
  {
    (forall p, q :: 0 <= p < q <= i && p != j && q != j ==> SortKey(s[p], tab) >= SortKey(s[q], tab))
    && (forall q :: j < q <= i ==> SortKey(s[j], tab) > SortKey(s[q], tab))
  }

  /** One exchange moves the entry a place left and keeps the picture. */
  lemma SwapKeepsInserting(s: seq<LeaderEntry>, i: nat, j: nat, tab: string)
    requires 0 < j <= i < |s| && Inserting(s, i, j, tab)
    requires SortKey(s[j - 1], tab) < SortKey(s[j], tab)
    ensures Inserting(s[j - 1 := s[j]][j := s[j - 1]], i, j - 1, tab)
  {
  }

  /** When the entry stops, the first `i + 1` entries are in order. */
  lemma InsertedInOrder(s: seq<LeaderEntry>, i: nat, j: nat, tab: string)
    requires j <= i < |s| && Inserting(s, i, j, tab)
    requires j == 0 || SortKey(s[j - 1], tab) >= SortKey(s[j], tab)
    ensures SortedPrefix(s, i + 1, tab)
  {
  }

  /** Moves entry `i` left past the entries with a smaller key, so that the
      first `i + 1` entries are in order; the rest of the array stays. */
  method InsertEntry(a: array<LeaderEntry>, i: nat, tab: string)
    requires 1 <= i < a.Length && SortedPrefix(a[..], i, tab)
    modifies a
    ensures SortedPrefix(a[..], i + 1, tab)
    ensures multiset(a[..]) == multiset(old(a[..]))
    ensures a[i + 1..] == old(a[i + 1..])
    ensures SortedPrefix(old(a[..]), i + 1, tab) ==> a[..] == old(a[..])
  {
    var j := i;
    while j > 0 && SortKey(a[j - 1], tab) < SortKey(a[j], tab)
      invariant 0 <= j <= i
      invariant Inserting(a[..], i, j, tab)
      invariant multiset(a[..]) == multiset(old(a[..]))
      invariant a[i + 1..] == old(a[i + 1..])
      invariant j < i ==> !SortedPrefix(old(a[..]), i + 1, tab)
      invariant j == i ==> a[..] == old(a[..])
    {
      SwapKeepsInserting(a[..], i, j, tab);
      SwapDown(a, j);
      j := j - 1;
    }
    InsertedInOrder(a[..], i, j, tab);
  }

  /** Sorts the array in place, largest key first, by moving each entry left
      past the smaller ones. An
      array that is already in order is left as it is. */
  method SortByTab(a: array<LeaderEntry>, tab: string)
    modifies a
    ensures SortedDesc(a[..], tab)
    ensures multiset(a[..]) == multiset(old(a[..]))
    ensures SortedDesc(old(a[..]), tab) ==> a[..] == old(a[..])
  {
    if a.Length == 0 {
      return;
    }
    var i := 1;
    while i < a.Length
      invariant 1 <= i <= a.Length
      invariant SortedPrefix(a[..], i, tab)
      invariant multiset(a[..]) == multiset(old(a[..]))
      invariant SortedDesc(old(a[..]), tab) ==> a[..] == old(a[..])
    {
      InsertEntry(a, i, tab);
      i := i + 1;
    }
  }

  /** The demo fallback: a fresh copy of the demo list sorted by the tab; the
      demo list itself is a constant and stays as declared. */
  method SortedDemo(tab: string) returns (sorted: seq<LeaderEntry>)
    ensures SortedDesc(sorted, tab)
    ensures multiset(sorted) == multiset(DemoLeaderboard)
    ensures sorted == DemoLeaderboard
  {
    var a := new LeaderEntry[|DemoLeaderboard|](i requires 0 <= i < |DemoLeaderboard| => DemoLeaderboard[i]);
    assert a[..] == DemoLeaderboard;
    DemoInEveryOrder(tab);
    SortByTab(a, tab);
    sorted := a[..];
  }

  /** The demo list is already declared in descending score, flight time and
      flight count, so every tab shows it in its declared order. */
  lemma DemoInEveryOrder(tab: string)
    ensures SortedDesc(DemoLeaderboard, tab)
  {
  }

  // ---------------------------------------------------------------------------
  // Rank badges

  /** A medal for the first three places, "#n" from the fourth on. */
  datatype RankIcon = Gold | Silver | Bronze | Numbered(text: string)

  function GetRankIcon(index: nat): (r: RankIcon)
    ensures index == 0 <==> r == Gold
    ensures index == 1 <==> r == Silver
    ensures index == 2 <==> r == Bronze
    ensures index >= 3 ==>
      r.Numbered? && |r.text| > 1 && r.text[0] == '#' && ReadNat(r.text[1..]) == Some((index + 1, ""))
  {
    if index == 0 then Gold
    else if index == 1 then Silver
    else if index == 2 then Bronze
    else
      NatToStringValue(index + 1);
      ReadNatOfPrinted(NatToString(index + 1), index + 1, "");
      assert ("#" + NatToString(index + 1))[1..] == NatToString(index + 1) + "";
      Numbered("#" + IntToString(index + 1))
  }

  function GetRankClass(index: nat): (r: string)
    ensures index < 3 ==> r == ["rank-gold", "rank-silver", "rank-bronze"][index]
    ensures index >= 3 ==> r == ""
  {
    if index == 0 then "rank-gold"
    else if index == 1 then "rank-silver"
    else if index == 2 then "rank-bronze"
    else ""
  }

  /** Medals and classes go together: a place has a colour class exactly
      when it has a medal. */
  lemma MedalIffClass(index: nat)
    ensures GetRankIcon(index).Numbered? <==> GetRankClass(index) == ""
  {
  }
}
