/** The daily update of the computer-run ("NPC") airlines: each airline's
    real-world daily volume is scaled down so that it never has more flights
    than all players together, and its leaderboard figures are derived from
    the scaled volume. The database reads and writes around it are not
    modelled; the player flight count is a parameter. */
module NpcAirlines {
  import opened Common

  datatype NpcAirline = NpcAirline(
    code: string,
    name: string,
    realIcao: string,
    realName: string,
    avgFlightsPerDay: nat,
    avgDistancePerFlight: nat,
    icon: string,
    color: string)

  const NpcAirlineTable: seq<NpcAirline> := [
    NpcAirline("VLHA", "Virtual Lufthansa", "DLH", "Lufthansa", 1200, 850, "plane", "#FFD700"),
    NpcAirline("VBAW", "Virtual British Airways", "BAW", "British Airways", 800, 1200, "crown", "#1E3A8A"),
    NpcAirline("VAFR", "Virtual Air France", "AFR", "Air France", 900, 950, "globe", "#002157"),
    NpcAirline("VEMR", "Virtual Emirates", "UAE", "Emirates", 400, 3500, "star", "#C8102E"),
    NpcAirline("VUAL", "Virtual United", "UAL", "United Airlines", 1500, 900, "shield", "#0033A0"),
    NpcAirline("VAAL", "Virtual American", "AAL", "American Airlines", 1800, 850, "eagle", "#0078D2"),
    NpcAirline("VDAL", "Virtual Delta", "DAL", "Delta Air Lines", 1600, 920, "turbine", "#C8102E"),
    NpcAirline("VSNG", "Virtual Singapore", "SIA", "Singapore Airlines", 350, 4200, "diamond", "#F7B500"),
    NpcAirline("VQTR", "Virtual Qatar", "QTR", "Qatar Airways", 450, 3800, "fire", "#5C0632"),
    NpcAirline("VKLM", "Virtual KLM", "KLM", "KLM Royal Dutch", 600, 1100, "jet", "#00A1E4")
  ]

  /** The statistics written back for one airline. */
  datatype ScaledStats = ScaledStats(
    rawFlights: nat,
    scaledFlights: int,
    scaledDistance: int,
    scaledScore: int,
    scaledFlightTime: int)

  /** Average landing bonus per flight in the score. */
  const LandingBonus: int := 30
  /** Average flight time per flight, in seconds. */
  const SecondsPerFlight: int := 7200

  /** `playerFlightCount || 0`: a missing count is zero. */
  function PlayerCount(playerFlightCount: Option<nat>): nat {
    if playerFlightCount.Some? then playerFlightCount.value else 0
  }

  /** Zero unless both counts are positive; otherwise the player-to-NPC ratio,
      capped at one. */
  function ScaleFactor(rawFlights: nat, totalPlayerFlights: nat): (f: real)
    ensures 0.0 <= f <= 1.0
    ensures f == 0.0 <==> rawFlights == 0 || totalPlayerFlights == 0
    ensures rawFlights > 0 && totalPlayerFlights >= rawFlights ==> f == 1.0
  {
    if rawFlights > 0 && totalPlayerFlights > 0 then
      Min(1.0, totalPlayerFlights as real / rawFlights as real)
    else 0.0
  }

  /** `Math.floor(rawDistance * scaleFactor)`. */
  function ScaledDistance(npc: NpcAirline, totalPlayerFlights: nat): int {
    Floor((npc.avgFlightsPerDay * npc.avgDistancePerFlight) as real * ScaleFactor(npc.avgFlightsPerDay, totalPlayerFlights))
  }

  function ComputeStats(npc: NpcAirline, playerFlightCount: Option<nat>): (s: ScaledStats)
    ensures s.rawFlights == npc.avgFlightsPerDay
    ensures s.scaledScore == s.scaledDistance + LandingBonus * s.scaledFlights
    ensures s.scaledFlightTime == SecondsPerFlight * s.scaledFlights
  {
    var rawFlights := npc.avgFlightsPerDay;
    var rawDistance := rawFlights * npc.avgDistancePerFlight;
    var scaleFactor := ScaleFactor(rawFlights, PlayerCount(playerFlightCount));
    var scaledFlights := Floor(rawFlights as real * scaleFactor);
    var scaledDistance := ScaledDistance(npc, PlayerCount(playerFlightCount));
    var scaledScore := Floor(scaledDistance as real + (scaledFlights * 30) as real);
    var scaledFlightTime := scaledFlights * 7200;
    ScaledStats(rawFlights, scaledFlights, scaledDistance, scaledScore, scaledFlightTime)
  }

  /** Below the cap the factor is exactly the player-to-NPC ratio. */
  lemma ScaleFactorRatio(rawFlights: nat, totalPlayerFlights: nat)
    requires 0 < totalPlayerFlights < rawFlights
    ensures ScaleFactor(rawFlights, totalPlayerFlights) * rawFlights as real == totalPlayerFlights as real
  {
  }

  /** Scaling a non-negative amount by a larger factor never floors lower. */
  lemma ScaledFloorMonotone(a: real, x: real, y: real)
    requires a >= 0.0 && x <= y
    ensures a * x <= a * y && Floor(a * x) <= Floor(a * y)
  {
  }

  /** The scaled figures lie between zero and the raw ones: the NPC gets the
      smaller of its real volume and the players' total, and never more
      distance than its real volume flies. */
  lemma ScaledWithinRaw(npc: NpcAirline, playerFlightCount: Option<nat>)
    ensures var s := ComputeStats(npc, playerFlightCount);
      var p := PlayerCount(playerFlightCount);
      var raw := npc.avgFlightsPerDay;
      0 <= s.scaledFlights <= raw
      && 0 <= s.scaledDistance <= raw * npc.avgDistancePerFlight
      && s.scaledFlights == (if p < raw then p else raw)
  {
    var raw := npc.avgFlightsPerDay;
    var f := ScaleFactor(raw, PlayerCount(playerFlightCount));
    var rawDistance := raw * npc.avgDistancePerFlight;
    if 0 < PlayerCount(playerFlightCount) < raw {
      ScaleFactorRatio(raw, PlayerCount(playerFlightCount));
    }
    ScaledFloorMonotone(rawDistance as real, f, 1.0);
    ScaledFloorMonotone(rawDistance as real, 0.0, f);
  }

  /** No players, or no count at all, gives an NPC airline nothing. */
  lemma NoPlayersNoStats(npc: NpcAirline, playerFlightCount: Option<nat>)
    requires PlayerCount(playerFlightCount) == 0
    ensures ComputeStats(npc, playerFlightCount) == ScaledStats(npc.avgFlightsPerDay, 0, 0, 0, 0)
  {
  }

  lemma ScaleFactorMonotone(raw: nat, p: nat, q: nat)
    requires p <= q
    ensures ScaleFactor(raw, p) <= ScaleFactor(raw, q)
  {
    if raw > 0 && p > 0 {
      assert p as real / raw as real <= q as real / raw as real;
    }
  }


  /** More player flights never shrink an NPC airline's distance. */
  lemma DistanceMonotone(npc: NpcAirline, p: nat, q: nat)
    requires p <= q
    ensures ScaledDistance(npc, p) <= ScaledDistance(npc, q)
  {
    var raw := (npc.avgFlightsPerDay * npc.avgDistancePerFlight) as real;
    var x := ScaleFactor(npc.avgFlightsPerDay, p);
    var y := ScaleFactor(npc.avgFlightsPerDay, q);
    ScaleFactorMonotone(npc.avgFlightsPerDay, p, q);
    ScaledFloorMonotone(raw, x, y);
    assert ScaledDistance(npc, p) == Floor(raw * x);
    assert ScaledDistance(npc, q) == Floor(raw * y);
  }

  /** More player flights never shrink an NPC airline's figures. */
  lemma MorePlayersNoSmaller(npc: NpcAirline, p: nat, q: nat)
    requires p <= q
    ensures var a := ComputeStats(npc, Some(p)); var b := ComputeStats(npc, Some(q));
      a.scaledFlights <= b.scaledFlights && a.scaledDistance <= b.scaledDistance
      && a.scaledScore <= b.scaledScore && a.scaledFlightTime <= b.scaledFlightTime
  {
    ScaledWithinRaw(npc, Some(p));
    ScaledWithinRaw(npc, Some(q));
    DistanceMonotone(npc, p, q);
    assert ComputeStats(npc, Some(p)).scaledDistance == ScaledDistance(npc, p);
    assert ComputeStats(npc, Some(q)).scaledDistance == ScaledDistance(npc, q);
  }

  /** The table lists ten airlines under distinct codes, each with a positive
      daily volume and distance. */
  lemma TableWellFormed()
    ensures |NpcAirlineTable| == 10
    ensures forall i, j :: 0 <= i < j < |NpcAirlineTable| ==> NpcAirlineTable[i].code != NpcAirlineTable[j].code
    ensures forall i :: 0 <= i < |NpcAirlineTable| ==> NpcAirlineTable[i].avgFlightsPerDay > 0 && NpcAirlineTable[i].avgDistancePerFlight > 0
  {
  }
}
