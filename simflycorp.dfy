/** The pilot page: rank by flight hours, landing stars and their colour
    class, flight-time text and the achievement badges. */
module SimFlyCorp {
  import opened Common
  import opened TimeText
  import LandingInfo
  import FlightStats

  // ---------------------------------------------------------------------------
  // Rank

  datatype Rank = Rank(title: string, stripes: nat)

  /** Flight hours needed for one, two, three and four stripes. */
  const StripeHours: seq<real> := [25.0, 100.0, 250.0, 500.0]

  /** Titles indexed by the number of stripes. */
  const RankTitles: seq<string> := ["Student Pilot", "Flight Cadet", "Second Officer", "First Officer", "Captain"]

  /** A pilot wears one stripe for each threshold their flight hours reach,
      and the title that goes with that number of stripes. */
  function GetPilotRank(totalSeconds: real): (r: Rank)
    ensures r.stripes <= 4 && r.title == RankTitles[r.stripes]
    ensures forall k :: 0 <= k < 4 ==> (r.stripes > k <==> totalSeconds / 3600.0 >= StripeHours[k])
  {
    var hours := totalSeconds / 3600.0;
    if hours >= 500.0 then Rank("Captain", 4)
    else if hours >= 250.0 then Rank("First Officer", 3)
    else if hours >= 100.0 then Rank("Second Officer", 2)
    else if hours >= 25.0 then Rank("Flight Cadet", 1)
    else Rank("Student Pilot", 0)
  }

  /** Without statistics the pilot is a student. */
  function PilotRankOf(totalFlightTime: Option<real>): (r: Rank)
    ensures totalFlightTime.None? ==> r == Rank("Student Pilot", 0)
    ensures totalFlightTime.Some? ==> r == GetPilotRank(totalFlightTime.value)
  {
    if totalFlightTime.Some? then GetPilotRank(totalFlightTime.value) else Rank("Student Pilot", 0)
  }

  /** More flight time never means fewer stripes. */
  lemma StripesMonotone(a: real, b: real)
    requires a <= b
    ensures GetPilotRank(a).stripes <= GetPilotRank(b).stripes
  {
    QuotientMonotone(a, b, 3600.0);
  }

  lemma QuotientMonotone(a: real, b: real, d: real)
    requires a <= b && d > 0.0
    ensures a / d <= b / d
  {
  }

  // ---------------------------------------------------------------------------
  // Landing stars and classes

  const FullStar: char := '★'
  const EmptyStar: char := '☆'

  /** `'★'.repeat(k) + '☆'.repeat(5 - k)`; a negative count makes `repeat`
      throw, which is `None`. */
  function StarsOf(k: int): (r: Option<string>)
    ensures r.Some? <==> 0 <= k <= 5
    ensures r.Some? ==> |r.value| == 5 && forall i :: 0 <= i < 5 ==> (r.value[i] == FullStar <==> i < k)
  {
    if k < 0 || 5 - k < 0 then None
    else Some(Repeat(FullStar, k) + Repeat(EmptyStar, 5 - k))
  }

  const NoStars: string := "-----"

  /** The stars for a logged landing: '-----' when there is no rating (or it
      is 0), otherwise one full star per point and empty stars up to five. */
  function GetRatingStars(rating: Option<int>): (r: Option<string>)
    ensures rating.None? || rating.value == 0 ==> r == Some(NoStars)
    ensures rating.Some? && rating.value != 0 ==> r == StarsOf(rating.value)
    ensures rating.Some? && 1 <= rating.value <= 5 ==> r.Some? && |r.value| == 5
  {
    if rating.None? || rating.value == 0 then Some(NoStars)
    else StarsOf(rating.value)
  }

  /** The stars read back as the rating: counting the full stars gives the
      score for every rating the bridge can produce. */
  lemma {:induction false} StarsCountBack(k: int)
    requires 1 <= k <= 5
    ensures var s := GetRatingStars(Some(k)).value;
      |s| == 5 && (forall i :: 0 <= i < k ==> s[i] == FullStar) && (forall i :: k <= i < 5 ==> s[i] == EmptyStar)
  {
    var s := GetRatingStars(Some(k)).value;
    assert s == Repeat(FullStar, k) + Repeat(EmptyStar, 5 - k);
    assert forall i :: k <= i < 5 ==> s[i] == Repeat(EmptyStar, 5 - k)[i - k];
  }

  /** Colour class of a rating; a missing rating compares as 0. */
  function RatingClass(rating: Option<real>): (r: string)
    ensures r in {"rating-good", "rating-ok", "rating-bad"}
    ensures var v := if rating.Some? then rating.value else 0.0;
      (r == "rating-good" <==> v >= 4.0)
      && (r == "rating-ok" <==> 3.0 <= v < 4.0)
      && (r == "rating-bad" <==> v < 3.0)
  {
    var v := if rating.Some? then rating.value else 0.0;
    if v >= 4.0 then "rating-good"
    else if v >= 3.0 then "rating-ok"
    else "rating-bad"
  }

  /** On a bridge rating, the class follows the touchdown bands: good below
      200 ft/min, ok below 300 and bad from 300 on. */
  lemma RatingClassOfTouchdown(vs: real)
    ensures var c := RatingClass(Some(LandingInfo.CalculateRating(vs).score as real));
      (c == "rating-good" <==> Abs(vs) < 200.0)
      && (c == "rating-ok" <==> 200.0 <= Abs(vs) < 300.0)
      && (c == "rating-bad" <==> Abs(vs) >= 300.0)
  {
    LandingInfo.RatingBands(vs);
  }

  // ---------------------------------------------------------------------------
  // Flight time

  /** '0h 0m' for a missing or zero time, otherwise whole hours and the
      minutes of the hour begun. For a non-negative time the text reads back
      as the minute in which that many seconds fall. */
  function FormatDuration(seconds: Option<real>): (r: string)
    ensures seconds.None? || seconds.value == 0.0 ==> r == "0h 0m"
    ensures seconds.Some? && seconds.value >= 0.0 ==>
      ParseDuration(r).Some?
      && var (h, m) := ParseDuration(r).value;
      m < 60 && (h * 3600 + m * 60) as real <= seconds.value < (h * 3600 + m * 60 + 60) as real
  {
    if seconds.None? || seconds.value == 0.0 then "0h 0m"
    else
      var s := seconds.value;
      if s >= 0.0 then
        DurationOfSeconds(s);
        DurationText(Hours(s), Minutes(s))
      else DurationText(Hours(s), Minutes(s))
  }

  lemma DurationOfSeconds(s: real)
    requires s >= 0.0
    ensures ParseDuration(DurationText(Hours(s), Minutes(s))) == Some((Hours(s), Minutes(s)))
    ensures Minutes(s) < 60
    ensures (Hours(s) * 3600 + Minutes(s) * 60) as real <= s < (Hours(s) * 3600 + Minutes(s) * 60 + 60) as real
  {
    HoursMinutesBounds(s);
    DurationRoundTrip(Hours(s), Minutes(s));
  }

  // ---------------------------------------------------------------------------
  // Achievements

  datatype Achievements = Achievements(frequentFlyer: bool, worldTraveler: bool, butterLanding: bool)

  /** Ten flights, 10000 NM, and an average landing of 4.5; without
      statistics every value counts as 0. */
  function GetAchievements(stats: Option<FlightStats.Stats>): (r: Achievements)
    ensures stats.None? ==> r == Achievements(false, false, false)
    ensures stats.Some? ==>
      r.frequentFlyer == (stats.value.totalFlights >= 10)
      && r.worldTraveler == (stats.value.totalDistance >= 10000.0)
      && r.butterLanding == (stats.value.avgLandingRating >= 4.5)
  {
    var flights := if stats.Some? then stats.value.totalFlights else 0;
    var distance := if stats.Some? then stats.value.totalDistance else 0.0;
    var avg := if stats.Some? then stats.value.avgLandingRating else 0.0;
    Achievements(flights >= 10, distance >= 10000.0, avg >= 4.5)
  }

  /** The butter-landing badge is out of reach for a logbook without a
      perfect landing: ratings of at most 4 average to at most 4. */
  lemma NoButterWithoutPerfectLanding(rows: seq<FlightStats.FlightRow>)
    requires forall i :: 0 <= i < |rows| && rows[i].landingRating.Some? ==> 0.0 <= rows[i].landingRating.value <= 4.0
    ensures !GetAchievements(FlightStats.GetFlightStats(false, Some(rows))).butterLanding
  {
    FlightStats.SumBounds(FlightStats.Ratings(rows), 4.0);
    var stats := FlightStats.GetFlightStats(false, Some(rows)).value;
    if rows != [] {
      var n := |rows| as real;
      assert stats.avgLandingRating * n <= 4.0 * n;
    }
  }
}
