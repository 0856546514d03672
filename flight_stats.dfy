/** The pilot's logbook summary: number of flights, summed distance and flight
    time, and the average landing rating over the rows the database returns. */
module FlightStats {
  import opened Common

  /** One logbook row as selected; a column may be null. */
  datatype FlightRow = FlightRow(distanceNm: Option<real>, flightDurationSeconds: Option<real>, landingRating: Option<real>)

  datatype Stats = Stats(totalFlights: nat, totalDistance: real, totalFlightTime: real, avgLandingRating: real)

  /** `x || 0`: a missing value counts as zero. */
  function OrZero(x: Option<real>): real {
    if x.Some? then x.value else 0.0
  }

  /** `reduce((sum, v) => sum + (v || 0), 0)` over one column. */
  function Sum(column: seq<Option<real>>): real {
    if column == [] then 0.0 else Sum(column[..|column| - 1]) + OrZero(column[|column| - 1])
  }

  function Distances(rows: seq<FlightRow>): (c: seq<Option<real>>)
    ensures |c| == |rows| && forall i :: 0 <= i < |rows| ==> c[i] == rows[i].distanceNm
  {
    seq(|rows|, i requires 0 <= i < |rows| => rows[i].distanceNm)
  }

  function Durations(rows: seq<FlightRow>): (c: seq<Option<real>>)
    ensures |c| == |rows| && forall i :: 0 <= i < |rows| ==> c[i] == rows[i].flightDurationSeconds
  {
    seq(|rows|, i requires 0 <= i < |rows| => rows[i].flightDurationSeconds)
  }

  function Ratings(rows: seq<FlightRow>): (c: seq<Option<real>>)
    ensures |c| == |rows| && forall i :: 0 <= i < |rows| ==> c[i] == rows[i].landingRating
  {
    seq(|rows|, i requires 0 <= i < |rows| => rows[i].landingRating)
  }

  /** The summary of a query result. `failed` stands for an error returned by
      the query and `data == None` for a missing result; either gives no
      statistics. */
  function GetFlightStats(failed: bool, data: Option<seq<FlightRow>>): (r: Option<Stats>)
    ensures r.None? <==> failed || data.None?
    ensures r.Some? ==>
      var rows := data.value;
      r.value.totalFlights == |rows|
      && r.value.totalDistance == Sum(Distances(rows))
      && r.value.totalFlightTime == Sum(Durations(rows))
      && (rows == [] ==> r.value.avgLandingRating == 0.0)
      && (rows != [] ==> r.value.avgLandingRating * |rows| as real == Sum(Ratings(rows)))
  {
    if failed || data.None? then None
    else
      var rows := data.value;
      Some(Stats(
        |rows|,
        Sum(Distances(rows)),
        Sum(Durations(rows)),
        if |rows| > 0 then Sum(Ratings(rows)) / |rows| as real else 0.0))
  }

  /** A column whose present values lie in [0, hi] sums to at most `hi` per
      row and to no less than zero. */
  lemma {:induction false} SumBounds(column: seq<Option<real>>, hi: real)
    requires hi >= 0.0
    requires forall i :: 0 <= i < |column| && column[i].Some? ==> 0.0 <= column[i].value <= hi
    ensures 0.0 <= Sum(column) <= hi * |column| as real
    decreases |column|
  {
    if column != [] {
      var init := column[..|column| - 1];
      assert forall i :: 0 <= i < |init| ==> init[i] == column[i];
      SumBounds(init, hi);
    }
  }

  /** Ratings on the 1..5 scale (missing ones count as 0) average to a value
      in [0, 5]. */
  lemma AverageRatingInRange(rows: seq<FlightRow>)
    requires forall i :: 0 <= i < |rows| && rows[i].landingRating.Some? ==> 1.0 <= rows[i].landingRating.value <= 5.0
    ensures var s := GetFlightStats(false, Some(rows)).value; 0.0 <= s.avgLandingRating <= 5.0
  {
    SumBounds(Ratings(rows), 5.0);
  }

  /** Summing a column distributes over concatenation. */
  lemma {:induction false} SumAppend(a: seq<Option<real>>, b: seq<Option<real>>)
    ensures Sum(a + b) == Sum(a) + Sum(b)
    decreases |b|
  {
    if b == [] {
      assert a + b == a;
    } else {
      var bi := b[..|b| - 1];
      assert (a + b)[..|a + b| - 1] == a + bi;
      SumAppend(a, bi);
    }
  }

  /** The totals of two result sets put together are the sums of their
      totals, and the flight counts add up. */
  lemma StatsOfConcatenation(x: seq<FlightRow>, y: seq<FlightRow>)
    ensures var sx := GetFlightStats(false, Some(x)).value;
      var sy := GetFlightStats(false, Some(y)).value;
      var sxy := GetFlightStats(false, Some(x + y)).value;
      sxy.totalFlights == sx.totalFlights + sy.totalFlights
      && sxy.totalDistance == sx.totalDistance + sy.totalDistance
      && sxy.totalFlightTime == sx.totalFlightTime + sy.totalFlightTime
  {
    assert Distances(x + y) == Distances(x) + Distances(y);
    assert Durations(x + y) == Durations(x) + Durations(y);
    SumAppend(Distances(x), Distances(y));
    SumAppend(Durations(x), Durations(y));
  }
}
