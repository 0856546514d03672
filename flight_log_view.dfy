/** The logbook overlay: one row per logged flight with its flight time,
    landing stars and landing colour class. Unlike the pilot page, its
    helpers have no guard for a missing value. */
module FlightLogView {
  import opened Common
  import opened TimeText
  import SimFlyCorp

  /** A logged flight's fields the overlay prints; a database null is
      `None`. */
  datatype LoggedFlight = LoggedFlight(flightDurationSeconds: Option<real>, landingRating: Option<int>)

  /** A null number takes part in arithmetic as 0. */
  function NullAsZero(x: Option<real>): real {
    if x.Some? then x.value else 0.0
  }

  /** Whole hours and the minutes of the hour begun, with no special case. */
  function FormatDuration(seconds: Option<real>): (r: string)
    ensures NullAsZero(seconds) >= 0.0 ==>
      ParseDuration(r).Some?
      && var (h, m) := ParseDuration(r).value;
      m < 60 && (h * 3600 + m * 60) as real <= NullAsZero(seconds) < (h * 3600 + m * 60 + 60) as real
  {
    var s := NullAsZero(seconds);
    if s >= 0.0 then
      SimFlyCorp.DurationOfSeconds(s);
      DurationText(Hours(s), Minutes(s))
    else DurationText(Hours(s), Minutes(s))
  }

  /** The unguarded text agrees with the pilot page's guarded one on every
      input: the guard only short-cuts what the arithmetic gives anyway. */
  lemma FormatDurationAgrees(seconds: Option<real>)
    ensures FormatDuration(seconds) == SimFlyCorp.FormatDuration(seconds)
  {
    var s := NullAsZero(seconds);
    assert FormatDuration(seconds) == DurationText(Hours(s), Minutes(s));
    if seconds.None? || seconds.value == 0.0 {
      ZeroDurationText();
    } else {
      assert SimFlyCorp.FormatDuration(seconds) == DurationText(Hours(s), Minutes(s));
    }
  }

  lemma ZeroDurationText()
    ensures DurationText(Hours(0.0), Minutes(0.0)) == "0h 0m"
  {
    assert Hours(0.0) == 0 && Minutes(0.0) == 0;
    assert IntToString(0) == "0";
  }

  /** `'★'.repeat(rating) + '☆'.repeat(5 - rating)`; a null rating repeats
      zero full stars and five empty ones. */
  function GetRatingStars(rating: Option<int>): (r: Option<string>)
    ensures rating.None? ==> r == SimFlyCorp.StarsOf(0)
    ensures rating.Some? ==> r == SimFlyCorp.StarsOf(rating.value)
  {
    SimFlyCorp.StarsOf(if rating.Some? then rating.value else 0)
  }

  /** Both pages print the same stars for every rating the bridge produces;
      they differ only on a missing or zero rating, which the pilot page
      prints as dashes and the logbook as five empty stars. */
  lemma StarsAgreeOnRatedFlights(rating: Option<int>)
    ensures rating.Some? && rating.value != 0 ==> GetRatingStars(rating) == SimFlyCorp.GetRatingStars(rating)
    ensures rating.None? || rating.value == 0 ==>
      GetRatingStars(rating) == Some("☆☆☆☆☆") && SimFlyCorp.GetRatingStars(rating) == Some("-----")
  {
    if rating.None? || rating.value == 0 {
      var s := SimFlyCorp.StarsOf(0).value;
      assert s == Repeat(SimFlyCorp.FullStar, 0) + Repeat(SimFlyCorp.EmptyStar, 5);
      assert s == "☆☆☆☆☆";
    }
  }

  /** The time, stars and class cells of one row. */
  function Cells(f: LoggedFlight): (string, Option<string>, string) {
    var rating := if f.landingRating.Some? then Some(f.landingRating.value as real) else None;
    (FormatDuration(f.flightDurationSeconds), GetRatingStars(f.landingRating), SimFlyCorp.RatingClass(rating))
  }

  /** What the overlay shows: nothing while closed, the loading notice
      while the flights are being fetched, otherwise the table's cells. */
  datatype LogView = Closed | Loading | Table(rows: seq<(string, Option<string>, string)>)

  /** The cells of the table, one row per flight in order; nothing at all
      when the overlay is closed, and the loading notice instead of the
      rows while loading. */
  function Rows(isOpen: bool, loading: bool, flights: seq<LoggedFlight>): (r: LogView)
    ensures r.Closed? <==> !isOpen
    ensures r.Loading? <==> isOpen && loading
    ensures r.Table? ==> |r.rows| == |flights| && forall i :: 0 <= i < |flights| ==> r.rows[i] == Cells(flights[i])
  {
    if !isOpen then Closed
    else if loading then Loading
    else Table(seq(|flights|, i requires 0 <= i < |flights| => Cells(flights[i])))
  }
}
