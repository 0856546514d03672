/** The flight information panel: estimated time en route as a clock, the
    callsign, route progress and remaining distance, the time-to-destination
    estimate from ground speed, and saving an edited route. */
module FlightInfo {
  import opened Common
  import opened TimeText

  /** The route the pilot enters; distances are in nautical miles. */
  datatype FlightRoute = FlightRoute(origin: string, destination: string, totalDistance: real, flownDistance: real)

  /** A JavaScript number used with `|| 0`: `None` stands for null,
      undefined and NaN, which all become 0, as 0 itself does. */
  function OrZero(x: Option<real>): real {
    if x.Some? then x.value else 0.0
  }

  /** A string is truthy when it is present and not empty. */
  predicate Truthy(s: Option<string>) {
    s.Some? && s.value != ""
  }

  const NoClock: string := "--:--"

  /** '--:--' for a missing or non-positive number of seconds, otherwise the
      zero-padded hours and minutes. The clock reads back as the minute in
      which the given number of seconds falls. */
  function FormatEte(seconds: Option<real>): (r: string)
    ensures r == NoClock <==> seconds.None? || seconds.value <= 0.0
    ensures seconds.Some? && seconds.value > 0.0 ==>
      ParseClock(r).Some?
      && var (h, m) := ParseClock(r).value;
      m < 60 && (h * 3600 + m * 60) as real <= seconds.value < (h * 3600 + m * 60 + 60) as real
  {
    if seconds.None? || seconds.value <= 0.0 then NoClock
    else
      var s := seconds.value;
      HoursMinutesBounds(s);
      ClockRoundTrip(Hours(s), Minutes(s));
      ClockText(Hours(s), Minutes(s))
  }

  /** The ATC id when it is set, otherwise airline and flight number run
      together when both are set, otherwise nothing. */
  function Callsign(atcId: Option<string>, atcAirline: Option<string>, atcFlightNumber: Option<string>): (r: Option<string>)
    ensures r.Some? <==> Truthy(atcId) || (Truthy(atcAirline) && Truthy(atcFlightNumber))
    ensures r.Some? ==> r.value != []
    ensures Truthy(atcId) ==> r == atcId
    ensures !Truthy(atcId) && r.Some? ==>
      StartsWith(r.value, atcAirline.value) && r.value[|atcAirline.value|..] == atcFlightNumber.value
  {
    if Truthy(atcId) then atcId
    else if Truthy(atcAirline) && Truthy(atcFlightNumber) then Some(atcAirline.value + atcFlightNumber.value)
    else None
  }

  /** Percentage of the route flown, clamped to [0, 100]; 0 without a
      positive total. */
  function Progress(totalDistance: Option<real>, flownDistance: Option<real>): (r: real)
    ensures 0.0 <= r <= 100.0
    ensures OrZero(totalDistance) <= 0.0 ==> r == 0.0
  {
    var total := OrZero(totalDistance);
    var flown := OrZero(flownDistance);
    if total <= 0.0 then 0.0
    else Min(100.0, Max(0.0, (flown / total) * 100.0))
  }

  /** Distance still to fly, never negative. */
  function RemainingDistance(totalDistance: Option<real>, flownDistance: Option<real>): (r: real)
    ensures r >= 0.0 && r >= OrZero(totalDistance) - OrZero(flownDistance)
    ensures r == 0.0 || r == OrZero(totalDistance) - OrZero(flownDistance)
  {
    Max(0.0, OrZero(totalDistance) - OrZero(flownDistance))
  }

  /** Below the total the progress is exactly the flown share of it. */
  lemma ProgressIsFlownShare(totalDistance: Option<real>, flownDistance: Option<real>)
    requires 0.0 <= OrZero(flownDistance) <= OrZero(totalDistance) && OrZero(totalDistance) > 0.0
    ensures Progress(totalDistance, flownDistance) * OrZero(totalDistance) == OrZero(flownDistance) * 100.0
  {
    var total := OrZero(totalDistance);
    var flown := OrZero(flownDistance);
    QuotientBounds(flown, total, 1.0);
    assert flown / total <= 1.0;
  }

  /** With a positive total, the bar is full exactly when nothing remains. */
  lemma ProgressFullIffNothingRemains(totalDistance: Option<real>, flownDistance: Option<real>)
    requires OrZero(totalDistance) > 0.0
    ensures Progress(totalDistance, flownDistance) == 100.0 <==> RemainingDistance(totalDistance, flownDistance) == 0.0
  {
    var total := OrZero(totalDistance);
    var flown := OrZero(flownDistance);
    QuotientBounds(flown, total, 1.0);
    if flown >= total {
      assert flown / total >= 1.0;
    } else {
      assert flown / total < 1.0;
    }
  }

  /** Minutes to go at the current ground speed, rounded half up. */
  function EteMinutes(groundSpeed: real, remaining: real): (n: int)
    requires groundSpeed > 0.0
  {
    RoundHalfUp(remaining / groundSpeed * 60.0)
  }

  /** Nothing without a positive ground speed or with nothing left to fly;
      otherwise a clock that reads back as the rounded minutes to go. */
  function EstimatedEte(groundSpeed: Option<real>, remaining: real): (r: Option<string>)
    ensures r.None? <==> groundSpeed.None? || groundSpeed.value <= 0.0 || remaining <= 0.0
    ensures r.Some? ==>
      ParseClock(r.value).Some?
      && var (h, m) := ParseClock(r.value).value;
      m < 60 && h * 60 + m == EteMinutes(groundSpeed.value, remaining)
  {
    if groundSpeed.None? || groundSpeed.value <= 0.0 || remaining <= 0.0 then None
    else
      var totalMinutes := EteMinutes(groundSpeed.value, remaining);
      assert remaining / groundSpeed.value > 0.0;
      var h := totalMinutes / 60;
      var m := JsRem(totalMinutes, 60);
      ClockRoundTrip(h, m);
      Some(ClockText(h, m))
  }

  /** The estimate is within half a minute of the exact time to go. */
  lemma EteMinutesRounding(groundSpeed: real, remaining: real)
    requires groundSpeed > 0.0
    ensures var exact := remaining / groundSpeed * 60.0;
      exact - 0.5 < EteMinutes(groundSpeed, remaining) as real <= exact + 0.5
  {
  }

  /** Saving the edit form: codes upper-cased and trimmed, the distance as
      parsed (`None` for text that is not a number) or 0, and the flown
      distance carried over. */
  function HandleSave(editOrigin: string, editDestination: string, parsedDistance: Option<real>, current: Option<FlightRoute>): (r: FlightRoute)
    ensures IsNormalCode(r.origin) && IsNormalCode(r.destination)
    ensures r.origin == ToUpper(Trim(editOrigin)) && r.destination == ToUpper(Trim(editDestination))
    ensures r.totalDistance == OrZero(parsedDistance)
    ensures r.flownDistance == (if current.Some? then current.value.flownDistance else 0.0)
  {
    TrimToUpper(editOrigin);
    TrimToUpper(editDestination);
    NormalCodeOfTrimmed(editOrigin);
    NormalCodeOfTrimmed(editDestination);
    FlightRoute(
      Trim(ToUpper(editOrigin)),
      Trim(ToUpper(editDestination)),
      OrZero(parsedDistance),
      if current.Some? then OrZero(Some(current.value.flownDistance)) else 0.0)
  }

  /** An airport code as saved: no lower-case letter and no surrounding
      white space. */
  predicate IsNormalCode(s: string) {
    ToUpper(s) == s && (s == [] || (!IsWhiteSpace(s[0]) && !IsWhiteSpace(s[|s| - 1])))
  }

  lemma NormalCodeOfTrimmed(s: string)
    ensures IsNormalCode(ToUpper(Trim(s)))
  {
    var t := Trim(s);
    ToUpperIdempotent(t);
    if t != [] {
      assert ToUpper(t)[0] == ToUpperChar(t[0]);
      assert ToUpper(t)[|t| - 1] == ToUpperChar(t[|t| - 1]);
    }
  }

  /** The edit form starts from the route's own values (a missing route gives
      empty fields), so saving it unchanged gives the route back. */
  lemma SaveUnchangedRoute(route: FlightRoute)
    requires IsNormalCode(route.origin) && IsNormalCode(route.destination)
    ensures HandleSave(route.origin, route.destination, Some(route.totalDistance), Some(route)) == route
  {
    TrimOfUntrimmed(route.origin);
    TrimOfUntrimmed(route.destination);
  }

  /** Saving is idempotent: saving a saved route's fields again changes
      nothing. */
  lemma HandleSaveIdempotent(editOrigin: string, editDestination: string, parsedDistance: Option<real>, current: Option<FlightRoute>)
    ensures var r := HandleSave(editOrigin, editDestination, parsedDistance, current);
      HandleSave(r.origin, r.destination, Some(r.totalDistance), Some(r)) == r
  {
    var r := HandleSave(editOrigin, editDestination, parsedDistance, current);
    SaveUnchangedRoute(r);
  }
}
