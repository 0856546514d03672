/** The bridge's flight recorder: from takeoff to landing it keeps the highest
    altitude and the flown distance, and on landing it produces a flight log. */
module Tracking {
  import opened Common
  import opened LandingInfo

  /** The telemetry fields the recorder reads; each may be absent. */
  datatype TrackSample = TrackSample(
    latitude: Option<real>,
    longitude: Option<real>,
    altitude: Option<real>,
    aircraftTitle: Option<string>)

  /** A completed flight as it is uploaded. */
  datatype FlightLog = FlightLog(
    userId: Option<string>,
    origin: Option<string>,
    destination: Option<string>,
    aircraftType: Option<string>,
    departureTime: real,
    arrivalTime: real,
    flightDurationSeconds: int,
    distanceNm: real,
    maxAltitudeFt: int,
    landingRating: int,
    landingVs: real,
    landingGforce: real,
    sessionCode: Option<string>)

  /** Largest single position-to-position step that is still added to the
      total; longer steps are treated as teleports. */
  const MaxStepNm: real := 10.0

  function OrZero(x: Option<real>): real {
    if x.Some? then x.value else 0.0
  }

  function UpperOpt(s: Option<string>): (r: Option<string>)
    ensures r.Some? <==> s.Some?
    ensures r.Some? ==> r.value == ToUpper(s.value) && |r.value| == |s.value|
  {
    if s.Some? then Some(ToUpper(s.value)) else None
  }

  /** The part of the recorder that updates change. */
  datatype Progress = Progress(
    isTracking: bool,
    maxAltitude: real,
    totalDistanceNm: real,
    lastLatitude: real,
    lastLongitude: real)

  /** One position update: raises the maximum altitude, adds the step distance
      when the previous position is known (both coordinates non-zero) and the
      step is shorter than `MaxStepNm`, and always moves the last position to
      the sample. Nothing changes while not tracking. */
  function UpdateStep(dist: DistanceFn, p: Progress, s: TrackSample): (r: Progress)
    ensures !p.isTracking ==> r == p
    ensures p.isTracking ==> r.isTracking
    ensures p.isTracking ==> r.maxAltitude >= p.maxAltitude && r.maxAltitude >= OrZero(s.altitude)
    ensures r.maxAltitude == p.maxAltitude || r.maxAltitude == OrZero(s.altitude)
    ensures p.totalDistanceNm <= r.totalDistanceNm < p.totalDistanceNm + MaxStepNm
    ensures r.totalDistanceNm != p.totalDistanceNm ==> p.isTracking && p.lastLatitude != 0.0 && p.lastLongitude != 0.0
    ensures p.isTracking ==> r.lastLatitude == OrZero(s.latitude) && r.lastLongitude == OrZero(s.longitude)
    ensures p.isTracking && p.lastLatitude != 0.0 && p.lastLongitude != 0.0 ==>
      var d := dist(p.lastLatitude, p.lastLongitude, OrZero(s.latitude), OrZero(s.longitude));
      r.totalDistanceNm == p.totalDistanceNm + (if d < MaxStepNm then d else 0.0)
  {
    if !p.isTracking then p
    else
      var alt := OrZero(s.altitude);
      var lat := OrZero(s.latitude);
      var lon := OrZero(s.longitude);
      var maxAlt := if alt > p.maxAltitude then alt else p.maxAltitude;
      var total :=
        if p.lastLatitude != 0.0 && p.lastLongitude != 0.0 then
          var d := dist(p.lastLatitude, p.lastLongitude, lat, lon);
          if d < MaxStepNm then p.totalDistanceNm + d else p.totalDistanceNm
        else p.totalDistanceNm;
      Progress(true, maxAlt, total, lat, lon)
  }

  function UpdateRun(dist: DistanceFn, p: Progress, samples: seq<TrackSample>): Progress
    decreases |samples|
  {
    if samples == [] then p else UpdateRun(dist, UpdateStep(dist, p, samples[0]), samples[1..])
  }

  /** Over any run of updates the distance total and the maximum altitude never
      decrease, the total grows by less than `MaxStepNm` per update, and while
      tracking the maximum covers every altitude seen. */
  lemma {:induction false} UpdateRunBounds(dist: DistanceFn, p: Progress, samples: seq<TrackSample>)
    ensures var r := UpdateRun(dist, p, samples);
      p.totalDistanceNm <= r.totalDistanceNm <= p.totalDistanceNm + MaxStepNm * |samples| as real
      && p.maxAltitude <= r.maxAltitude
      && r.isTracking == p.isTracking
      && (p.isTracking ==> forall i :: 0 <= i < |samples| ==> OrZero(samples[i].altitude) <= r.maxAltitude)
    decreases |samples|
  {
    if samples != [] {
      var q := UpdateStep(dist, p, samples[0]);
      UpdateRunBounds(dist, q, samples[1..]);
      var r := UpdateRun(dist, p, samples);
      assert r == UpdateRun(dist, q, samples[1..]);
      if p.isTracking {
        forall i | 0 <= i < |samples|
          ensures OrZero(samples[i].altitude) <= r.maxAltitude
        {
          if i > 0 {
            assert samples[i] == samples[1..][i - 1];
          }
        }
      }
    }
  }

  /** The distance one leg contributes: the great-circle distance when the
      start is a known position (both coordinates non-zero) and the leg is
      shorter than `MaxStepNm`, otherwise nothing. */
  function LegNm(dist: DistanceFn, fromLat: real, fromLon: real, toLat: real, toLon: real): real {
    if fromLat != 0.0 && fromLon != 0.0 && dist(fromLat, fromLon, toLat, toLon) < MaxStepNm then
      dist(fromLat, fromLon, toLat, toLon)
    else 0.0
  }

  /** The accepted legs of a path that starts at (`lat`, `lon`) and visits the
      samples' positions in order, summed. */
  function PathNm(dist: DistanceFn, lat: real, lon: real, samples: seq<TrackSample>): real
    decreases |samples|
  {
    if samples == [] then 0.0
    else
      var toLat := OrZero(samples[0].latitude);
      var toLon := OrZero(samples[0].longitude);
      LegNm(dist, lat, lon, toLat, toLon) + PathNm(dist, toLat, toLon, samples[1..])
  }

  /** While tracking, a run of updates adds exactly the accepted legs of the
      path from the last known position through the samples, and ends at the
      last sample's position. */
  lemma {:induction false} UpdateRunTotal(dist: DistanceFn, p: Progress, samples: seq<TrackSample>)
    requires p.isTracking
    ensures UpdateRun(dist, p, samples).totalDistanceNm
      == p.totalDistanceNm + PathNm(dist, p.lastLatitude, p.lastLongitude, samples)
    ensures samples != [] ==>
      UpdateRun(dist, p, samples).lastLatitude == OrZero(samples[|samples| - 1].latitude)
      && UpdateRun(dist, p, samples).lastLongitude == OrZero(samples[|samples| - 1].longitude)
    decreases |samples|
  {
    if samples != [] {
      var q := UpdateStep(dist, p, samples[0]);
      assert q.totalDistanceNm == p.totalDistanceNm
        + LegNm(dist, p.lastLatitude, p.lastLongitude, OrZero(samples[0].latitude), OrZero(samples[0].longitude));
      UpdateRunTotal(dist, q, samples[1..]);
      if |samples| > 1 {
        assert samples[1..][|samples[1..]| - 1] == samples[|samples| - 1];
      }
    }
  }

  /** A run that starts at the origin of the coordinate system adds nothing for
      its first step: the previous position counts as unknown. */
  lemma UnknownPositionAddsNothing(dist: DistanceFn, p: Progress, s: TrackSample)
    requires p.lastLatitude == 0.0 || p.lastLongitude == 0.0
    ensures UpdateStep(dist, p, s).totalDistanceNm == p.totalDistanceNm
  {
  }

  class FlightTracker {
    const distanceNm: DistanceFn

    var takeoffTime: real
    var originAirport: Option<string>
    var takeoffLatitude: real
    var takeoffLongitude: real
    var aircraftType: Option<string>

    var maxAltitude: real
    var totalDistanceNm: real
    var lastLatitude: real
    var lastLongitude: real
    var isTracking: bool

    var sessionCode: Option<string>
    var userId: Option<string>

    function CurrentProgress(): Progress
      reads this
    {
      Progress(isTracking, maxAltitude, totalDistanceNm, lastLatitude, lastLongitude)
    }

    /** The takeoff data fixed by `StartTracking`. */
    function Departure(): (real, Option<string>, real, real, Option<string>)
      reads this
    {
      (takeoffTime, originAirport, takeoffLatitude, takeoffLongitude, aircraftType)
    }

    constructor (distance: DistanceFn)
      ensures distanceNm == distance && !isTracking
      ensures userId == None && sessionCode == None
    {
      distanceNm := distance;
      takeoffTime := 0.0;
      originAirport := None;
      takeoffLatitude := 0.0;
      takeoffLongitude := 0.0;
      aircraftType := None;
      maxAltitude := 0.0;
      totalDistanceNm := 0.0;
      lastLatitude := 0.0;
      lastLongitude := 0.0;
      isTracking := false;
      sessionCode := None;
      userId := None;
    }

    method SetUserId(id: Option<string>)
      modifies this
      ensures userId == id && sessionCode == old(sessionCode)
      ensures CurrentProgress() == old(CurrentProgress()) && Departure() == old(Departure())
    {
      userId := id;
    }

    method SetSessionCode(code: Option<string>)
      modifies this
      ensures sessionCode == code && userId == old(userId)
      ensures CurrentProgress() == old(CurrentProgress()) && Departure() == old(Departure())
    {
      sessionCode := code;
    }

    /** Starts a flight at clock reading `now`. */
    method StartTracking(s: TrackSample, origin: Option<string>, now: real)
      modifies this
      ensures CurrentProgress() == Progress(true, OrZero(s.altitude), 0.0, OrZero(s.latitude), OrZero(s.longitude))
      ensures Departure() == (now, UpperOpt(origin), OrZero(s.latitude), OrZero(s.longitude), s.aircraftTitle)
      ensures userId == old(userId) && sessionCode == old(sessionCode)
    {
      var latitude := OrZero(s.latitude);
      var longitude := OrZero(s.longitude);
      takeoffTime := now;
      originAirport := UpperOpt(origin);
      takeoffLatitude := latitude;
      takeoffLongitude := longitude;
      aircraftType := s.aircraftTitle;
      maxAltitude := OrZero(s.altitude);
      totalDistanceNm := 0.0;
      lastLatitude := latitude;
      lastLongitude := longitude;
      isTracking := true;
    }

    method Update(s: TrackSample)
      modifies this
      ensures CurrentProgress() == UpdateStep(distanceNm, old(CurrentProgress()), s)
      ensures Departure() == old(Departure())
      ensures userId == old(userId) && sessionCode == old(sessionCode)
    {
      if !isTracking {
        return;
      }
      var currentAltitude := OrZero(s.altitude);
      var currentLatitude := OrZero(s.latitude);
      var currentLongitude := OrZero(s.longitude);
      if currentAltitude > maxAltitude {
        maxAltitude := currentAltitude;
      }
      if lastLatitude != 0.0 && lastLongitude != 0.0 {
        var distance := distanceNm(lastLatitude, lastLongitude, currentLatitude, currentLongitude);
        if distance < MaxStepNm {
          totalDistanceNm := totalDistanceNm + distance;
        }
      }
      lastLatitude := currentLatitude;
      lastLongitude := currentLongitude;
    }

    /** Ends the flight at clock reading `now`. Without a flight in progress it
        returns nothing and changes nothing; a second stop therefore returns
        nothing. */
    method StopTracking(landing: Landing, destination: Option<string>, now: real) returns (log: Option<FlightLog>)
      modifies this
      ensures !isTracking
      ensures !old(isTracking) ==> log == None
      ensures old(isTracking) ==> log.Some?
      ensures log.Some? ==>
        var l := log.value;
        l.userId == userId && l.sessionCode == sessionCode
        && l.origin == originAirport && l.destination == UpperOpt(destination)
        && l.aircraftType == aircraftType
        && l.departureTime == takeoffTime && l.arrivalTime == now
        && l.flightDurationSeconds == TruncateToInt(now - takeoffTime)
        && l.distanceNm == totalDistanceNm && l.maxAltitudeFt == TruncateToInt(maxAltitude)
        && l.landingRating == landing.ratingScore
        && l.landingVs == landing.verticalSpeed && l.landingGforce == landing.gForce
      ensures maxAltitude == old(maxAltitude) && totalDistanceNm == old(totalDistanceNm)
      ensures lastLatitude == old(lastLatitude) && lastLongitude == old(lastLongitude)
      ensures Departure() == old(Departure())
      ensures userId == old(userId) && sessionCode == old(sessionCode)
    {
      if !isTracking {
        return None;
      }
      isTracking := false;
      log := Some(FlightLog(
        userId := userId,
        origin := originAirport,
        destination := UpperOpt(destination),
        aircraftType := aircraftType,
        departureTime := takeoffTime,
        arrivalTime := now,
        flightDurationSeconds := TruncateToInt(now - takeoffTime),
        distanceNm := totalDistanceNm,
        maxAltitudeFt := TruncateToInt(maxAltitude),
        landingRating := landing.ratingScore,
        landingVs := landing.verticalSpeed,
        landingGforce := landing.gForce,
        sessionCode := sessionCode));
    }

    /** Abandons the flight without a log. */
    method CancelTracking()
      modifies this
      ensures !isTracking
      ensures maxAltitude == old(maxAltitude) && totalDistanceNm == old(totalDistanceNm)
      ensures lastLatitude == old(lastLatitude) && lastLongitude == old(lastLongitude)
      ensures Departure() == old(Departure())
      ensures userId == old(userId) && sessionCode == old(sessionCode)
    {
      isTracking := false;
    }
  }
}
