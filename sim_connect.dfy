/** The bridge's simulator adapter: string screens for simulator text, the
    touchdown detector with its debounce, the boolean snapshot rules and the
    connection flags. */
module SimConnect {
  import opened Common
  import opened LandingInfo

  // ---------------------------------------------------------------------------
  // String screens

  predicate IsPrintableAscii(c: char) { ' ' <= c <= '~' }

  /** Text from the simulator is kept only when it is present, not blank and
      made of printable ASCII characters (codes 32 to 126). */
  predicate ValidText(str: Option<string>) {
    str.Some? && !AllWhiteSpace(str.value)
    && forall k :: 0 <= k < |str.value| ==> IsPrintableAscii(str.value[k])
  }

  /** An airport identifier is kept only when, once trimmed, it has 3 or 4
      characters, each a letter or a digit. */
  predicate ValidIcao(str: Option<string>) {
    str.Some? && !AllWhiteSpace(str.value)
    && 3 <= |Trim(str.value)| <= 4
    && forall k :: 0 <= k < |Trim(str.value)| ==> IsAsciiLetterOrDigit(Trim(str.value)[k])
  }

  method IsValidString(str: Option<string>) returns (ok: bool)
    ensures ok <==> ValidText(str)
  {
    if str.None? || AllWhiteSpace(str.value) {
      return false;
    }
    var s := str.value;
    var i := 0;
    while i < |s|
      invariant 0 <= i <= |s|
      invariant forall k :: 0 <= k < i ==> IsPrintableAscii(s[k])
    {
      if !IsPrintableAscii(s[i]) {
        return false;
      }
      i := i + 1;
    }
    return true;
  }

  method IsValidIcao(str: Option<string>) returns (ok: bool)
    ensures ok <==> ValidIcao(str)
  {
    if str.None? || AllWhiteSpace(str.value) {
      return false;
    }
    var s := Trim(str.value);
    if |s| < 3 || |s| > 4 {
      return false;
    }
    ok := AllLettersOrDigits(s);
  }

  /** The character loop of the identifier screen. */
  method AllLettersOrDigits(s: string) returns (ok: bool)
    ensures ok <==> forall k :: 0 <= k < |s| ==> IsAsciiLetterOrDigit(s[k])
  {
    var i := 0;
    while i < |s|
      invariant 0 <= i <= |s|
      invariant forall k :: 0 <= k < i ==> IsAsciiLetterOrDigit(s[k])
    {
      if !IsAsciiLetterOrDigit(s[i]) {
        return false;
      }
      i := i + 1;
    }
    return true;
  }

  /** ATC and waypoint text: dropped unless valid, otherwise trimmed. */
  function ScreenText(str: Option<string>): (r: Option<string>)
    ensures r.Some? <==> ValidText(str)
    ensures r.Some? ==> r.value == Trim(str.value)
    ensures r.Some? ==> r.value != [] && !IsWhiteSpace(r.value[0]) && !IsWhiteSpace(r.value[|r.value| - 1])
    ensures r.Some? ==> forall k :: 0 <= k < |r.value| ==> IsPrintableAscii(r.value[k])
  {
    if ValidText(str) then Some(Trim(str.value)) else None
  }

  /** Airport identifiers: dropped unless valid, otherwise trimmed and
      upper-cased, so a kept identifier is 3 or 4 upper-case letters or
      digits. */
  function ScreenIcao(str: Option<string>): (r: Option<string>)
    ensures r.Some? <==> ValidIcao(str)
    ensures r.Some? ==> r.value == ToUpper(Trim(str.value))
    ensures r.Some? ==> 3 <= |r.value| <= 4
    ensures r.Some? ==> forall k :: 0 <= k < |r.value| ==> IsAsciiUpper(r.value[k]) || IsAsciiDigit(r.value[k])
  {
    if ValidIcao(str) then Some(ToUpper(Trim(str.value))) else None
  }

  /** Screening an already screened identifier changes nothing. */
  lemma {:induction false} ScreenIcaoIdempotent(str: Option<string>)
    requires ScreenIcao(str).Some?
    ensures ScreenIcao(ScreenIcao(str)) == ScreenIcao(str)
  {
    var t := Trim(str.value);
    var u := ToUpper(t);
    assert u == ScreenIcao(str).value;
    assert forall k :: 0 <= k < |u| ==> IsAsciiLetterOrDigit(u[k]);
    assert !IsWhiteSpace(u[0]) && !IsWhiteSpace(u[|u| - 1]);
    TrimOfUntrimmed(u);
    assert !AllWhiteSpace(u);
    assert ValidIcao(Some(u));
    ToUpperIdempotent(t);
  }

  // ---------------------------------------------------------------------------
  // Raw samples and the published snapshot

  /** The on/off controls of the snapshot, each true iff its raw simulator
      value is positive. `ApuMaster` is read from the APU switch variable. */
  datatype Switch =
    | ParkingBrake
    | LightNav | LightBeacon | LightLanding | LightTaxi | LightStrobe
    | LightRecognition | LightWing | LightLogo | LightPanel
    | Battery1 | Battery2 | ExternalPower | AvionicsMaster
    | ApuMaster
    | SpoilersArmed | AutopilotMaster | AutothrottleArmed
    | SeatbeltSign | NoSmokingSign
    | AntiIceEng1 | AntiIceEng2 | AntiIceStructural | PitotHeat
    | FuelPump1 | FuelPump2
    | GpsIsActiveFlightPlan

  /** One periodic data block from the simulator (values already rounded). */
  datatype RawSample = RawSample(
    simOnGround: real,
    verticalSpeed: real,
    gForce: real,
    groundSpeed: real,
    engCombustion1: real,
    engCombustion2: real,
    gearPosition: real,
    apuPctRpm: real,
    transponderState: real,
    switchRaw: map<Switch, real>,
    aircraftTitle: string,
    atcId: Option<string>,
    atcAirline: Option<string>,
    atcFlightNumber: Option<string>,
    gpsWpNextId: Option<string>,
    gpsWpPrevId: Option<string>,
    gpsApproachAirportId: Option<string>)

  datatype SimData = SimData(
    connected: bool,
    paused: bool,
    onGround: bool,
    verticalSpeed: real,
    gForce: real,
    groundSpeed: real,
    enginesRunning: bool,
    engineMaster1: bool,
    engineMaster2: bool,
    gearDown: bool,
    apuRunning: bool,
    transponderState: int,
    switches: map<Switch, bool>,
    aircraftTitle: string,
    atcId: Option<string>,
    atcAirline: Option<string>,
    atcFlightNumber: Option<string>,
    gpsWpNextId: Option<string>,
    gpsWpPrevId: Option<string>,
    gpsApproachAirportId: Option<string>)

  predicate OnGround(raw: RawSample) { raw.simOnGround > 0.0 }

  function BuildSnapshot(raw: RawSample, paused: bool): (r: SimData)
    ensures r.connected && r.paused == paused && r.onGround == OnGround(raw)
    ensures r.enginesRunning <==> r.engineMaster1 || r.engineMaster2
    ensures r.engineMaster1 <==> raw.engCombustion1 > 0.0
    ensures r.engineMaster2 <==> raw.engCombustion2 > 0.0
    ensures r.gearDown <==> raw.gearPosition > 0.0
    ensures r.apuRunning <==> raw.apuPctRpm > 90.0
    ensures r.switches.Keys == raw.switchRaw.Keys
    ensures forall sw :: sw in r.switches ==> (r.switches[sw] <==> raw.switchRaw[sw] > 0.0)
    ensures r.atcId == ScreenText(raw.atcId) && r.atcAirline == ScreenText(raw.atcAirline)
    ensures r.atcFlightNumber == ScreenText(raw.atcFlightNumber)
    ensures r.gpsWpNextId == ScreenText(raw.gpsWpNextId) && r.gpsWpPrevId == ScreenText(raw.gpsWpPrevId)
    ensures r.gpsApproachAirportId == ScreenIcao(raw.gpsApproachAirportId)
    ensures r.verticalSpeed == raw.verticalSpeed && r.gForce == raw.gForce && r.groundSpeed == raw.groundSpeed
    ensures r.transponderState == TruncateToInt(raw.transponderState) && r.aircraftTitle == raw.aircraftTitle
  {
    SimData(
      connected := true,
      paused := paused,
      onGround := OnGround(raw),
      verticalSpeed := raw.verticalSpeed,
      gForce := raw.gForce,
      groundSpeed := raw.groundSpeed,
      enginesRunning := raw.engCombustion1 > 0.0 || raw.engCombustion2 > 0.0,
      engineMaster1 := raw.engCombustion1 > 0.0,
      engineMaster2 := raw.engCombustion2 > 0.0,
      gearDown := raw.gearPosition > 0.0,
      apuRunning := raw.apuPctRpm > 90.0,
      transponderState := TruncateToInt(raw.transponderState),
      switches := map sw | sw in raw.switchRaw :: raw.switchRaw[sw] > 0.0,
      aircraftTitle := raw.aircraftTitle,
      atcId := ScreenText(raw.atcId),
      atcAirline := ScreenText(raw.atcAirline),
      atcFlightNumber := ScreenText(raw.atcFlightNumber),
      gpsWpNextId := ScreenText(raw.gpsWpNextId),
      gpsWpPrevId := ScreenText(raw.gpsWpPrevId),
      gpsApproachAirportId := ScreenIcao(raw.gpsApproachAirportId))
  }

  // ---------------------------------------------------------------------------
  // Touchdown detection

  /** What the detector remembers between samples. */
  datatype DetectorState = DetectorState(
    wasOnGround: bool,
    lastVerticalSpeed: real,
    lastGForce: real,
    lastGroundSpeed: real,
    lastLandingTime: real)

  /** Seconds that must strictly elapse between two reported landings. */
  const DebounceSeconds: real := 5.0

  /** On ground, level, 1 G, and no landing yet (the earliest instant, 0). */
  const InitialDetector := DetectorState(true, 0.0, 1.0, 0.0, 0.0)

  /** The sample step: a landing is reported on an airborne-to-ground edge
      more than five seconds after the previous report, with the values of the
      previous sample; the state then remembers the current sample. */
  function DetectStep(st: DetectorState, raw: RawSample, now: real): (r: (DetectorState, Option<Landing>))
    ensures r.1.Some? <==> !st.wasOnGround && OnGround(raw) && now - st.lastLandingTime > DebounceSeconds
    ensures r.1.Some? ==>
      var l := r.1.value;
      l.timestamp == now
      && l.verticalSpeed == st.lastVerticalSpeed && l.gForce == st.lastGForce
      && l.groundSpeed == st.lastGroundSpeed
      && Rating(l.rating, l.ratingScore) == CalculateRating(st.lastVerticalSpeed)
      && l.aircraftTitle == raw.aircraftTitle
      && l.airport == ScreenIcao(raw.gpsApproachAirportId)
    ensures r.0.lastLandingTime == (if r.1.Some? then now else st.lastLandingTime)
    ensures r.0.wasOnGround == OnGround(raw)
    ensures r.0.lastVerticalSpeed == raw.verticalSpeed && r.0.lastGForce == raw.gForce
    ensures r.0.lastGroundSpeed == raw.groundSpeed
  {
    var onGround := OnGround(raw);
    var landing :=
      if !st.wasOnGround && onGround && now - st.lastLandingTime > DebounceSeconds then
        var rating := CalculateRating(st.lastVerticalSpeed);
        Some(Landing(now, st.lastVerticalSpeed, st.lastGForce, st.lastGroundSpeed,
                     rating.name, rating.score, raw.aircraftTitle,
                     ScreenIcao(raw.gpsApproachAirportId)))
      else None;
    var lastLandingTime := if landing.Some? then now else st.lastLandingTime;
    (DetectorState(onGround, raw.verticalSpeed, raw.gForce, raw.groundSpeed, lastLandingTime), landing)
  }

  /** Feeds a sequence of (sample, clock reading) pairs through the detector and
      collects the landings it reports. */
  function DetectRun(st: DetectorState, samples: seq<(RawSample, real)>): (r: (DetectorState, seq<Landing>))
    decreases |samples|
  {
    if samples == [] then (st, [])
    else
      var step := DetectStep(st, samples[0].0, samples[0].1);
      var rest := DetectRun(step.0, samples[1..]);
      (rest.0, (if step.1.Some? then [step.1.value] else []) + rest.1)
  }

  /** Bounce protection: along any run, each reported landing is more than five
      seconds after the previous one (and the first one more than five seconds
      after the starting state's last landing), whatever the clock readings. */
  lemma {:induction false} DebounceAlongRun(st: DetectorState, samples: seq<(RawSample, real)>)
    ensures var ls := DetectRun(st, samples).1;
      (ls != [] ==> ls[0].timestamp > st.lastLandingTime + DebounceSeconds)
      && forall i :: 0 <= i < |ls| - 1 ==> ls[i + 1].timestamp > ls[i].timestamp + DebounceSeconds
    decreases |samples|
  {
    if samples != [] {
      var step := DetectStep(st, samples[0].0, samples[0].1);
      DebounceAlongRun(step.0, samples[1..]);
    }
  }

  /** A landing is reported only by a sample that is on the ground. */
  lemma {:induction false} LandingsNeedTouchdown(st: DetectorState, samples: seq<(RawSample, real)>)
    ensures |DetectRun(st, samples).1| <= |samples|
    ensures DetectRun(st, samples).1 != [] ==> exists i :: 0 <= i < |samples| && OnGround(samples[i].0)
    decreases |samples|
  {
    if samples != [] {
      var step := DetectStep(st, samples[0].0, samples[0].1);
      LandingsNeedTouchdown(step.0, samples[1..]);
      if DetectRun(st, samples).1 != [] && step.1.None? {
        var i :| 0 <= i < |samples[1..]| && OnGround(samples[1..][i].0);
        assert OnGround(samples[i + 1].0);
      }
    }
  }

  /** The initial state believes the aircraft is on the ground, so the first
      sample never reports a landing, whatever it says. */
  lemma FirstSampleSilent(raw: RawSample, now: real)
    ensures DetectStep(InitialDetector, raw, now).1 == None
  {
  }

  /** The first real touchdown after start-up (an airborne sample followed by
      a ground sample, at any clock reading past five seconds) is always
      reported, with the airborne sample's vertical speed. */
  lemma FirstTouchdownReported(air: RawSample, t1: real, ground: RawSample, t2: real)
    requires !OnGround(air) && OnGround(ground) && t2 > DebounceSeconds
    ensures var r := DetectRun(InitialDetector, [(air, t1), (ground, t2)]).1;
      |r| == 1 && r[0].verticalSpeed == air.verticalSpeed && r[0].timestamp == t2
  {
    var s1 := DetectStep(InitialDetector, air, t1);
    assert s1.1 == None;
    var s2 := DetectStep(s1.0, ground, t2);
    assert s2.1.Some?;
    assert [(air, t1), (ground, t2)][1..] == [(ground, t2)];
    assert [(ground, t2)][1..] == [];
    assert DetectRun(s1.0, [(ground, t2)]).1 == [s2.1.value];
  }

  // ---------------------------------------------------------------------------
  // The manager

  datatype SimEvent = PauseState | PauseEx1 | OtherEvent

  class SimConnectManager {
    var isConnected: bool
    var disposed: bool
    var running: bool
    var isPaused: bool
    var wasOnGround: bool
    var lastVerticalSpeed: real
    var lastGForce: real
    var lastGroundSpeed: real
    var lastLandingTime: real

    /** The session is never reported connected while its receive loop is not
        meant to run. */
    predicate Valid()
      reads this
    {
      isConnected ==> running
    }

    function Detector(): DetectorState
      reads this
    {
      DetectorState(wasOnGround, lastVerticalSpeed, lastGForce, lastGroundSpeed, lastLandingTime)
    }

    constructor ()
      ensures Valid() && !isConnected && !running && !disposed && !isPaused
      ensures Detector() == InitialDetector
    {
      isConnected := false;
      disposed := false;
      running := false;
      isPaused := false;
      wasOnGround := true;
      lastVerticalSpeed := 0.0;
      lastGForce := 1.0;
      lastGroundSpeed := 0.0;
      lastLandingTime := 0.0;
    }

    /** Opening a session: a no-op success while connected; otherwise
        `sessionOpens` says whether the simulator accepted the session, and a
        failure runs the disconnect path. */
    method Connect(sessionOpens: bool) returns (ok: bool)
      requires Valid()
      modifies this
      ensures Valid()
      ensures old(isConnected) ==> ok && isConnected && running
      ensures !old(isConnected) ==> ok == sessionOpens && isConnected == sessionOpens && running == sessionOpens
      ensures Detector() == old(Detector()) && isPaused == old(isPaused) && disposed == old(disposed)
    {
      if isConnected {
        return true;
      }
      if sessionOpens {
        running := true;
        isConnected := true;
        return true;
      }
      Disconnect();
      return false;
    }

    method Disconnect()
      modifies this
      ensures Valid() && !running && !isConnected
      ensures Detector() == old(Detector()) && isPaused == old(isPaused) && disposed == old(disposed)
    {
      running := false;
      isConnected := false;
    }

    /** A failure while receiving drops the connection if the loop was running. */
    method OnReceiveFailure()
      requires Valid()
      modifies this
      ensures Valid()
      ensures old(running) ==> !running && !isConnected
      ensures !old(running) ==> running == old(running) && isConnected == old(isConnected)
      ensures Detector() == old(Detector()) && isPaused == old(isPaused) && disposed == old(disposed)
    {
      if running {
        isConnected := false;
        running := false;
      }
    }

    method OnRecvQuit()
      modifies this
      ensures Valid() && !running && !isConnected
      ensures Detector() == old(Detector()) && isPaused == old(isPaused) && disposed == old(disposed)
    {
      isConnected := false;
      running := false;
    }

    /** Both pause notifications set the flag from their payload. */
    method OnRecvEvent(event: SimEvent, dwData: nat)
      modifies this
      ensures event != OtherEvent ==> isPaused == (dwData != 0)
      ensures event == OtherEvent ==> isPaused == old(isPaused)
      ensures Detector() == old(Detector()) && isConnected == old(isConnected)
      ensures running == old(running) && disposed == old(disposed)
    {
      match event {
        case PauseState => isPaused := dwData != 0;
        case PauseEx1 => isPaused := dwData != 0;
        case OtherEvent =>
      }
    }

    /** Handles one data block: reports a landing when the detector says so,
        updates the detector state and publishes the snapshot. */
    method OnRecvSimobjectData(raw: RawSample, now: real) returns (landing: Option<Landing>, snapshot: SimData)
      modifies this
      ensures (Detector(), landing) == DetectStep(old(Detector()), raw, now)
      ensures snapshot == BuildSnapshot(raw, isPaused)
      ensures isPaused == old(isPaused) && isConnected == old(isConnected)
      ensures running == old(running) && disposed == old(disposed)
    {
      landing := DetectTouchdown(raw, now);
      snapshot := BuildSnapshot(raw, isPaused);
    }

    /** The touchdown part of the data handler. */
    method DetectTouchdown(raw: RawSample, now: real) returns (landing: Option<Landing>)
      modifies this
      ensures (Detector(), landing) == DetectStep(old(Detector()), raw, now)
      ensures isPaused == old(isPaused) && isConnected == old(isConnected)
      ensures running == old(running) && disposed == old(disposed)
    {
      ghost var expected := DetectStep(Detector(), raw, now);
      var currentOnGround := raw.simOnGround > 0.0;
      landing := None;
      if !wasOnGround && currentOnGround {
        if now - lastLandingTime > DebounceSeconds {
          var rating := CalculateRating(lastVerticalSpeed);
          var airport := ScreenIcao(raw.gpsApproachAirportId);
          landing := Some(Landing(now, lastVerticalSpeed, lastGForce, lastGroundSpeed,
                                  rating.name, rating.score, raw.aircraftTitle, airport));
          lastLandingTime := now;
        }
      }
      wasOnGround := currentOnGround;
      lastVerticalSpeed := raw.verticalSpeed;
      lastGForce := raw.gForce;
      lastGroundSpeed := raw.groundSpeed;
      assert landing == expected.1;
    }

    /** Disposing twice disconnects only once. */
    method Dispose()
      requires Valid()
      modifies this
      ensures Valid() && disposed
      ensures old(disposed) ==> running == old(running) && isConnected == old(isConnected)
      ensures !old(disposed) ==> !running && !isConnected
      ensures Detector() == old(Detector()) && isPaused == old(isPaused)
    {
      if disposed {
        return;
      }
      disposed := true;
      Disconnect();
    }
  }
}
