// The sensor-health rules of the telemetry backend (hmi/backend/app/main.py):
// which payloads make a sensor "Running", when a live sensor times out, how
// the system state is derived from the two sensors, and what a simulation
// stop restores. The backend's handlers (telemetry.dfy) apply these rules to
// their state.

module Health {
  import opened Wrappers
  import opened Json
  import opened Text

  datatype SensorState = NotInitialized | Running | Degraded | Unavailable | Simulated

  datatype SystemState = Initializing | Ok | SystemDegraded | SystemUnavailable | Simulation

  /** Seconds without live data after which a sensor, or the ESP32 link, is lost. */
  const Timeout: real := 10.0

  /** The last fix a GPS message left behind (`_prev_gps`). */
  datatype PrevFix = PrevFix(lat: Json, lon: Json, ts: real)

  /** `payload.get(key) is not None`. */
  predicate Present(f: map<string, Json>, key: string) {
    Get(f, key) != JNull
  }

  /** `_is_num(x) and float(x) != 0.0` for a coordinate. */
  predicate NonZeroCoordinate(v: Json) {
    IsFiniteNumber(v) && NumValue(v) != 0.0
  }

  /** A live GPS message is valid: finite non-zero lat/lon, and fix, hdop and sats_used present. */
  predicate GpsValid(f: map<string, Json>) {
    NonZeroCoordinate(Get(f, "lat")) && NonZeroCoordinate(Get(f, "lon")) &&
    Present(f, "fix") && Present(f, "hdop") && Present(f, "sats_used")
  }

  /** The six IMU channels the validity check looks at. */
  const ImuChannels: seq<string> := ["ax", "ay", "az", "gx", "gy", "gz"]

  /** A live IMU message is valid when all six channels are finite numbers. */
  predicate ImuValid(f: map<string, Json>) {
    forall k :: 0 <= k < |ImuChannels| ==> IsFiniteNumber(Get(f, ImuChannels[k]))
  }

  function StateFromValidity(valid: bool): (s: SensorState)
    ensures s == Running <==> valid
    ensures s == Degraded <==> !valid
  {
    if valid then Running else Degraded
  }

  /** A present value that arithmetic rejects, so the handler raises. */
  predicate NotNumeric(f: map<string, Json>, key: string) {
    Present(f, key) && !IsNumber(Get(f, key))
  }

  /** Three channels that are all present, as the roll/pitch and magnetometer code requires. */
  predicate AllPresent(f: map<string, Json>, a: string, b: string, c: string) {
    Present(f, a) && Present(f, b) && Present(f, c)
  }

  /**
   * A GPS message on which the handler raises before it stores the fix:
   * a speed that cannot be multiplied, or distance and bearing computed
   * (a previous fix and a later timestamp) from a coordinate that is not a number.
   */
  predicate GpsAborts(f: map<string, Json>, prev: Option<PrevFix>, ts: real) {
    NotNumeric(f, "speed") ||
    (prev.Some? && ts - prev.value.ts > 0.0 &&
     !(IsNumber(prev.value.lat) && IsNumber(prev.value.lon) &&
       IsNumber(Get(f, "lat")) && IsNumber(Get(f, "lon"))))
  }

  /** Roll and pitch get a value from this message. */
  predicate GivesAttitude(f: map<string, Json>) {
    AllPresent(f, "ax", "ay", "az") &&
    IsNumber(Get(f, "ax")) && IsNumber(Get(f, "ay")) && IsNumber(Get(f, "az"))
  }

  /**
   * An IMU message on which the handler raises before the validity check:
   * a gyro channel that cannot be converted to radians, an accelerometer
   * triple that cannot give roll and pitch, or a magnetometer triple that
   * cannot give a heading once roll and pitch are known.
   */
  predicate ImuAborts(f: map<string, Json>, attitudeKnown: bool) {
    AttitudeAborts(f) ||
    (AllPresent(f, "mx", "my", "mz") && (attitudeKnown || GivesAttitude(f)) &&
     !(IsNumber(Get(f, "mx")) && IsNumber(Get(f, "my")) && IsNumber(Get(f, "mz"))))
  }

  /** The handler raises before roll and pitch are computed: a gyro channel or the accelerometer triple is unusable. */
  predicate AttitudeAborts(f: map<string, Json>) {
    NotNumeric(f, "gx") || NotNumeric(f, "gy") || NotNumeric(f, "gz") ||
    (AllPresent(f, "ax", "ay", "az") && !GivesAttitude(f))
  }

  /**
   * What the backend keeps per sensor: its state (`SENSOR_STATES`), its last
   * live time (`SENSOR_*_LAST_TIME`), the validity of its last live message
   * (`_*_LAST_VALID`), its simulation gate (`SIM_*_ACTIVE`) and the baseline
   * captured when a simulation started (`_BASELINE_STATE`, `_BASELINE_LAST_TS`).
   */
  datatype Sensor = Sensor(state: SensorState, last: Option<real>, lastValid: Option<bool>,
                           sim: bool, baseline: Option<SensorState>, baselineTs: Option<real>)

  /** A sensor at service start. */
  const InitialSensor: Sensor := Sensor(NotInitialized, None, None, false, None, None)

  /** A message on the live ("sensor/...") topic is processed exactly when the gate is off, one on the simulated ("sim/...") topic exactly when it is on. */
  predicate Processed(live: bool, sim: bool) {
    live != sim
  }

  /** A simulation start: the gate goes on, the state and last live time are captured, and the sensor is "Simulated". */
  function StartSimulation(r: Sensor): (q: Sensor)
    ensures q.sim && q.state == Simulated
    ensures q.baseline == Some(r.state) && q.baselineTs == r.last
    ensures q.last == r.last && q.lastValid == r.lastValid
  {
    r.(sim := true, baseline := Some(r.state), baselineTs := r.last, state := Simulated)
  }

  /** A simulation stop: the gate goes off and the state is restored. */
  function StopSimulation(r: Sensor, now: real): (q: Sensor)
    ensures !q.sim && q.state == RestoreOnStop(r.last, r.baselineTs, r.baseline, r.lastValid, now)
    ensures q.last == r.last && q.lastValid == r.lastValid
    ensures q.baseline == r.baseline && q.baselineTs == r.baselineTs
  {
    r.(sim := false, state := RestoreOnStop(r.last, r.baselineTs, r.baseline, r.lastValid, now))
  }

  /** A broadcast tick on one sensor. */
  function Tick(r: Sensor, now: real): (q: Sensor)
    ensures q.state == TickSensor(r.sim, r.state, r.last, now)
    ensures q == r.(state := q.state)
  {
    r.(state := TickSensor(r.sim, r.state, r.last, now))
  }

  /** One sensor at a broadcast tick. */
  function TickSensor(gate: bool, s: SensorState, lastLive: Option<real>, now: real): SensorState {
    if gate then Simulated
    else if lastLive.None? then s
    else if now - lastLive.value > Timeout then Unavailable
    else s
  }

  /** The system state at a broadcast tick, from the gates, the ESP32 link and the two sensors. */
  function SystemOf(simImu: bool, simGps: bool, esp32Last: Option<real>, now: real,
                    imu: SensorState, gps: SensorState): SystemState
  {
    if simImu || simGps then Simulation
    else if esp32Last.Some? && now - esp32Last.value > Timeout then SystemUnavailable
    else if imu == NotInitialized && gps == NotInitialized then Initializing
    else if imu == Running && gps == Running then Ok
    else SystemDegraded
  }

  /**
   * The sensor state a simulation STOP restores: "Not initialized" without
   * live data, the baseline when no live data arrived since the start, and
   * otherwise a state from the age and validity of the last live message.
   */
  function RestoreOnStop(lastLive: Option<real>, baselineTs: Option<real>, baseline: Option<SensorState>,
                         lastValid: Option<bool>, now: real): SensorState
  {
    if lastLive.None? then NotInitialized
    else if baselineTs.Some? && lastLive.value == baselineTs.value then
      (if baseline.Some? then baseline.value else NotInitialized)
    else if now - lastLive.value > Timeout then Unavailable
    else StateFromValidity(lastValid == Some(true))
  }

  /** `str(control).strip().upper()` of a string control field; None when it is not a string. */
  function ControlVerb(payload: map<string, Json>): (r: Option<string>)
    ensures r.Some? <==> Get(payload, "control").JStr?
  {
    match Get(payload, "control")
    case JStr(s) => Some(Upper(Strip(s)))
    case _ => None
  }

  // ---- properties of the rules ----

  /** GPS validity ignores sats_in_view entirely. */
  lemma GpsIgnoresSatsInView(f: map<string, Json>, v: Json)
    ensures GpsValid(f) <==> GpsValid(f["sats_in_view" := v])
  {
    var g := f["sats_in_view" := v];
    assert forall k :: k != "sats_in_view" ==> Get(g, k) == Get(f, k);
  }

  /** A zero latitude (the default of an unset receiver) always makes a GPS message invalid. */
  lemma ZeroLatitudeInvalid(f: map<string, Json>)
    requires Get(f, "lat") == JInt(0) || Get(f, "lat") == JFloat(0.0)
    ensures !GpsValid(f)
  {
  }

  /** IMU validity, channel by channel. */
  lemma ImuValidChannels(f: map<string, Json>)
    ensures ImuValid(f) <==>
      IsFiniteNumber(Get(f, "ax")) && IsFiniteNumber(Get(f, "ay")) && IsFiniteNumber(Get(f, "az")) &&
      IsFiniteNumber(Get(f, "gx")) && IsFiniteNumber(Get(f, "gy")) && IsFiniteNumber(Get(f, "gz"))
  {
    assert ImuChannels[0] == "ax" && ImuChannels[1] == "ay" && ImuChannels[2] == "az";
    assert ImuChannels[3] == "gx" && ImuChannels[4] == "gy" && ImuChannels[5] == "gz";
  }

  /** A valid IMU message never makes the handler raise. */
  lemma ValidImuNeverAborts(f: map<string, Json>, attitudeKnown: bool)
    requires ImuValid(f)
    requires !AllPresent(f, "mx", "my", "mz") ||
      (IsNumber(Get(f, "mx")) && IsNumber(Get(f, "my")) && IsNumber(Get(f, "mz")))
    ensures !ImuAborts(f, attitudeKnown)
  {
    ImuValidChannels(f);
  }

  /** A tick does not change a state that a tick produced, at the same time. */
  lemma TickIdempotent(gate: bool, s: SensorState, lastLive: Option<real>, now: real)
    ensures TickSensor(gate, TickSensor(gate, s, lastLive, now), lastLive, now) == TickSensor(gate, s, lastLive, now)
  {
  }

  /** Once a live sensor has timed out, it stays unavailable at every later tick. */
  lemma TimeoutPersists(s: SensorState, last: real, now: real, later: real)
    requires now - last > Timeout && now <= later
    ensures TickSensor(false, s, Some(last), now) == Unavailable
    ensures TickSensor(false, TickSensor(false, s, Some(last), now), Some(last), later) == Unavailable
  {
  }

  /** A tick never changes a state within the timeout, nor one of a sensor never heard live. */
  lemma TickKeepsFresh(s: SensorState, lastLive: Option<real>, now: real)
    requires lastLive.None? || now - lastLive.value <= Timeout
    ensures TickSensor(false, s, lastLive, now) == s
  {
  }

  /** The system is in simulation exactly when a gate is on. */
  lemma SimulationIffGate(simImu: bool, simGps: bool, esp32Last: Option<real>, now: real,
                          imu: SensorState, gps: SensorState)
    ensures SystemOf(simImu, simGps, esp32Last, now, imu, gps) == Simulation <==> simImu || simGps
  {
  }

  /** "OK" exactly when no gate is on, the ESP32 link is not lost and both sensors run. */
  lemma OkIff(simImu: bool, simGps: bool, esp32Last: Option<real>, now: real,
              imu: SensorState, gps: SensorState)
    ensures SystemOf(simImu, simGps, esp32Last, now, imu, gps) == Ok <==>
      !simImu && !simGps && !(esp32Last.Some? && now - esp32Last.value > Timeout) &&
      imu == Running && gps == Running
  {
  }

  /** "Initializing" exactly when no gate is on, the link is not lost and neither sensor was ever initialised. */
  lemma InitializingIff(simImu: bool, simGps: bool, esp32Last: Option<real>, now: real,
                        imu: SensorState, gps: SensorState)
    ensures SystemOf(simImu, simGps, esp32Last, now, imu, gps) == Initializing <==>
      !simImu && !simGps && !(esp32Last.Some? && now - esp32Last.value > Timeout) &&
      imu == NotInitialized && gps == NotInitialized
  {
  }

  /** An ESP32 link never seen never makes the system unavailable. */
  lemma NeverSeenNeverLost(simImu: bool, simGps: bool, now: real, imu: SensorState, gps: SensorState)
    ensures SystemOf(simImu, simGps, None, now, imu, gps) != SystemUnavailable
  {
  }

  /**
   * Starting a simulation captures the sensor's state and last live time;
   * stopping it before new live data arrives gives the captured state back.
   */
  lemma StopRestoresBaseline(s: SensorState, last: real, lastValid: Option<bool>, now: real)
    ensures RestoreOnStop(Some(last), Some(last), Some(s), lastValid, now) == s
  {
  }

  /**
   * A stop that follows a start with no live data in between gives back the
   * state before the start, or "Not initialized" when the sensor was never live.
   */
  lemma StartThenStop(r: Sensor, now: real)
    ensures StopSimulation(StartSimulation(r), now).state == (if r.last.None? then NotInitialized else r.state)
    ensures !StopSimulation(StartSimulation(r), now).sim
  {
  }

  /**
   * A second start captures "Simulated" as the baseline, so a stop after two
   * starts, with no live data in between, leaves a live sensor "Simulated"
   * with its gate off.
   */
  lemma DoubleStartThenStop(r: Sensor, now: real)
    requires r.last.Some?
    ensures var s := StopSimulation(StartSimulation(StartSimulation(r)), now);
      s.state == Simulated && !s.sim
  {
  }

  /** While the gate is on, every tick keeps the sensor "Simulated". */
  lemma GatedTicks(r: Sensor, now: real)
    requires r.sim
    ensures Tick(r, now).state == Simulated
  {
  }

  /** Without any live data, a stop always leaves the sensor "Not initialized". */
  lemma StopWithoutLiveData(baselineTs: Option<real>, baseline: Option<SensorState>,
                            lastValid: Option<bool>, now: real)
    ensures RestoreOnStop(None, baselineTs, baseline, lastValid, now) == NotInitialized
  {
  }

  /**
   * After new live data, a stop judges the sensor afresh: unavailable past
   * the timeout, otherwise running exactly when the last live message was valid.
   */
  lemma StopAfterNewData(last: real, baselineTs: Option<real>, baseline: Option<SensorState>,
                         lastValid: Option<bool>, now: real)
    requires baselineTs == None || baselineTs.value != last
    ensures now - last > Timeout ==> RestoreOnStop(Some(last), baselineTs, baseline, lastValid, now) == Unavailable
    ensures now - last <= Timeout ==>
      (RestoreOnStop(Some(last), baselineTs, baseline, lastValid, now) == Running <==> lastValid == Some(true))
  {
  }
}
