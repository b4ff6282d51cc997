// The message handler and broadcast tick of the telemetry backend
// (hmi/backend/app/main.py): source arbitration between live ("sensor/...")
// and simulated ("sim/...") topics, per-message validity, the recording hook,
// the radar topics, the sensor timeouts and system state of each broadcast
// tick, and the simulation control endpoints.

module Telemetry {
  import opened Wrappers
  import opened Json
  import opened Health
  import Radar
  import Recording
  import Base64

  type byte = Recording.byte

  // The topic names, as the shared topics file lists them.
  const SensorGps: string := "sensor/gps"
  const SimGps: string := "sim/gps"
  const SensorImu: string := "sensor/imu"
  const SimImu: string := "sim/imu"
  const SensorBattery: string := "sensor/battery"
  const SimBattery: string := "sim/battery"
  const SensorStatus: string := "sensor/status"
  const SensorTrack: string := "sensor/track"
  const SensorRadar: string := "sensor/radar"
  const ProcessedRadar: string := "processed/radar"

  /** The branch of the handler a topic takes; `live` tells a "sensor/..." topic from its "sim/..." twin. */
  datatype Channel =
    | GpsChannel(live: bool)
    | ImuChannel(live: bool)
    | BatteryChannel(live: bool)
    | StatusChannel
    | TrackChannel
    | RadarListChannel
    | OtherChannel

  /** The `if`/`elif` chain of the handler, in its order. */
  function ChannelOf(topic: string): Channel {
    if topic == SensorGps || topic == SimGps then GpsChannel(topic == SensorGps)
    else if topic == SensorImu || topic == SimImu then ImuChannel(topic == SensorImu)
    else if topic == SensorBattery || topic == SimBattery then BatteryChannel(topic == SensorBattery)
    else if topic == SensorStatus then StatusChannel
    else if topic == SensorTrack then TrackChannel
    else if topic == SensorRadar || topic == ProcessedRadar then RadarListChannel
    else OtherChannel
  }

  /** The topic of a channel, the live one where there are two. */
  function TopicOf(c: Channel): string {
    match c
    case GpsChannel(live) => if live then SensorGps else SimGps
    case ImuChannel(live) => if live then SensorImu else SimImu
    case BatteryChannel(live) => if live then SensorBattery else SimBattery
    case StatusChannel => SensorStatus
    case TrackChannel => SensorTrack
    case RadarListChannel => SensorRadar
    case OtherChannel => ""
  }

  /** Every named topic reaches its own branch. */
  lemma ChannelRoundTrip(c: Channel)
    requires c != OtherChannel
    ensures ChannelOf(TopicOf(c)) == c
  {
  }

  /** Both radar list topics take the list branch. */
  lemma RadarListTopics()
    ensures ChannelOf(SensorRadar) == RadarListChannel && ChannelOf(ProcessedRadar) == RadarListChannel
  {
  }

  class Backend {
    var imu: Sensor
    var gps: Sensor
    /** `SYSTEM_STATE`, as of the last broadcast tick. */
    var system: SystemState
    /** `ESP32_LAST_MESSAGE_TIME`: the last processed live message of any sensor. */
    var esp32Last: Option<real>
    /** `_prev_gps`. */
    var prevGps: Option<PrevFix>
    /** Whether `STATE["roll"]` and `STATE["pitch"]` hold a value. */
    var attitudeKnown: bool
    const radar: Radar.TrackManager
    const recording: Recording.Session

    predicate Valid()
      reads this, recording
    {
      recording.Valid()
    }

    constructor ()
      ensures Valid()
      ensures imu == InitialSensor && gps == InitialSensor && system == Initializing
      ensures esp32Last == None && prevGps == None && !attitudeKnown
      ensures fresh(radar) && fresh(recording)
      ensures radar.tracks == [] && !recording.active && recording.buffer == []
    {
      imu, gps, system := InitialSensor, InitialSensor, Initializing;
      esp32Last, prevGps, attitudeKnown := None, None, false;
      radar := new Radar.TrackManager();
      recording := new Recording.Session();
    }

    /**
     * The GPS branch, as a relation between the state before and after:
     * a gated message changes nothing; a processed live message marks the
     * ESP32 and the GPS as seen; a payload that is not an object, or one
     * on which the handler raises, stops there; otherwise the fix is kept
     * for the next message and, for a live message, the validity and state
     * are set from it.
     */
    twostate predicate GpsHandled(live: bool, payload: Json, ts: real, now: real, out: Outcome)
      reads this
    {
      var processed := Processed(live, old(gps.sim));
      var stored := processed && payload.JObj? && !GpsAborts(payload.fields, old(prevGps), ts);
      imu == old(imu) && system == old(system) && attitudeKnown == old(attitudeKnown) &&
      (out.Pass? <==> !processed || stored) &&
      (processed && !payload.JObj? ==> out == Fail(AttributeError)) &&
      esp32Last == (if processed && live then Some(now) else old(esp32Last)) &&
      gps.last == (if processed && live then Some(now) else old(gps.last)) &&
      gps.sim == old(gps.sim) && gps.baseline == old(gps.baseline) && gps.baselineTs == old(gps.baselineTs) &&
      prevGps == (if stored then Some(PrevFix(Get(payload.fields, "lat"), Get(payload.fields, "lon"), ts)) else old(prevGps)) &&
      (stored && live ==> gps.lastValid == Some(GpsValid(payload.fields)) &&
                          gps.state == StateFromValidity(GpsValid(payload.fields))) &&
      (!(stored && live) ==> gps.lastValid == old(gps.lastValid) && gps.state == old(gps.state))
    }

    /**
     * The IMU branch: the same arbitration and live marking as for the GPS;
     * roll and pitch become known once a message gets past the gyro and
     * accelerometer conversions with an accelerometer triple; a live message
     * that gets through sets the validity and state.
     */
    twostate predicate ImuHandled(live: bool, payload: Json, now: real, out: Outcome)
      reads this
    {
      var processed := Processed(live, old(imu.sim));
      var isObject := processed && payload.JObj?;
      var stored := isObject && !ImuAborts(payload.fields, old(attitudeKnown));
      gps == old(gps) && system == old(system) && prevGps == old(prevGps) &&
      (out.Pass? <==> !processed || stored) &&
      (processed && !payload.JObj? ==> out == Fail(AttributeError)) &&
      esp32Last == (if processed && live then Some(now) else old(esp32Last)) &&
      imu.last == (if processed && live then Some(now) else old(imu.last)) &&
      imu.sim == old(imu.sim) && imu.baseline == old(imu.baseline) && imu.baselineTs == old(imu.baselineTs) &&
      attitudeKnown == (old(attitudeKnown) ||
                        (isObject && !AttitudeAborts(payload.fields) && GivesAttitude(payload.fields))) &&
      (stored && live ==> imu.lastValid == Some(ImuValid(payload.fields)) &&
                          imu.state == StateFromValidity(ImuValid(payload.fields))) &&
      (!(stored && live) ==> imu.lastValid == old(imu.lastValid) && imu.state == old(imu.state))
    }

    method HandleGps(live: bool, payload: Json, ts: real, now: real) returns (out: Outcome)
      modifies this
      ensures GpsHandled(live, payload, ts, now, out)
    {
      if !Processed(live, gps.sim) {
        return Pass;
      }
      if live {
        esp32Last := Some(now);
        gps := gps.(last := Some(now));
      }
      if !payload.JObj? {
        return Fail(AttributeError);
      }
      var f := payload.fields;
      if GpsAborts(f, prevGps, ts) {
        return Fail(TypeError);
      }
      prevGps := Some(PrevFix(Get(f, "lat"), Get(f, "lon"), ts));
      if live {
        var valid := GpsValid(f);
        gps := gps.(lastValid := Some(valid), state := StateFromValidity(valid));
      }
      out := Pass;
    }

    method HandleImu(live: bool, payload: Json, now: real) returns (out: Outcome)
      modifies this
      ensures ImuHandled(live, payload, now, out)
    {
      if !Processed(live, imu.sim) {
        return Pass;
      }
      if live {
        esp32Last := Some(now);
        imu := imu.(last := Some(now));
      }
      if !payload.JObj? {
        return Fail(AttributeError);
      }
      var f := payload.fields;
      if AttitudeAborts(f) {
        return Fail(TypeError);
      }
      if GivesAttitude(f) {
        attitudeKnown := true;
      }
      if ImuAborts(f, attitudeKnown) {
        return Fail(TypeError);
      }
      if live {
        var valid := ImuValid(f);
        imu := imu.(lastValid := Some(valid), state := StateFromValidity(valid));
      }
      out := Pass;
    }

    /**
     * `_on_message`. `payload` is the decoded JSON (None when the bytes are
     * not JSON), `raw` the bytes as received, `ts` the parsed "ts" field of
     * the payload and `now` the wall-clock time. `out` is Fail when the
     * handler raises; the changes made before that point stay.
     */
    method OnMessage(topic: string, payload: Option<Json>, raw: seq<byte>, ts: real, now: real)
      returns (out: Outcome)
      requires Valid()
      modifies this, radar, recording
      ensures Valid()
      ensures payload.None? ==> out == Pass && unchanged(this) && unchanged(radar) && unchanged(recording)
      // The recording hook runs first, whatever the topic and the gates.
      ensures payload.Some? && old(recording.Takes(topic)) ==>
        recording.buffer == old(recording.buffer) + [Recording.Entry(now, topic, Base64.Encode(raw))] &&
        recording.count == old(recording.count) + 1
      ensures !(payload.Some? && old(recording.Takes(topic))) ==>
        recording.buffer == old(recording.buffer) && recording.count == old(recording.count)
      ensures recording.active == old(recording.active) && recording.paused == old(recording.paused)
      ensures recording.topics == old(recording.topics) && recording.file == old(recording.file)
      ensures recording.startedAt == old(recording.startedAt)
      ensures payload.Some? && ChannelOf(topic).GpsChannel? ==>
        GpsHandled(ChannelOf(topic).live, payload.value, ts, now, out) && unchanged(radar)
      ensures payload.Some? && ChannelOf(topic).ImuChannel? ==>
        ImuHandled(ChannelOf(topic).live, payload.value, now, out) && unchanged(radar)
      // A live battery message marks the ESP32 as seen; nothing else modelled changes.
      ensures payload.Some? && ChannelOf(topic).BatteryChannel? ==>
        imu == old(imu) && gps == old(gps) && system == old(system) && prevGps == old(prevGps) &&
        attitudeKnown == old(attitudeKnown) && unchanged(radar) &&
        esp32Last == (if ChannelOf(topic).live then Some(now) else old(esp32Last)) &&
        out == BatteryOutcome(payload.value)
      ensures payload.Some? && (ChannelOf(topic).StatusChannel? || ChannelOf(topic).OtherChannel?) ==>
        unchanged(this) && unchanged(radar) &&
        out == (if ChannelOf(topic).StatusChannel? && !payload.value.JObj? then Fail(AttributeError) else Pass)
      // The radar topics go to the track manager.
      ensures payload.Some? && (ChannelOf(topic).TrackChannel? || ChannelOf(topic).RadarListChannel?) ==>
        unchanged(this)
      ensures payload.Some? && ChannelOf(topic).TrackChannel? ==>
        Radar.Handled(old(radar.tracks), old(radar.published), radar.tracks, radar.published, payload.value, now, out)
      ensures payload.Some? && ChannelOf(topic).RadarListChannel? ==>
        Radar.Replaced(old(radar.tracks), old(radar.published), radar.tracks, radar.published, payload.value, now, out)
    {
      if payload.None? {
        return Pass;
      }
      recording.Offer(topic, raw, now);
      var v := payload.value;
      match ChannelOf(topic)
      case GpsChannel(live) =>
        out := HandleGps(live, v, ts, now);
      case ImuChannel(live) =>
        out := HandleImu(live, v, now);
      case BatteryChannel(live) =>
        if live {
          esp32Last := Some(now);
        }
        out := BatteryOutcome(v);
      case StatusChannel =>
        out := if v.JObj? then Pass else Fail(AttributeError);
      case TrackChannel =>
        out := radar.OnTrack(v, now);
      case RadarListChannel =>
        out := radar.ReplaceAll(v, now);
      case OtherChannel =>
        out := Pass;
    }

    /**
     * The health section of a broadcast tick at wall-clock time `now`:
     * each sensor's timeout rule, then the system state from the result.
     */
    method BroadcastTick(now: real)
      modifies this
      ensures imu == Tick(old(imu), now) && gps == Tick(old(gps), now)
      ensures system == SystemOf(imu.sim, gps.sim, esp32Last, now, imu.state, gps.state)
      ensures esp32Last == old(esp32Last) && prevGps == old(prevGps) && attitudeKnown == old(attitudeKnown)
    {
      imu := Tick(imu, now);
      gps := Tick(gps, now);
      system := SystemOf(imu.sim, gps.sim, esp32Last, now, imu.state, gps.state);
    }

    /** `sim_imu`: START starts the IMU simulation, STOP ends it; any other control changes nothing. */
    method SimImuControl(payload: map<string, Json>, now: real)
      modifies this
      ensures ControlVerb(payload) == Some("START") ==> imu == StartSimulation(old(imu))
      ensures ControlVerb(payload) == Some("STOP") ==> imu == StopSimulation(old(imu), now)
      ensures ControlVerb(payload) != Some("START") && ControlVerb(payload) != Some("STOP") ==> imu == old(imu)
      ensures gps == old(gps) && system == old(system) && esp32Last == old(esp32Last)
      ensures prevGps == old(prevGps) && attitudeKnown == old(attitudeKnown)
    {
      var verb := ControlVerb(payload);
      if verb == Some("START") {
        imu := StartSimulation(imu);
      } else if verb == Some("STOP") {
        imu := StopSimulation(imu, now);
      }
    }

    /** `sim_gps`: VECTOR or ROUTE starts the GPS simulation, STOP ends it; any other control changes nothing. */
    method SimGpsControl(payload: map<string, Json>, now: real)
      modifies this
      ensures ControlVerb(payload) == Some("VECTOR") || ControlVerb(payload) == Some("ROUTE") ==>
        gps == StartSimulation(old(gps))
      ensures ControlVerb(payload) == Some("STOP") ==> gps == StopSimulation(old(gps), now)
      ensures ControlVerb(payload) !in {Some("VECTOR"), Some("ROUTE"), Some("STOP")} ==> gps == old(gps)
      ensures imu == old(imu) && system == old(system) && esp32Last == old(esp32Last)
      ensures prevGps == old(prevGps) && attitudeKnown == old(attitudeKnown)
    {
      var verb := ControlVerb(payload);
      if verb == Some("VECTOR") || verb == Some("ROUTE") {
        gps := StartSimulation(gps);
      } else if verb == Some("STOP") {
        gps := StopSimulation(gps, now);
      }
    }
  }

  /** The battery branch raises when the payload is not an object or its "soc" cannot be compared with 1. */
  function BatteryOutcome(payload: Json): (out: Outcome)
    ensures out.Fail? <==> !payload.JObj? || NotNumeric(payload.fields, "soc")
  {
    if !payload.JObj? then Fail(AttributeError)
    else if NotNumeric(payload.fields, "soc") then Fail(TypeError)
    else Pass
  }
}
