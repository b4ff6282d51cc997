// simulators/scripts/run_scenario.py: a scenario runner that generates boat
// states along a route, publishes an IMU and a GPS message per state on the
// simulator topics, and a forwarder that republishes those on the sensor
// topics as the ESP32 firmware would.

module RunScenario {
  import opened Wrappers
  import opened Json
  import opened Geodesy
  import opened ScenarioUtils
  import PyMath

  /** `ESP32Forwarder._on_message`: the sensor topic a simulator topic is republished on, if any. */
  function ForwardTopic(topic: string): (r: Option<string>)
    ensures r == Some("sensor/imu") <==> topic == "sim/imu"
    ensures r == Some("sensor/gps") <==> topic == "sim/gps"
    ensures r.None? <==> topic != "sim/imu" && topic != "sim/gps"
  {
    if topic == "sim/imu" then Some("sensor/imu")
    else if topic == "sim/gps" then Some("sensor/gps")
    else None
  }

  /** The message the forwarder publishes for one it receives: the payload bytes go through unchanged. */
  function Forward(topic: string, payload: seq<bv8>): (r: Option<(string, seq<bv8>)>)
    ensures r.Some? <==> ForwardTopic(topic).Some?
    ensures r.Some? ==> r.value.0 == ForwardTopic(topic).value && r.value.1 == payload
  {
    match ForwardTopic(topic)
    case Some(out) => Some((out, payload))
    case None => None
  }

  /**
   * `WAVE_STATES.get(scenario.get("wave_state", "calm"), WAVE_STATES["calm"])`:
   * an exact, case-sensitive lookup falling back to "calm"; a list or an
   * object cannot be a dictionary key and raises TypeError.
   */
  function WaveOf(name: Json): (r: Result<Wave>)
    ensures name.JStr? && name.s in WaveStates ==> r == Success(WaveStates[name.s])
    ensures r.Failure? <==> name.JArr? || name.JObj?
    ensures r.Success? && !(name.JStr? && name.s in WaveStates) ==> r.value == WaveStates["calm"]
  {
    if name.JArr? || name.JObj? then Failure(TypeError)
    else if name.JStr? && name.s in WaveStates then Success(WaveStates[name.s])
    else Success(WaveStates["calm"])
  }

  /**
   * The script's own copy of `generate_states`. The script repeats the loop of
   * the scenario utilities rather than importing it, so this method mirrors
   * that copy line for line; it yields exactly the same states and raises
   * the same exception.
   */
  method GenerateStates(geo: Geo, points: seq<Point>, wave: Wave, dt: real) returns (states: seq<State>, err: Option<PyError>)
    ensures (states, err) == Generated(geo, points, wave, dt, 0, 0.0)
  {
    ghost var total := Generated(geo, points, wave, dt, 0, 0.0);
    states := [];
    var t := 0.0;
    var idx := 0;
    while idx + 1 < |points|
      invariant idx <= |points|
      invariant states + Generated(geo, points, wave, dt, idx, t).0 == total.0
      invariant Generated(geo, points, wave, dt, idx, t).1 == total.1
      decreases |points| - idx
    {
      var start, end := points[idx], points[idx + 1];
      if start.speed <= 0.0 {
        idx := idx + 1;
        continue;
      }
      var dur := LegDuration(geo, start, end);
      if dt == 0.0 || dur == 0.0 {
        assert Kept(points, idx) && Stalls(geo, points, dt, idx);
        assert Generated(geo, points, wave, dt, idx, t) == ([], Some(ZeroDivisionError));
        assert states + [] == states;
        return states, Some(ZeroDivisionError);
      }
      var heading := Bearing(geo, start.lat, start.lon, end.lat, end.lon);
      var leg, t1 := EmitLeg(geo, wave, start, end, heading, dur, dt, StepCount(dur, dt), t);
      assert leg == LegOf(geo, points, wave, dt, idx, t);
      states := states + leg;
      t := t1;
      idx := idx + 1;
    }
    if |points| == 0 {
      return states, Some(IndexError);
    }
    states := states + [Final(points[|points| - 1], t)];
    err := None;
  }

  /** `roll_rate`: the rate of the wave's roll `amp sin(2 pi freq t)`, in the units of `amp` per second. */
  function RollRate(geo: Geo, wave: Wave, t: real): real {
    var w := 2.0 * PyMath.Pi * wave.freq;
    w * wave.amp * geo.cos(w * t)
  }

  /** `pitch_rate`: the negated sine counterpart of the roll rate. */
  function PitchRate(geo: Geo, wave: Wave, t: real): real {
    var w := 2.0 * PyMath.Pi * wave.freq;
    -w * wave.amp * geo.sin(w * t)
  }

  /** The IMU message for state `s` with sequence number `number`, stamped `ts`. */
  function ImuPayload(geo: Geo, wave: Wave, s: State, number: nat, ts: string): Json {
    JObj(map[
      "ax" := JFloat(0.0), "ay" := JFloat(0.0), "az" := JFloat(1.0),
      "gx" := JFloat(RollRate(geo, wave, s.t)),
      "gy" := JFloat(PitchRate(geo, wave, s.t)),
      "gz" := JFloat(0.0),
      "ts" := JStr(ts), "seq" := JInt(number)])
  }

  /** The GPS message for state `s`, stamped `ts`. */
  function GpsPayload(s: State, ts: string): Json {
    JObj(map["lat" := JFloat(s.lat), "lon" := JFloat(s.lon), "ts" := JStr(ts)])
  }

  /**
   * The IMU message of state `k`: on "sim/imu", exactly the eight fields of
   * the script's payload, with no linear motion but gravity on z, the wave's
   * roll and pitch rates at the state's time, no yaw rate, the clock reading
   * `stamp(k, 0)` and sequence number `k`.
   */
  predicate ImuAt(published: seq<(string, Json)>, geo: Geo, wave: Wave, states: seq<State>, stamp: (nat, nat) -> string, k: nat) {
    2 * k < |published| && k < |states| &&
    var (topic, p) := published[2 * k];
    topic == "sim/imu" && p.JObj? &&
    p.fields.Keys == {"ax", "ay", "az", "gx", "gy", "gz", "ts", "seq"} &&
    p.fields["ax"] == JFloat(0.0) && p.fields["ay"] == JFloat(0.0) && p.fields["az"] == JFloat(1.0) &&
    p.fields["gx"] == JFloat(RollRate(geo, wave, states[k].t)) &&
    p.fields["gy"] == JFloat(PitchRate(geo, wave, states[k].t)) &&
    p.fields["gz"] == JFloat(0.0) &&
    p.fields["ts"] == JStr(stamp(k, 0)) &&
    p.fields["seq"] == JInt(k)
  }

  /** The GPS message of state `k`: on "sim/gps", exactly the state's position and the clock reading `stamp(k, 1)`. */
  predicate GpsAt(published: seq<(string, Json)>, states: seq<State>, stamp: (nat, nat) -> string, k: nat) {
    2 * k + 1 < |published| && k < |states| &&
    var (topic, p) := published[2 * k + 1];
    topic == "sim/gps" && p.JObj? &&
    p.fields.Keys == {"lat", "lon", "ts"} &&
    p.fields["lat"] == JFloat(states[k].lat) &&
    p.fields["lon"] == JFloat(states[k].lon) &&
    p.fields["ts"] == JStr(stamp(k, 1))
  }

  /**
   * The publishing loop of `run` over the generated states: an IMU message
   * then a GPS message per state, the sequence number starting at 0 and
   * increasing by one per state. `stamp(k, 0)` and `stamp(k, 1)` are the
   * clock readings taken for the two messages of state `k`.
   */
  method Publish(geo: Geo, wave: Wave, states: seq<State>, stamp: (nat, nat) -> string) returns (published: seq<(string, Json)>)
    ensures |published| == 2 * |states|
    ensures forall k: nat :: k < |states| ==> ImuAt(published, geo, wave, states, stamp, k) && GpsAt(published, states, stamp, k)
  {
    published := [];
    var number := 0;
    for k := 0 to |states|
      invariant number == k && |published| == 2 * k
      invariant forall j: nat :: j < k ==> ImuAt(published, geo, wave, states, stamp, j) && GpsAt(published, states, stamp, j)
    {
      var s := states[k];
      ghost var before := published;
      published := published + [("sim/imu", ImuPayload(geo, wave, s, number, stamp(k, 0))), ("sim/gps", GpsPayload(s, stamp(k, 1)))];
      forall j: nat | j < k
        ensures ImuAt(published, geo, wave, states, stamp, j) && GpsAt(published, states, stamp, j)
      {
        assert published[2 * j] == before[2 * j] && published[2 * j + 1] == before[2 * j + 1];
        assert ImuAt(before, geo, wave, states, stamp, j) && GpsAt(before, states, stamp, j);
      }
      assert published[2 * k] == ("sim/imu", ImuPayload(geo, wave, s, number, stamp(k, 0)));
      assert published[2 * k + 1] == ("sim/gps", GpsPayload(s, stamp(k, 1)));
      assert ImuAt(published, geo, wave, states, stamp, k) && GpsAt(published, states, stamp, k);
      number := number + 1;
    }
  }

  /**
   * `run`: load the scenario, pick the sea state, and publish along the
   * generated states with `dt` = 1; an exception from the generator ends the
   * run after the states it yielded were published.
   */
  method Run(geo: Geo, points: seq<Point>, waveState: Json, stamp: (nat, nat) -> string)
    returns (published: seq<(string, Json)>, err: Option<PyError>)
    ensures WaveOf(waveState).Failure? ==> published == [] && err == Some(TypeError)
    ensures WaveOf(waveState).Success? ==>
      var g := Generated(geo, points, WaveOf(waveState).value, 1.0, 0, 0.0);
      |published| == 2 * |g.0| && err == g.1 &&
      forall k: nat :: k < |g.0| ==> ImuAt(published, geo, WaveOf(waveState).value, g.0, stamp, k) && GpsAt(published, g.0, stamp, k)
  {
    var wave := WaveOf(waveState);
    if wave.Failure? {
      return [], Some(TypeError);
    }
    var states;
    states, err := GenerateStates(geo, points, wave.value, 1.0);
    published := Publish(geo, wave.value, states, stamp);
  }
}
