// The GPS bridge `GPSPublisher` (simulators/gps_sim/lib/mqtt_bridge.py): the
// control messages on "land/gps" that start and stop a simulated run, and the
// publishing loop of `start`, which advances the simulated motion on a
// schedule anchored at the time of the last VECTOR or ROUTE command and
// publishes at most one measurement per turn.
//
// The clock is an input: each turn of the loop and each control message
// carries the monotonic time it sees. The trigonometry of `_bearing` and
// `_move` is supplied by the caller; only the normalisation of their raw
// results is modelled. The MQTT client, the sleeps and the logging are not.

module GpsBridge {
  import opened Wrappers
  import opened Json
  import opened Text
  import opened Geodesy
  import opened GpsSim
  import GpsSettings
  import PyMath

  /** `MS_TO_KNOTS`: knots per metre per second. */
  const KnotsPerMs: real := 1.0 / 0.514444

  /** The topic the control messages arrive on. */
  const ControlTopic: string := "land/gps"

  /** The payload keys `_on_message` converts with `float`. */
  const NumericKeys: set<string> := {"lat", "lon", "spd", "next_lat", "next_lon", "hdg"}

  /** Every attribute a `GPSPublisher` ever assigns. */
  const PublisherAttributes: set<string> := {
    "config_path", "gps", "broker_host", "broker_port", "client_id", "retain_status", "topic", "qos",
    "status_topic", "validate_schema", "schema_path", "_schema", "_validator", "client", "_running",
    "log_messages", "control_topic", "_active", "mode", "lat", "lon", "hdg", "spd", "next_lat",
    "next_lon", "_sim_t", "_t0_pub", "_last_tick"}

  /** Every attribute a `NEOM8N` has once its constructor has run; `_rng` is set there, to None. */
  const ReceiverAttributes: set<string> := {
    "_cfg_path", "_rng", "_last_t", "_scenario", "_baudrate", "_protocol", "_use_ublox_binary",
    "_update_rate_hz", "_nav_rate_ms", "_fix_type", "_num_svs", "_initial_lat", "_initial_lon",
    "_initial_alt", "_pos_noise_m", "_alt_noise_m", "_vel_noise_m_s", "_hdop", "_nmea_sentences",
    "_nmea_term", "_publish_rate_hz", "_retain_messages"}

  /**
   * The raw destination of `_move`: `math.degrees(lat2)` and
   * `math.degrees(lon2)` for a start (lat, lon) in degrees, a heading in
   * degrees and a distance in metres, before the longitude is normalised.
   */
  type Destination = (real, real, real, real) -> (real, real)

  /** `_move`: the destination, its longitude brought into [-180, 180) by `(lon + 540) % 360 - 180`. */
  function Move(dest: Destination, lat: real, lon: real, hdg: real, dist: real): (r: (real, real))
    ensures -180.0 <= r.1 < 180.0
    ensures r.0 == dest(lat, lon, hdg, dist).0
    ensures var raw := dest(lat, lon, hdg, dist).1; -180.0 <= raw < 180.0 ==> r.1 == raw
    ensures var raw := dest(lat, lon, hdg, dist).1; 180.0 <= raw < 540.0 ==> r.1 == raw - 360.0
  {
    var raw := dest(lat, lon, hdg, dist);
    (raw.0, PyMath.FloorMod(raw.1 + 540.0, 360.0) - 180.0)
  }

  /** `float(v)` on a decoded value: TypeError for None and containers, ValueError for a string that is not a number. */
  function FloatOf(v: Json): (r: Result<real>)
    requires !v.JNonFinite?
    ensures IsFiniteNumber(v) ==> r == Success(NumValue(v))
    ensures !v.JStr? && !IsFiniteNumber(v) ==> r == Failure(TypeError)
    ensures v.JStr? && r.Failure? ==> r.error == ValueError
  {
    match ToFloat(v)
    case Some(x) => Success(x)
    case None => if v.JStr? then Failure(ValueError) else Failure(TypeError)
  }

  /** The model has no NaN or infinity: the values `_on_message` converts are finite, or not numbers at all. */
  predicate NumbersFinite(payload: Option<Json>) {
    payload.Some? && payload.value.JObj? ==>
      forall k :: k in NumericKeys && k in payload.value.fields ==> !payload.value.fields[k].JNonFinite?
  }

  /** `str(data.get("control", "")).upper()`. */
  function ControlWord(data: map<string, Json>, repr: Json -> string): string {
    Upper(PyStr(GetOr(data, "control", JStr("")), repr))
  }

  /** The fields of the publisher `_on_message` and the loop of `start` read and write. */
  datatype BridgeState = BridgeState(
    active: bool, mode: Option<string>,
    lat: real, lon: real, hdg: real, spd: real, nextLat: real, nextLon: real,
    simT: real, t0: Option<real>, lastTick: int)

  /** The values the constructor sets. */
  const Initial := BridgeState(false, None, 0.0, 0.0, 0.0, 0.0, -1.0, -1.0, 0.0, None, -1)

  /** What a control message does: the new fields, what the handler raised, and whether it reset the receiver. */
  datatype Reaction = Reaction(st: BridgeState, out: Outcome, reset: bool)

  /**
   * The six conversions `float(data.get(key, default))` VECTOR and ROUTE
   * make: 0 is the default of the position, the speed and the heading, -1
   * that of the next point. Conversion is pure, so taking all six up front
   * changes nothing the handler can observe.
   */
  datatype Conversions = Conversions(
    lat: Result<real>, lon: Result<real>, spd: Result<real>,
    nextLat: Result<real>, nextLon: Result<real>, hdg: Result<real>)

  function Convert(data: map<string, Json>): Conversions
    requires forall k :: k in NumericKeys && k in data ==> !data[k].JNonFinite?
  {
    Conversions(
      FloatOf(GetOr(data, "lat", JFloat(0.0))), FloatOf(GetOr(data, "lon", JFloat(0.0))),
      FloatOf(GetOr(data, "spd", JFloat(0.0))), FloatOf(GetOr(data, "next_lat", JFloat(-1.0))),
      FloatOf(GetOr(data, "next_lon", JFloat(-1.0))), FloatOf(GetOr(data, "hdg", JFloat(0.0))))
  }

  /**
   * VECTOR and ROUTE, after the receiver is reset: the five coordinates are
   * stored one by one, and a failed conversion raises, leaving the ones
   * before it stored; the heading is the bearing to the next point for a
   * ROUTE whose next point is given, otherwise the `hdg` field; then the
   * run is anchored at `now`.
   */
  function Engage(st: BridgeState, ctrl: string, c: Conversions, now: real, geo: Geo): (BridgeState, Outcome) {
    if c.lat.Failure? then (st, Fail(c.lat.error)) else
    if c.lon.Failure? then (st.(lat := c.lat.value), Fail(c.lon.error)) else
    if c.spd.Failure? then (st.(lat := c.lat.value, lon := c.lon.value), Fail(c.spd.error)) else
    if c.nextLat.Failure? then (st.(lat := c.lat.value, lon := c.lon.value, spd := c.spd.value), Fail(c.nextLat.error)) else
    var moved := st.(lat := c.lat.value, lon := c.lon.value, spd := c.spd.value, nextLat := c.nextLat.value);
    if c.nextLon.Failure? then (moved, Fail(c.nextLon.error)) else
    var aimed := moved.(nextLon := c.nextLon.value);
    var hdg :=
      if ctrl == "ROUTE" && c.nextLat.value != -1.0 && c.nextLon.value != -1.0
      then Success(Bearing(geo, c.lat.value, c.lon.value, c.nextLat.value, c.nextLon.value))
      else c.hdg;
    if hdg.Failure? then (aimed, Fail(hdg.error)) else
    (aimed.(hdg := hdg.value, mode := Some(ctrl), active := true, simT := 0.0, t0 := Some(now), lastTick := -1), Pass)
  }

  /**
   * `_on_message`: other topics and payloads that do not decode are
   * ignored; a payload that is not a JSON object has no `get` and raises
   * AttributeError; STOP ends the run; VECTOR and ROUTE engage it; any other
   * verb is ignored.
   */
  function React(st: BridgeState, topic: string, payload: Option<Json>, now: real, geo: Geo, repr: Json -> string): Reaction
    requires NumbersFinite(payload)
  {
    if topic != ControlTopic || payload.None? then Reaction(st, Pass, false)
    else if !payload.value.JObj? then Reaction(st, Fail(AttributeError), false)
    else
      var data := payload.value.fields;
      var ctrl := ControlWord(data, repr);
      if ctrl == "STOP" then Reaction(st.(active := false), Pass, false)
      else if ctrl == "VECTOR" || ctrl == "ROUTE" then
        var (st', out) := Engage(st, ctrl, Convert(data), now, geo);
        Reaction(st', out, true)
      else Reaction(st, Pass, false)
  }

  /** `int((now_m - t0) / dt_pub)`: the newest tick due at `now`, truncated toward zero. */
  function TickAt(t0: real, now: real, dt: real): (k: int)
    requires dt > 0.0
    ensures now >= t0 ==> k >= 0 && k as real * dt <= now - t0 < (k + 1) as real * dt
    ensures t0 - dt < now < t0 ==> k == 0
  {
    TickBounds(now - t0, dt);
    PyMath.Trunc((now - t0) / dt)
  }

  /** Multiplying a bound on a quotient back by the positive divisor. */
  lemma QuotientBounds(lo: real, x: real, hi: real, m: real)
    requires m > 0.0 && lo <= x / m <= hi
    ensures lo * m <= x <= hi * m
    ensures x / m < hi ==> x < hi * m
  {
    var q := x / m;
    assert q * m == x;
  }

  /** Truncating `x / m` toward zero: the whole periods in a non-negative `x`, and 0 for less than one period below 0. */
  lemma TickBounds(x: real, m: real)
    requires m > 0.0
    ensures var k := PyMath.Trunc(x / m);
      (x >= 0.0 ==> k >= 0 && k as real * m <= x < (k + 1) as real * m) &&
      (-m < x < 0.0 ==> k == 0)
  {
    var q := x / m;
    var k := PyMath.Trunc(q);
    if x >= 0.0 {
      if q < 0.0 {
        QuotientBounds(q, x, 0.0, m);
      }
      QuotientBounds(k as real, x, k as real + 1.0, m);
      assert (k + 1) as real == k as real + 1.0;
    } else if -m < x {
      if q >= 0.0 {
        QuotientBounds(0.0, x, q, m);
      }
      if q <= -1.0 {
        QuotientBounds(q, x, -1.0, m);
      }
    }
  }

  /** The sleep before the next anchored tick: `min(max(0, t0 + (last + 1) * dt - now), dt)`. */
  function SleepFor(t0: real, lastTick: int, now: real, dt: real): (d: real)
    requires dt > 0.0
    ensures 0.0 <= d <= dt
  {
    PyMath.Min(PyMath.Max(0.0, t0 + (lastTick + 1) as real * dt - now), dt)
  }

  /** A run engaged before any schedule existed is anchored at the first turn that sees it: `_t0_pub` is set and `_last_tick` is -1. */
  function Rebased(st: BridgeState, now: real): (r: BridgeState)
    ensures r.t0.Some?
  {
    if st.t0.Some? then st else st.(t0 := Some(now), lastTick := -1)
  }

  /** The tick due at `now` on the rebased schedule. */
  function Due(st: BridgeState, now: real, dt: real): int
    requires dt > 0.0
  {
    TickAt(Rebased(st, now).t0.value, now, dt)
  }

  /**
   * Catching up to tick `tick`: `steps = max(1, tick - last)` periods of
   * motion at the present speed and heading, and as many periods of
   * simulated time; the tick is not yet recorded.
   */
  function CaughtUp(b: BridgeState, tick: int, dt: real, dest: Destination): BridgeState {
    var gap := tick - b.lastTick;
    var steps := if gap > 1 then gap else 1;
    var p := Move(dest, b.lat, b.lon, b.hdg, b.spd * dt * steps as real);
    b.(lat := p.0, lon := p.1, simT := b.simT + dt * steps as real)
  }

  /** The turn at `now` catching up to the due tick on the rebased schedule. */
  function Advance(st: BridgeState, now: real, dt: real, dest: Destination): BridgeState
    requires dt > 0.0
  {
    CaughtUp(Rebased(st, now), Due(st, now, dt), dt, dest)
  }

  /** The motion provider handed to `sample`: the present position, no altitude, the speed in knots, the heading, no climb. */
  function ProviderOf(lat: real, lon: real, spd: real, hdg: real): real -> Fix {
    (t: real) => Fix(lat, lon, 0.0, spd * KnotsPerMs, hdg, 0.0)
  }

  /**
   * `meas_out`: the measured position; `speed`, `fix` and `ts` read keys the
   * measurement does not have (it holds `speed_knots` and no fix or time),
   * so they are null; the course is published as both `cog` and `heading`.
   */
  function MeasOut(r: Reading): (p: map<string, Json>)
    ensures Shaped(p)
  {
    map[
      "lat" := JFloat(r.meas.lat), "lon" := JFloat(r.meas.lon), "alt" := JFloat(r.meas.alt),
      "speed" := JNull, "fix" := JNull, "ts" := JNull,
      "cog" := JFloat(r.meas.courseDeg), "heading" := JFloat(r.meas.courseDeg)]
  }

  /** The payload of the sample `start` draws in state `st`, the provider reporting the state's own motion. */
  function PayloadAt(sc: Scenarios.Scenario, s: GpsSettings.Settings, st: BridgeState, normal: Normal, geo: Geo, fmt: Format): map<string, Json>
    requires |sc.points| > 0
  {
    MeasOut(ReadingAt(sc, s, st.simT, Some(ProviderOf(st.lat, st.lon, st.spd, st.hdg)), normal, geo, fmt))
  }

  /** How a drawn sample ends the turn: the receiver's guard raises, the validator drops it, or it is published. */
  function Drawn(guard: Option<PyError>, p: map<string, Json>, validator: Option<map<string, Json> -> bool>): Turn {
    if guard.Some? then Raised(guard.value)
    else if validator.Some? && !validator.value(p) then Dropped
    else Published(p)
  }

  /** The shape every published payload has. */
  predicate Shaped(p: map<string, Json>) {
    "speed" in p && "fix" in p && "ts" in p && "cog" in p && "heading" in p &&
    p["speed"] == JNull && p["fix"] == JNull && p["ts"] == JNull && p["cog"] == p["heading"]
  }

  /**
   * The anchored schedule of an active run: the simulated time is one
   * period past the last tick, and the receiver's last sample time is not
   * after it, so the next sample cannot run time backwards.
   */
  predicate Anchored(st: BridgeState, initialised: bool, lastT: Option<real>, dt: real) {
    st.active ==>
      st.t0.Some? && st.lastTick >= -1 && st.simT == (st.lastTick + 1) as real * dt &&
      initialised && (lastT.None? || lastT.value <= st.simT)
  }

  /** `pub_hz`: the publish rate if it is non-zero, else the update rate; a rate that is not positive becomes 1 Hz. */
  function PublishRate(publishHz: real, updateHz: real): (r: real)
    ensures r > 0.0
    ensures publishHz > 0.0 ==> r == publishHz
    ensures publishHz == 0.0 ==> r == (if updateHz > 0.0 then updateHz else 1.0)
    ensures publishHz < 0.0 ==> r == 1.0
  {
    var hz := if publishHz != 0.0 then publishHz else updateHz;
    if hz <= 0.0 then 1.0 else hz
  }

  /** The guard `start` means to apply: RuntimeError until `init_sim` has created the noise generator. */
  function StartGuard(initialised: bool): (r: Option<PyError>)
    ensures r.Some? <==> !initialised
    ensures r.Some? ==> r.value == RuntimeError
  {
    if initialised then None else Some(RuntimeError)
  }

  /** The guard as written: `not hasattr(self.gps, "_rng")`, a test of the attribute's existence, not of its value. */
  function StartGuardAsWritten(receiverAttributes: set<string>): Option<PyError> {
    if "_rng" !in receiverAttributes then Some(RuntimeError) else None
  }

  /**
   * What a rejected payload does as written: `self._t_next += dt_pub` reads
   * `_t_next` first, and a publisher without that attribute raises
   * AttributeError; with it, the tick stays unrecorded.
   */
  function RejectAsWritten(attributes: set<string>, lastTick: int): Result<int> {
    if "_t_next" in attributes then Success(lastTick) else Failure(AttributeError)
  }

  /** The events the publishing loop sees: a control message delivered at `at`, or a turn of the loop at `now`. */
  datatype Event = Message(topic: string, payload: Option<Json>, at: real) | Clock(now: real)

  /** What one turn of the loop did. */
  datatype Turn =
    | Inactive
    | Wait(sleep: real)
    | Published(payload: map<string, Json>)
    | Dropped
    | Raised(error: PyError)

  function ClockCount(events: seq<Event>): nat {
    if events == [] then 0
    else ClockCount(events[..|events| - 1]) + (if events[|events| - 1].Clock? then 1 else 0)
  }

  class GpsPublisher {
    /** The receiver the constructor creates. */
    const gps: NEOM8N
    /** `_active`, `mode`, `lat`, `lon`, `hdg`, `spd`, `next_lat`, `next_lon`, `_sim_t`, `_t0_pub` and `_last_tick`. */
    var st: BridgeState

    predicate Valid()
      reads this, gps
    {
      gps.Valid()
    }

    /** The period of the loop of `start`. */
    function Period(): (dt: real)
      reads gps
      ensures dt > 0.0
    {
      1.0 / PublishRate(gps.settings.publishRateHz, gps.settings.updateRateHz)
    }

    predicate Scheduled(dt: real)
      reads this, gps
    {
      Anchored(st, gps.initialised, gps.lastT, dt)
    }

    constructor (gps: NEOM8N)
      requires gps.Valid()
      ensures this.gps == gps && Valid() && st == Initial
    {
      this.gps := gps;
      st := Initial;
    }

    /** `_on_message`, with `now` the monotonic time an engaging command anchors the schedule at. */
    method OnMessage(topic: string, payload: Option<Json>, now: real, geo: Geo, repr: Json -> string) returns (out: Outcome)
      requires Valid() && NumbersFinite(payload)
      modifies this, gps
      ensures Valid() && gps.settings == old(gps.settings)
      ensures var r := React(old(st), topic, payload, now, geo, repr);
        st == r.st && out == r.out &&
        (r.reset ==> gps.initialised && gps.lastT.None?) &&
        (!r.reset ==> gps.initialised == old(gps.initialised) && gps.lastT == old(gps.lastT))
    {
      if topic != ControlTopic || payload.None? {
        return Pass;
      }
      if !payload.value.JObj? {
        return Fail(AttributeError);
      }
      var data := payload.value.fields;
      var ctrl := ControlWord(data, repr);
      if ctrl == "STOP" {
        st := st.(active := false);
        return Pass;
      }
      if ctrl != "VECTOR" && ctrl != "ROUTE" {
        return Pass;
      }
      gps.InitSim();
      out := Configure(ctrl, Convert(data), now, geo);
    }

    /** The stores and the anchoring of VECTOR and ROUTE, in the order the handler runs them. */
    method Configure(ctrl: string, c: Conversions, now: real, geo: Geo) returns (out: Outcome)
      modifies this
      ensures (st, out) == Engage(old(st), ctrl, c, now, geo)
    {
      if c.lat.Failure? { return Fail(c.lat.error); }
      st := st.(lat := c.lat.value);
      if c.lon.Failure? { return Fail(c.lon.error); }
      st := st.(lon := c.lon.value);
      if c.spd.Failure? { return Fail(c.spd.error); }
      st := st.(spd := c.spd.value);
      if c.nextLat.Failure? { return Fail(c.nextLat.error); }
      st := st.(nextLat := c.nextLat.value);
      if c.nextLon.Failure? { return Fail(c.nextLon.error); }
      st := st.(nextLon := c.nextLon.value);
      if ctrl == "ROUTE" && st.nextLat != -1.0 && st.nextLon != -1.0 {
        st := st.(hdg := Bearing(geo, st.lat, st.lon, st.nextLat, st.nextLon));
      } else {
        if c.hdg.Failure? { return Fail(c.hdg.error); }
        st := st.(hdg := c.hdg.value);
      }
      st := st.(mode := Some(ctrl), active := true, simT := 0.0, t0 := Some(now), lastTick := -1);
      out := Pass;
    }

    /**
     * One turn of the loop of `start` at monotonic time `now`: nothing while
     * inactive; otherwise, rebased if need be, either a wait for the next
     * anchored tick or a catch-up to the due tick followed by one sample,
     * which is published, dropped by the validator, or raises. A dropped
     * payload records its tick and the loop goes on.
     */
    method Iterate(now: real, dt: real, normal: Normal, dest: Destination, geo: Geo, fmt: Format,
                   validator: Option<map<string, Json> -> bool>) returns (r: Turn)
      requires Valid() && dt > 0.0
      modifies this, gps
      ensures Valid() && gps.settings == old(gps.settings) && gps.initialised == old(gps.initialised)
      ensures !old(st.active) ==> r == Inactive && st == old(st) && gps.lastT == old(gps.lastT)
      ensures old(st.active) && Due(old(st), now, dt) <= Rebased(old(st), now).lastTick ==>
        var b := Rebased(old(st), now);
        r == Wait(SleepFor(b.t0.value, b.lastTick, now, dt)) && st == b && gps.lastT == old(gps.lastT)
      ensures old(st.active) && Due(old(st), now, dt) > Rebased(old(st), now).lastTick ==>
        var a := Advance(old(st), now, dt, dest);
        r == Drawn(SampleGuard(old(gps.initialised), old(gps.lastT), a.simT), PayloadAt(gps.scenario, gps.settings, a, normal, geo, fmt), validator) &&
        (r.Raised? ==> st == a && gps.lastT == old(gps.lastT)) &&
        (!r.Raised? ==> st == a.(lastTick := Due(old(st), now, dt)) && gps.lastT == Some(a.simT))
    {
      if !st.active {
        return Inactive;
      }
      if st.t0.None? {
        st := st.(t0 := Some(now), lastTick := -1);
      }
      var tick := TickAt(st.t0.value, now, dt);
      if tick <= st.lastTick {
        return Wait(SleepFor(st.t0.value, st.lastTick, now, dt));
      }
      st := CaughtUp(st, tick, dt, dest);
      r := Draw(normal, geo, fmt, validator);
      if !r.Raised? {
        st := st.(lastTick := tick);
      }
    }

    /** `gps.sample` at the simulated time with the publisher as motion provider, then `meas_out` and the validator. */
    method Draw(normal: Normal, geo: Geo, fmt: Format, validator: Option<map<string, Json> -> bool>) returns (r: Turn)
      requires Valid()
      modifies gps
      ensures Valid() && gps.settings == old(gps.settings) && gps.initialised == old(gps.initialised)
      ensures r == Drawn(SampleGuard(old(gps.initialised), old(gps.lastT), st.simT), PayloadAt(gps.scenario, gps.settings, st, normal, geo, fmt), validator)
      ensures r.Raised? ==> gps.lastT == old(gps.lastT)
      ensures !r.Raised? ==> gps.lastT == Some(st.simT)
    {
      var s := gps.Sample(st.simT, Some(ProviderOf(st.lat, st.lon, st.spd, st.hdg)), normal, geo, fmt);
      if s.Failure? {
        return Raised(s.error);
      }
      var payload := MeasOut(s.value);
      if validator.Some? && !validator.value(payload) {
        return Dropped;
      }
      return Published(payload);
    }

    /**
     * `start`: the guard, the period from the publish rate, then the loop
     * over the events it sees, with the noise draws `noise(i)` for the
     * event at position `i`; the payloads published, in order. From an
     * anchored state the loop never raises: no sample it draws runs time
     * backwards or lacks its noise generator.
     */
    method Start(events: seq<Event>, noise: nat -> Normal, dest: Destination, geo: Geo, fmt: Format,
                 validator: Option<map<string, Json> -> bool>, repr: Json -> string)
      returns (published: seq<map<string, Json>>, err: Option<PyError>)
      requires Valid() && Scheduled(Period())
      requires forall i :: 0 <= i < |events| && events[i].Message? ==> NumbersFinite(events[i].payload)
      modifies this, gps
      ensures Valid() && gps.settings == old(gps.settings)
      ensures err == StartGuard(old(gps.initialised))
      ensures err.Some? ==> published == [] && st == old(st)
      ensures |published| <= ClockCount(events)
      ensures forall j :: 0 <= j < |published| ==> Shaped(published[j])
    {
      published := [];
      err := StartGuard(gps.initialised);
      if err.Some? {
        return;
      }
      var dt := Period();
      var i := 0;
      while i < |events|
        invariant 0 <= i <= |events| && Valid() && gps.settings == old(gps.settings)
        invariant dt == Period() && Scheduled(dt)
        invariant |published| <= ClockCount(events[..i])
        invariant forall j :: 0 <= j < |published| ==> Shaped(published[j])
      {
        assert events[..i + 1][..i] == events[..i];
        var t := Handle(events[i], dt, noise(i), dest, geo, fmt, validator, repr);
        if t.Published? {
          published := published + [t.payload];
        }
        i := i + 1;
      }
      assert events[..|events|] == events;
    }

    /** One event of the loop: a control message goes to the handler, a turn of the clock to `Iterate`. */
    method Handle(e: Event, dt: real, normal: Normal, dest: Destination, geo: Geo, fmt: Format,
                  validator: Option<map<string, Json> -> bool>, repr: Json -> string) returns (t: Turn)
      requires Valid() && dt > 0.0 && Scheduled(dt) && (e.Message? ==> NumbersFinite(e.payload))
      modifies this, gps
      ensures Valid() && gps.settings == old(gps.settings) && Scheduled(dt)
      ensures e.Message? ==> t == Inactive
      ensures t.Published? ==> e.Clock? && Shaped(t.payload)
      ensures !t.Raised?
    {
      if e.Message? {
        Receive(e.topic, e.payload, e.at, dt, geo, repr);
        t := Inactive;
      } else {
        t := Tick(e.now, dt, normal, dest, geo, fmt, validator);
      }
    }

    /** A control message, with the anchoring it keeps. */
    method Receive(topic: string, payload: Option<Json>, at: real, dt: real, geo: Geo, repr: Json -> string)
      requires Valid() && dt > 0.0 && Scheduled(dt) && NumbersFinite(payload)
      modifies this, gps
      ensures Valid() && gps.settings == old(gps.settings) && Scheduled(dt)
    {
      ghost var before, wasInit, lastT0 := st, gps.initialised, gps.lastT;
      var _ := OnMessage(topic, payload, at, geo, repr);
      ReactAnchored(before, wasInit, lastT0, dt, topic, payload, at, geo, repr);
    }

    /** A turn of the clock, with the anchoring it keeps: it never raises and publishes only shaped payloads. */
    method Tick(now: real, dt: real, normal: Normal, dest: Destination, geo: Geo, fmt: Format,
                validator: Option<map<string, Json> -> bool>) returns (t: Turn)
      requires Valid() && dt > 0.0 && Scheduled(dt)
      modifies this, gps
      ensures Valid() && gps.settings == old(gps.settings) && Scheduled(dt)
      ensures t.Published? ==> Shaped(t.payload)
      ensures !t.Raised?
    {
      ghost var before, wasInit, lastT0 := st, gps.initialised, gps.lastT;
      t := Iterate(now, dt, normal, dest, geo, fmt, validator);
      if before.active && Due(before, now, dt) > Rebased(before, now).lastTick {
        AdvanceAnchored(before, wasInit, lastT0, now, dt, dest);
      }
    }
  }

  /** A control message keeps the schedule anchored: an engaged run starts at tick -1 with no sample yet. */
  lemma ReactAnchored(st: BridgeState, initialised: bool, lastT: Option<real>, dt: real,
                      topic: string, payload: Option<Json>, now: real, geo: Geo, repr: Json -> string)
    requires NumbersFinite(payload) && Anchored(st, initialised, lastT, dt)
    ensures var r := React(st, topic, payload, now, geo, repr);
      if r.reset then Anchored(r.st, true, None, dt) else Anchored(r.st, initialised, lastT, dt)
  {
    var r := React(st, topic, payload, now, geo, repr);
    ReactClock(st, topic, payload, now, geo, repr);
    var kept := r.st.simT == st.simT && r.st.t0 == st.t0 && r.st.lastTick == st.lastTick;
    if !r.reset {
      AnchoredKept(st, r.st, initialised, initialised, lastT, lastT, dt);
    } else if kept && r.st.active == st.active {
      AnchoredKept(st, r.st, initialised, true, lastT, None, dt);
    } else {
      AnchoredFresh(r.st, dt);
    }
  }

  /** A run that keeps its schedule, and can only end, stays anchored; forgetting the last sample keeps it so. */
  lemma AnchoredKept(st: BridgeState, st': BridgeState, initialised: bool, initialised': bool,
                     lastT: Option<real>, lastT': Option<real>, dt: real)
    requires Anchored(st, initialised, lastT, dt)
    requires st'.simT == st.simT && st'.t0 == st.t0 && st'.lastTick == st.lastTick && (st'.active ==> st.active)
    requires (initialised' && lastT'.None?) || (initialised' == initialised && lastT' == lastT)
    ensures Anchored(st', initialised', lastT', dt)
  {
  }

  /** A run restarted at tick -1 with no sample yet is anchored. */
  lemma AnchoredFresh(st: BridgeState, dt: real)
    requires st.active ==> st.t0.Some? && st.simT == 0.0 && st.lastTick == -1
    ensures Anchored(st, true, None, dt)
  {
    if st.active {
      assert (st.lastTick + 1) as real * dt == 0.0;
    }
  }

  /**
   * What a control message does to the schedule: a reset either leaves the
   * run's activity and schedule as they were or restarts it at tick -1 from
   * `now`; anything else keeps the schedule and can only end the run.
   */
  lemma ReactClock(st: BridgeState, topic: string, payload: Option<Json>, now: real, geo: Geo, repr: Json -> string)
    requires NumbersFinite(payload)
    ensures var r := React(st, topic, payload, now, geo, repr);
      var kept := r.st.simT == st.simT && r.st.t0 == st.t0 && r.st.lastTick == st.lastTick;
      (r.reset ==> (kept && r.st.active == st.active) ||
                   (r.st.active && r.st.simT == 0.0 && r.st.t0 == Some(now) && r.st.lastTick == -1)) &&
      (!r.reset ==> kept && (r.st.active ==> st.active))
  {
    if topic == ControlTopic && payload.Some? && payload.value.JObj? {
      var data := payload.value.fields;
      var ctrl := ControlWord(data, repr);
      if ctrl != "STOP" && (ctrl == "VECTOR" || ctrl == "ROUTE") {
        EngageKeepsClock(st, ctrl, Convert(data), now, geo);
      }
    }
  }

  /** A failed engagement leaves the run's activity and schedule as they were; a successful one anchors it afresh. */
  lemma EngageKeepsClock(st: BridgeState, ctrl: string, c: Conversions, now: real, geo: Geo)
    ensures var (st', out) := Engage(st, ctrl, c, now, geo);
      (out.Fail? ==>
        st'.active == st.active && st'.mode == st.mode && st'.simT == st.simT && st'.t0 == st.t0 && st'.lastTick == st.lastTick) &&
      (out.Pass? ==>
        st'.active && st'.mode == Some(ctrl) && st'.simT == 0.0 && st'.t0 == Some(now) && st'.lastTick == -1)
  {
  }

  /**
   * Catching up keeps the schedule anchored: the tick recorded is later
   * than the last one, the simulated time is one period past it, and the
   * sample drawn at that time passes the receiver's guards.
   */
  lemma AdvanceAnchored(st: BridgeState, initialised: bool, lastT: Option<real>, now: real, dt: real, dest: Destination)
    requires dt > 0.0 && Anchored(st, initialised, lastT, dt) && st.active && Due(st, now, dt) > st.lastTick
    ensures var a := Advance(st, now, dt, dest); var k := Due(st, now, dt);
      SampleGuard(initialised, lastT, a.simT).None? && st.simT < a.simT &&
      Anchored(a.(lastTick := k), initialised, Some(a.simT), dt)
  {
    var a := Advance(st, now, dt, dest);
    var k := Due(st, now, dt);
    var gap := k - st.lastTick;
    assert Rebased(st, now) == st;
    assert a.simT == st.simT + dt * gap as real;
    assert dt * gap as real > 0.0;
    calc {
      a.simT;
      (st.lastTick + 1) as real * dt + dt * gap as real;
      (st.lastTick + 1 + gap) as real * dt;
      (k + 1) as real * dt;
    }
  }

  /**
   * The published heading is the commanded one: the provider reports the
   * publisher's heading as the course, and the measurement copies the
   * course unchanged, whatever the noise.
   */
  lemma HeadingIsCommanded(sc: Scenarios.Scenario, s: GpsSettings.Settings, t: real, lat: real, lon: real, spd: real, hdg: real,
                           normal: Normal, geo: Geo, fmt: Format)
    requires |sc.points| > 0
    ensures var p := MeasOut(ReadingAt(sc, s, t, Some(ProviderOf(lat, lon, spd, hdg)), normal, geo, fmt));
      p["cog"] == JFloat(hdg) && p["heading"] == JFloat(hdg)
  {
    var truth := Truth(sc, s, t, Some(ProviderOf(lat, lon, spd, hdg)));
    assert truth.courseDeg == hdg;
    MeasureNoise(s, truth, normal, geo);
  }

  /** While the next tick is not due, the loop sleeps for a positive time of at most one period: it never spins. */
  lemma WaitSleeps(t0: real, lastTick: int, now: real, dt: real)
    requires dt > 0.0 && now >= t0 && TickAt(t0, now, dt) <= lastTick
    ensures 0.0 < SleepFor(t0, lastTick, now, dt) <= dt
  {
    var k := TickAt(t0, now, dt);
    ScaleWeak((k + 1) as real, (lastTick + 1) as real, dt);
  }

  lemma ScaleWeak(a: real, b: real, m: real)
    requires a <= b && m > 0.0
    ensures a * m <= b * m
  {
  }

  /** Messages on other topics, payloads that do not decode and unknown verbs change nothing and raise nothing. */
  lemma Ignored(st: BridgeState, topic: string, payload: Option<Json>, now: real, geo: Geo, repr: Json -> string)
    requires NumbersFinite(payload)
    requires topic != ControlTopic || payload.None? ||
      (payload.value.JObj? && ControlWord(payload.value.fields, repr) !in {"STOP", "VECTOR", "ROUTE"})
    ensures React(st, topic, payload, now, geo, repr) == Reaction(st, Pass, false)
  {
  }

  /** STOP, in any case of letters, only ends the run. */
  lemma StopEnds(st: BridgeState, payload: Option<Json>, now: real, geo: Geo, repr: Json -> string)
    requires NumbersFinite(payload) && payload.Some? && payload.value.JObj?
    requires ControlWord(payload.value.fields, repr) == "STOP"
    ensures React(st, ControlTopic, payload, now, geo, repr) == Reaction(st.(active := false), Pass, false)
  {
  }

  /** A payload that is not an object raises AttributeError and changes nothing. */
  lemma NotAnObject(st: BridgeState, payload: Json, now: real, geo: Geo, repr: Json -> string)
    requires !payload.JObj?
    ensures React(st, ControlTopic, Some(payload), now, geo, repr) == Reaction(st, Fail(AttributeError), false)
  {
  }

  /**
   * A VECTOR or ROUTE whose conversions all succeed engages the run: each
   * coordinate is its converted field, the heading is the bearing to the
   * next point for a ROUTE that names one and the converted `hdg`
   * otherwise, and the schedule is anchored at `now`.
   */
  lemma Engaged(st: BridgeState, ctrl: string, c: Conversions, now: real, geo: Geo)
    requires Engage(st, ctrl, c, now, geo).1 == Pass
    ensures var st' := Engage(st, ctrl, c, now, geo).0;
      c.lat == Success(st'.lat) && c.lon == Success(st'.lon) && c.spd == Success(st'.spd) &&
      c.nextLat == Success(st'.nextLat) && c.nextLon == Success(st'.nextLon) &&
      (ctrl == "ROUTE" && st'.nextLat != -1.0 && st'.nextLon != -1.0 ==>
        st'.hdg == Bearing(geo, st'.lat, st'.lon, st'.nextLat, st'.nextLon) && 0.0 <= st'.hdg < 360.0) &&
      (!(ctrl == "ROUTE" && st'.nextLat != -1.0 && st'.nextLon != -1.0) ==> c.hdg == Success(st'.hdg)) &&
      st'.active && st'.mode == Some(ctrl) && st'.simT == 0.0 && st'.t0 == Some(now) && st'.lastTick == -1
  {
  }

  /** The conversions of a command with none of the fields: the defaults. */
  const DefaultConversions := Conversions(Success(0.0), Success(0.0), Success(0.0), Success(-1.0), Success(-1.0), Success(0.0))

  /** A command without the numeric fields converts to the defaults. */
  lemma ConvertDefaults(data: map<string, Json>)
    requires forall k :: k in NumericKeys ==> k !in data
    ensures Convert(data) == DefaultConversions
  {
    assert "lat" in NumericKeys && "lon" in NumericKeys && "spd" in NumericKeys;
    assert "next_lat" in NumericKeys && "next_lon" in NumericKeys && "hdg" in NumericKeys;
  }

  /** The defaults engage a run at the origin, at speed 0, with no next point and heading 0, even for ROUTE. */
  lemma EngagedDefaults(st: BridgeState, ctrl: string, now: real, geo: Geo)
    ensures Engage(st, ctrl, DefaultConversions, now, geo) ==
      (st.(lat := 0.0, lon := 0.0, spd := 0.0, nextLat := -1.0, nextLon := -1.0, hdg := 0.0,
           mode := Some(ctrl), active := true, simT := 0.0, t0 := Some(now), lastTick := -1), Pass)
  {
  }

  /** Stores happen in order: a speed that does not convert leaves the new position stored and the run as it was. */
  lemma PartialUpdate(st: BridgeState, ctrl: string, c: Conversions, now: real, geo: Geo)
    requires c.lat.Success? && c.lon.Success? && c.spd.Failure?
    ensures Engage(st, ctrl, c, now, geo) == (st.(lat := c.lat.value, lon := c.lon.value), Fail(c.spd.error))
  {
  }

  /** With a valid receiver the publish rate is the configured one: the fallbacks never apply. */
  lemma ConfiguredRate(s: GpsSettings.Settings)
    requires GpsSettings.Valid(s)
    ensures PublishRate(s.publishRateHz, s.updateRateHz) == s.publishRateHz
  {
  }

  /** The constructor's state is anchored for any period. */
  lemma InitialAnchored(initialised: bool, lastT: Option<real>, dt: real)
    ensures Anchored(Initial, initialised, lastT, dt)
  {
  }

  /** As written, the guard of `start` never fires: every receiver has `_rng`, set to None by its constructor. */
  lemma GuardNeverFires()
    ensures StartGuardAsWritten(ReceiverAttributes).None?
    ensures StartGuard(false) == Some(RuntimeError)
  {
  }

  /** As written, a payload the validator rejects raises AttributeError: the publisher never assigns `_t_next`. */
  lemma RejectRaises(lastTick: int)
    ensures RejectAsWritten(PublisherAttributes, lastTick) == Failure(AttributeError)
  {
  }
}
