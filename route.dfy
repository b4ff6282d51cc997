// `ScenarioRoute` of simulators/route.py: a route loaded from a scenario
// file, cut into timed segments with a floored speed, looked up by time for
// the GPS simulator, and the sea-state table that drives the wave motion.

module RouteSim {
  import opened Wrappers
  import opened Json
  import opened Text
  import opened Geodesy
  import PyMath

  /** Metres per second to knots. */
  const MsToKnots: real := 1.0 / 0.514444

  /** The least speed a segment is given, so that no duration divides by zero. */
  const MinSpeed: real := 0.000001

  /** The least span `position` divides by. */
  const MinSpan: real := 0.000000001

  /** One entry of the scenario's "points": latitude, longitude and the "speed" entry when present. */
  datatype PointEntry = PointEntry(lat: real, lon: real, speed: Option<real>)

  /** `WayPoint`: position in degrees and the speed in m/s held until the next one. */
  datatype WayPoint = WayPoint(lat: real, lon: real, speed: real)

  /** One entry of `segments`: its end points, floored speed, bearing, and entry and exit times. */
  datatype Segment = Segment(p0: WayPoint, p1: WayPoint, speed: real, bearing: real, t0: real, t1: real)

  /** The wave configuration of one sea state. */
  datatype WaveConfig = WaveConfig(amp: real, freq: real, spikeProb: real, spikeAmp: real)

  /** The decoded scenario file: its "wave_state" entry when present, and its "points" (absent reads as empty). */
  datatype RouteData = RouteData(waveState: Option<Json>, points: seq<PointEntry>)

  /** The "wave_state" entry, "calm" when absent. */
  function WaveEntry(data: RouteData): Json {
    if data.waveState.Some? then data.waveState.value else JStr("calm")
  }

  /** A constructed route. */
  datatype Route = Route(waveState: string, points: seq<WayPoint>, segments: seq<Segment>, totalTime: real, waveCfg: WaveConfig)

  const Calm := WaveConfig(0.5, 0.2, 0.0, 0.0)

  /** The sea-state table of `_wave_config`. */
  const WaveConfigs: map<string, WaveConfig> := map[
    "none" := WaveConfig(0.0, 0.0, 0.0, 0.0),
    "calm" := Calm,
    "choppy" := WaveConfig(10.0, 0.5, 0.01, 5.0),
    "moderate" := WaveConfig(15.0, 0.5, 0.02, 10.0),
    "rough" := WaveConfig(27.5, 0.7, 0.05, 15.0),
    "storm" := WaveConfig(45.0, 1.0, 0.1, 25.0)]

  /** `_wave_config`: the configuration of the lowercased state name, or the calm one for an unknown name. */
  function WaveConfigOf(state: string): (w: WaveConfig)
    ensures Lower(state) in WaveConfigs ==> w == WaveConfigs[Lower(state)]
    ensures Lower(state) !in WaveConfigs ==> w == Calm
  {
    var key := Lower(state);
    if key in WaveConfigs then WaveConfigs[key] else Calm
  }

  lemma {:induction false} LowerIdempotent(s: string)
    ensures Lower(Lower(s)) == Lower(s)
  {
    forall i | 0 <= i < |s|
      ensures Lower(Lower(s))[i] == Lower(s)[i]
    {
      var c := s[i];
      assert Lower(s)[i] == LowerChar(c);
    }
  }

  /** The lookup ignores case: a name and its lowercase form select the same configuration. */
  lemma WaveCaseInsensitive(state: string)
    ensures WaveConfigOf(state) == WaveConfigOf(Lower(state))
  {
    LowerIdempotent(state);
  }

  /** The speed used for a segment: the waypoint's speed floored at `MinSpeed`. */
  function SegmentSpeed(p: WayPoint): (r: real)
    ensures r >= MinSpeed && r >= p.speed
    ensures p.speed >= MinSpeed ==> r == p.speed
  {
    PyMath.Max(p.speed, MinSpeed)
  }

  /** The segment from `p0` to `p1` entered at time `t`. */
  function RouteLeg(geo: Geo, p0: WayPoint, p1: WayPoint, t: real): Segment {
    var spd := SegmentSpeed(p0);
    Segment(p0, p1, spd, Bearing(geo, p0.lat, p0.lon, p1.lat, p1.lon), t, t + geo.distance(p0.lat, p0.lon, p1.lat, p1.lon) / spd)
  }

  /** When segment `i` is entered: 0 for the first, the previous exit otherwise. */
  function Entry(segs: seq<Segment>, i: nat): real
    requires i <= |segs|
  {
    if i == 0 then 0.0 else segs[i - 1].t1
  }

  /** What the constructor's loop leaves behind: one segment per consecutive pair, each entered when the previous one is left. */
  predicate Built(geo: Geo, points: seq<WayPoint>, segments: seq<Segment>, totalTime: real) {
    |points| > 0 && |segments| == |points| - 1 &&
    (forall i :: 0 <= i < |segments| ==> segments[i] == RouteLeg(geo, points[i], points[i + 1], Entry(segments, i))) &&
    totalTime == Entry(segments, |segments|)
  }

  /** A scenario point as a waypoint: a missing speed reads as 0. */
  function ToWayPoint(p: PointEntry): (w: WayPoint)
    ensures w.lat == p.lat && w.lon == p.lon
    ensures w.speed == if p.speed.Some? then p.speed.value else 0.0
  {
    WayPoint(p.lat, p.lon, if p.speed.Some? then p.speed.value else 0.0)
  }

  /**
   * `ScenarioRoute.__init__` on the decoded file: lowercase the wave state
   * (`str` of the entry, "calm" when absent), refuse an empty point list with
   * ValueError, then build the segments and pick the wave configuration.
   * `repr` is Python's `str` on values that are not strings.
   */
  method Open(data: RouteData, geo: Geo, repr: Json -> string) returns (r: Result<Route>)
    ensures r.Failure? <==> data.points == []
    ensures r.Failure? ==> r.error == ValueError
    ensures r.Success? ==>
      var route := r.value;
      route.waveState == Lower(PyStr(WaveEntry(data), repr)) &&
      |route.points| == |data.points| &&
      (forall i :: 0 <= i < |data.points| ==> route.points[i] == ToWayPoint(data.points[i])) &&
      Built(geo, route.points, route.segments, route.totalTime) &&
      route.waveCfg == WaveConfigOf(route.waveState)
  {
    var waveState := Lower(PyStr(WaveEntry(data), repr));
    if data.points == [] {
      return Failure(ValueError);
    }
    var points := seq(|data.points|, i requires 0 <= i < |data.points| => ToWayPoint(data.points[i]));
    var segments := [];
    var t := 0.0;
    for i := 0 to |points| - 1
      invariant |segments| == i
      invariant forall j :: 0 <= j < i ==> segments[j] == RouteLeg(geo, points[j], points[j + 1], Entry(segments, j))
      invariant t == Entry(segments, i)
    {
      var p0, p1 := points[i], points[i + 1];
      var dist := geo.distance(p0.lat, p0.lon, p1.lat, p1.lon);
      var spd := SegmentSpeed(p0);
      var dur := dist / spd;
      var seg := Segment(p0, p1, spd, Bearing(geo, p0.lat, p0.lon, p1.lat, p1.lon), t, t + dur);
      segments := segments + [seg];
      t := t + dur;
    }
    r := Success(Route(waveState, points, segments, t, WaveConfigOf(waveState)));
  }

  /** Every segment lasts a non-negative time, since its speed is at least `MinSpeed`. */
  lemma LegNonNegative(geo: Geo, p0: WayPoint, p1: WayPoint, t: real)
    requires DistanceNonNegative(geo)
    ensures RouteLeg(geo, p0, p1, t).t0 == t <= RouteLeg(geo, p0, p1, t).t1
  {
    var d := geo.distance(p0.lat, p0.lon, p1.lat, p1.lon);
    assert d >= 0.0;
    assert d / SegmentSpeed(p0) >= 0.0;
  }

  /**
   * The timeline: the first segment is entered at 0, each is entered when the
   * previous one is left, each lasts a non-negative time, and the total is
   * the last exit (0 for a single point).
   */
  lemma Timeline(geo: Geo, points: seq<WayPoint>, segs: seq<Segment>, total: real)
    requires DistanceNonNegative(geo) && Built(geo, points, segs, total)
    ensures segs != [] ==> segs[0].t0 == 0.0 && total == segs[|segs| - 1].t1
    ensures segs == [] <==> |points| == 1
    ensures segs == [] ==> total == 0.0
    ensures forall i :: 0 < i < |segs| ==> segs[i].t0 == segs[i - 1].t1
    ensures forall i :: 0 <= i < |segs| ==> segs[i].t0 <= segs[i].t1
  {
    forall i | 0 <= i < |segs|
      ensures segs[i].t0 == Entry(segs, i) <= segs[i].t1
    {
      assert segs[i] == RouteLeg(geo, points[i], points[i + 1], Entry(segs, i));
      LegNonNegative(geo, points[i], points[i + 1], Entry(segs, i));
    }
  }

  /** The index of the first segment with `t0 <= t < t1`, or `|segs|` when there is none. */
  function FirstContaining(segs: seq<Segment>, t: real): (k: nat)
    ensures k <= |segs|
    ensures k < |segs| ==> segs[k].t0 <= t < segs[k].t1
    ensures forall j :: 0 <= j < k ==> !(segs[j].t0 <= t < segs[j].t1)
  {
    if segs == [] then 0
    else if segs[0].t0 <= t < segs[0].t1 then 0
    else 1 + FirstContaining(segs[1..], t)
  }

  /**
   * `_segment_at`: ValueError without segments; the last segment from the
   * total time on; otherwise the first segment holding `t`, and the last one
   * when none does.
   */
  function SegmentAt(route: Route, t: real): (r: Result<nat>)
    ensures r.Failure? <==> route.segments == []
    ensures r.Failure? ==> r.error == ValueError
    ensures r.Success? ==> r.value < |route.segments|
    ensures r.Success? && t >= route.totalTime ==> r.value == |route.segments| - 1
    ensures r.Success? && t < route.totalTime && FirstContaining(route.segments, t) < |route.segments| ==>
      r.value == FirstContaining(route.segments, t)
    ensures r.Success? && t < route.totalTime && FirstContaining(route.segments, t) == |route.segments| ==>
      r.value == |route.segments| - 1
  {
    if route.segments == [] then Failure(ValueError)
    else if t >= route.totalTime then Success(|route.segments| - 1)
    else
      var k := FirstContaining(route.segments, t);
      if k < |route.segments| then Success(k) else Success(|route.segments| - 1)
  }

  /** Between 0 and the total time, the segment found is the one whose span holds `t`. */
  lemma SegmentLookup(geo: Geo, route: Route, t: real)
    requires DistanceNonNegative(geo) && Built(geo, route.points, route.segments, route.totalTime)
    requires route.segments != [] && 0.0 <= t < route.totalTime
    ensures SegmentAt(route, t).Success?
    ensures var k := SegmentAt(route, t).value; route.segments[k].t0 <= t < route.segments[k].t1
  {
    var segs := route.segments;
    Timeline(geo, route.points, segs, route.totalTime);
    var j := Holder(segs, t, |segs| - 1);
    assert FirstContaining(segs, t) <= j;
  }

  /** Some segment up to `n` holds `t` when the segments are contiguous from 0 and `t` is before the exit of `n`. */
  lemma {:induction false} Holder(segs: seq<Segment>, t: real, n: nat) returns (j: nat)
    requires n < |segs| && segs[0].t0 == 0.0 <= t < segs[n].t1
    requires forall i :: 0 < i < |segs| ==> segs[i].t0 == segs[i - 1].t1
    ensures j <= n && segs[j].t0 <= t < segs[j].t1
  {
    if n == 0 || t >= segs[n - 1].t1 {
      j := n;
    } else {
      j := Holder(segs, t, n - 1);
    }
  }

  /** `position(t)`: (lat, lon, speed in m/s, course in degrees). */
  function Position(route: Route, t: real): (r: Result<(real, real, real, real)>)
    ensures r.Failure? <==> route.segments == []
    ensures r.Failure? ==> r.error == ValueError
  {
    match SegmentAt(route, t)
    case Failure(e) => Failure(e)
    case Success(k) =>
      var seg := route.segments[k];
      if t >= seg.t1 then Success((seg.p1.lat, seg.p1.lon, 0.0, seg.bearing))
      else
        var frac := Frac(seg, t);
        Success((seg.p0.lat + frac * (seg.p1.lat - seg.p0.lat), seg.p0.lon + frac * (seg.p1.lon - seg.p0.lon), seg.speed, seg.bearing))
  }

  /** How far along `seg` time `t` is, the span floored at `MinSpan`. */
  function Frac(seg: Segment, t: real): real {
    (t - seg.t0) / PyMath.Max(seg.t1 - seg.t0, MinSpan)
  }

  /** At or past the exit of the segment found, `position` rests at its end point with speed 0 and the segment's bearing. */
  lemma PositionAtExit(route: Route, t: real, k: nat)
    requires SegmentAt(route, t) == Success(k)
    requires t >= route.segments[k].t1
    ensures var seg := route.segments[k];
      Position(route, t) == Success((seg.p1.lat, seg.p1.lon, 0.0, seg.bearing))
  {
  }

  /** Inside the segment found, `position` moves along it at its speed and bearing, a fraction in [0, 1) of the way. */
  lemma PositionInside(route: Route, t: real, k: nat)
    requires SegmentAt(route, t) == Success(k)
    requires route.segments[k].t0 <= t < route.segments[k].t1
    ensures 0.0 <= Frac(route.segments[k], t) < 1.0
    ensures Position(route, t).Success?
    ensures var seg := route.segments[k]; var f := Frac(seg, t);
      Position(route, t).value.0 == seg.p0.lat + f * (seg.p1.lat - seg.p0.lat) &&
      Position(route, t).value.1 == seg.p0.lon + f * (seg.p1.lon - seg.p0.lon)
    ensures Position(route, t).value.2 == route.segments[k].speed && Position(route, t).value.3 == route.segments[k].bearing
  {
    var seg := route.segments[k];
    var span := PyMath.Max(seg.t1 - seg.t0, MinSpan);
    assert 0.0 <= t - seg.t0 < span;
    FractionBelowOne(t - seg.t0, span);
    var f := Frac(seg, t);
    assert f == (t - seg.t0) / span;
    assert Position(route, t).Success?;
    assert Position(route, t).value.2 == seg.speed && Position(route, t).value.3 == seg.bearing;
    assert Position(route, t).value.0 == seg.p0.lat + f * (seg.p1.lat - seg.p0.lat);
    assert Position(route, t).value.1 == seg.p0.lon + f * (seg.p1.lon - seg.p0.lon);
  }

  lemma FractionBelowOne(a: real, b: real)
    requires 0.0 <= a < b
    ensures 0.0 <= a / b < 1.0
  {
  }

  /** At the entry time of the segment found, the position is its first point. */
  lemma PositionAtEntry(route: Route, t: real, k: nat)
    requires SegmentAt(route, t) == Success(k)
    requires route.segments[k].t0 == t < route.segments[k].t1
    ensures var seg := route.segments[k];
      Position(route, t) == Success((seg.p0.lat, seg.p0.lon, seg.speed, seg.bearing))
  {
    var seg := route.segments[k];
    var f := Frac(seg, t);
    assert f == 0.0;
    assert f * (seg.p1.lat - seg.p0.lat) == 0.0 && f * (seg.p1.lon - seg.p0.lon) == 0.0;
    assert Position(route, t).value.0 == seg.p0.lat + f * (seg.p1.lat - seg.p0.lat);
    assert Position(route, t).value.1 == seg.p0.lon + f * (seg.p1.lon - seg.p0.lon);
  }

  /** `gps_motion(t)`: (lat, lon, altitude 0, speed in knots, course, climb 0). */
  function GpsMotion(route: Route, t: real): (r: Result<(real, real, real, real, real, real)>)
    ensures r.Failure? <==> Position(route, t).Failure?
    ensures r.Success? ==>
      var (lat, lon, spd, brg) := Position(route, t).value;
      r.value == (lat, lon, 0.0, spd * MsToKnots, brg, 0.0)
  {
    match Position(route, t)
    case Failure(e) => Failure(e)
    case Success((lat, lon, spd, brg)) => Success((lat, lon, 0.0, spd * MsToKnots, brg, 0.0))
  }
}
