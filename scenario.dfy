// `Scenario` of simulators/scenarios/route.py: a route of waypoints loaded
// from a JSON file, cut into timed segments, and looked up by time.

module Scenarios {
  import opened Wrappers
  import opened Json
  import opened Geodesy

  /** A waypoint: position in degrees and the speed in m/s held until the next one. */
  datatype Waypoint = Waypoint(lat: real, lon: real, speed: real)

  /** The tuple `(start, end, p0, p1, speed, bearing)` of one leg. */
  datatype Segment = Segment(start: real, end: real, p0: Waypoint, p1: Waypoint, speed: real, bearing: real)

  /** The decoded scenario file: its "wave_state" entry when present, and its "points". */
  datatype ScenarioData = ScenarioData(waveState: Option<Json>, points: seq<Waypoint>)

  /** A loaded scenario. */
  datatype Scenario = Scenario(waveState: Json, points: seq<Waypoint>, segments: seq<Segment>, totalTime: real)

  /** The single waypoint used when the file is missing or has no points. */
  const Origin := Waypoint(0.0, 0.0, 0.0)

  /** The duration of a leg: distance over speed, or 0 when the speed is not positive. */
  function Duration(geo: Geo, p0: Waypoint, p1: Waypoint): real {
    if p0.speed > 0.0 then geo.distance(p0.lat, p0.lon, p1.lat, p1.lon) / p0.speed else 0.0
  }

  /** The leg from `p0` to `p1` entered at time `t`. */
  function Leg(geo: Geo, p0: Waypoint, p1: Waypoint, t: real): (s: Segment)
    ensures s.start == t && s.p0 == p0 && s.p1 == p1 && s.speed == p0.speed
    ensures p0.speed <= 0.0 ==> s.end == t
    ensures 0.0 <= s.bearing < 360.0
  {
    Segment(t, t + Duration(geo, p0, p1), p0, p1, p0.speed, Bearing(geo, p0.lat, p0.lon, p1.lat, p1.lon))
  }

  /** When the leg at index `i` of `segs` is entered: 0 for the first, the previous end otherwise. */
  function EntryTime(segs: seq<Segment>, i: nat): real
    requires i <= |segs|
  {
    if i == 0 then 0.0 else segs[i - 1].end
  }

  /**
   * What `_build_segments` leaves behind: one leg per consecutive pair of
   * points, each entered when the previous one ends, and the total time the
   * end of the last leg (0 with a single point).
   */
  predicate Built(geo: Geo, points: seq<Waypoint>, segments: seq<Segment>, totalTime: real) {
    |points| > 0 && |segments| == |points| - 1 &&
    (forall i :: 0 <= i < |segments| ==> segments[i] == Leg(geo, points[i], points[i + 1], EntryTime(segments, i))) &&
    totalTime == EntryTime(segments, |segments|)
  }

  /** `Scenario.__init__`: read the file (None when it does not exist), then build the segments. */
  method Load(data: Option<ScenarioData>, geo: Geo) returns (s: Scenario)
    ensures s.points == if data.Some? && |data.value.points| > 0 then data.value.points else [Origin]
    ensures s.waveState == if data.Some? && data.value.waveState.Some? then data.value.waveState.value else JStr("calm")
    ensures Built(geo, s.points, s.segments, s.totalTime)
  {
    var wave := JStr("calm");
    var points := [Origin];
    if data.Some? {
      if data.value.waveState.Some? {
        wave := data.value.waveState.value;
      }
      if |data.value.points| > 0 {
        points := data.value.points;
      }
    }
    var segments, total := BuildSegments(points, geo);
    s := Scenario(wave, points, segments, total);
  }

  /** `_build_segments`: one pass over consecutive pairs, accumulating the entry time. */
  method BuildSegments(points: seq<Waypoint>, geo: Geo) returns (segments: seq<Segment>, totalTime: real)
    requires |points| > 0
    ensures Built(geo, points, segments, totalTime)
  {
    segments := [];
    var t := 0.0;
    var i := 0;
    while i < |points| - 1
      invariant 0 <= i <= |points| - 1 && |segments| == i
      invariant forall j :: 0 <= j < i ==> segments[j] == Leg(geo, points[j], points[j + 1], EntryTime(segments, j))
      invariant t == EntryTime(segments, i)
    {
      var seg := Leg(geo, points[i], points[i + 1], t);
      segments := segments + [seg];
      t := seg.end;
      i := i + 1;
    }
    totalTime := t;
  }

  /** The index of the first leg that ends at or after `t`, or `|segs|` when there is none. */
  function FirstEnding(segs: seq<Segment>, t: real): (k: nat)
    ensures k <= |segs|
    ensures k < |segs| ==> t <= segs[k].end
    ensures forall j :: 0 <= j < k ==> segs[j].end < t
  {
    if segs == [] then 0
    else if t <= segs[0].end then 0
    else 1 + FirstEnding(segs[1..], t)
  }

  /** How far along leg `s` time `t` is: 0 for a leg of no duration. */
  function Fraction(s: Segment, t: real): real {
    if s.end - s.start <= 0.0 then 0.0 else (t - s.start) / (s.end - s.start)
  }

  /** `state_at(t)`: (lat, lon, speed in m/s, heading in degrees). */
  function StateAt(s: Scenario, t: real): (real, real, real, real)
    requires |s.points| > 0
  {
    if s.segments == [] then
      (s.points[0].lat, s.points[0].lon, 0.0, 0.0)
    else
      var k := FirstEnding(s.segments, t);
      if k < |s.segments| then
        var seg := s.segments[k];
        var f := Fraction(seg, t);
        (seg.p0.lat + (seg.p1.lat - seg.p0.lat) * f, seg.p0.lon + (seg.p1.lon - seg.p0.lon) * f, seg.speed, seg.bearing)
      else
        var last := s.segments[|s.segments| - 1];
        (last.p1.lat, last.p1.lon, 0.0, last.bearing)
  }

  /** The speed of a waypoint used as a divisor is positive, so no leg lasts a negative time. */
  lemma LegNonNegative(geo: Geo, p0: Waypoint, p1: Waypoint)
    requires DistanceNonNegative(geo)
    ensures Duration(geo, p0, p1) >= 0.0
  {
    if p0.speed > 0.0 {
      var d := geo.distance(p0.lat, p0.lon, p1.lat, p1.lon);
      assert d >= 0.0;
      assert d / p0.speed >= 0.0;
    }
  }

  /**
   * Legs are contiguous from time 0, and with non-negative distances their
   * entry times never decrease and the total time is at least every end.
   */
  lemma {:induction false} EntriesOrdered(geo: Geo, points: seq<Waypoint>, segments: seq<Segment>, total: real, i: nat, j: nat)
    requires DistanceNonNegative(geo) && Built(geo, points, segments, total)
    requires i <= j <= |segments|
    ensures EntryTime(segments, i) <= EntryTime(segments, j)
    decreases j - i
  {
    if i < j {
      EntriesOrdered(geo, points, segments, total, i, j - 1);
      LegNonNegative(geo, points[j - 1], points[j]);
      assert segments[j - 1] == Leg(geo, points[j - 1], points[j], EntryTime(segments, j - 1));
    }
  }

  /** A missing file or an empty point list: one waypoint at the origin, no legs, and `state_at` is always (0, 0, 0, 0). */
  lemma DefaultScenario(geo: Geo, s: Scenario, t: real)
    requires s.points == [Origin] && Built(geo, s.points, s.segments, s.totalTime)
    ensures s.segments == [] && s.totalTime == 0.0
    ensures StateAt(s, t) == (0.0, 0.0, 0.0, 0.0)
  {
  }

  /** At the end of the first leg ending at or after `t`, a leg of positive duration yields its end point. */
  lemma AtLegEnd(s: Scenario, t: real)
    requires |s.points| > 0 && s.segments != []
    requires var k := FirstEnding(s.segments, t);
      k < |s.segments| && t == s.segments[k].end && s.segments[k].start < s.segments[k].end
    ensures var seg := s.segments[FirstEnding(s.segments, t)]; var r := StateAt(s, t);
      r.0 == seg.p1.lat && r.1 == seg.p1.lon && r.2 == seg.speed && r.3 == seg.bearing
  {
    var k := FirstEnding(s.segments, t);
    var seg := s.segments[k];
    var d := seg.end - seg.start;
    assert d > 0.0 && t - seg.start == d;
    var f := Fraction(seg, t);
    SelfDivide(d);
    assert f == 1.0;
    var r := StateAt(s, t);
    assert r.0 == seg.p0.lat + (seg.p1.lat - seg.p0.lat) * f;
    assert r.1 == seg.p0.lon + (seg.p1.lon - seg.p0.lon) * f;
    assert r.0 == seg.p1.lat && r.1 == seg.p1.lon;
    assert r.2 == seg.speed && r.3 == seg.bearing;
  }

  lemma SelfDivide(d: real)
    requires d > 0.0
    ensures d / d == 1.0
  {
  }

  /** Within the leg found, the fraction covered lies in [0, 1]. */
  lemma FractionRange(s: Scenario, t: real)
    requires |s.points| > 0 && s.segments != []
    requires var k := FirstEnding(s.segments, t); k < |s.segments| && s.segments[k].start <= t
    ensures 0.0 <= Fraction(s.segments[FirstEnding(s.segments, t)], t) <= 1.0
  {
    var seg := s.segments[FirstEnding(s.segments, t)];
    if seg.end - seg.start > 0.0 {
      DivideWithin(t - seg.start, seg.end - seg.start);
    }
  }

  lemma DivideWithin(a: real, b: real)
    requires b > 0.0 && 0.0 <= a <= b
    ensures 0.0 <= a / b <= 1.0
  {
  }

  /** Past the last end, the boat rests at the last waypoint with speed 0 and the last leg's bearing. */
  lemma PastTheEnd(geo: Geo, s: Scenario, t: real)
    requires DistanceNonNegative(geo) && Built(geo, s.points, s.segments, s.totalTime)
    requires s.segments != [] && t > s.totalTime
    ensures var last := s.segments[|s.segments| - 1];
      StateAt(s, t) == (last.p1.lat, last.p1.lon, 0.0, last.bearing)
  {
    var n := |s.segments|;
    forall j | 0 <= j < n
      ensures s.segments[j].end < t
    {
      EntriesOrdered(geo, s.points, s.segments, s.totalTime, j + 1, n);
    }
    NoneEnding(s.segments, t);
  }

  lemma {:induction false} NoneEnding(segs: seq<Segment>, t: real)
    requires forall j :: 0 <= j < |segs| ==> segs[j].end < t
    ensures FirstEnding(segs, t) == |segs|
  {
    if segs != [] {
      NoneEnding(segs[1..], t);
    }
  }
}
