// simulators/scenarios/utils.py: the sea-state table, linear interpolation
// between waypoints, and the generator of boat states along a route.

module ScenarioUtils {
  import opened Wrappers
  import opened Geodesy
  import PyMath

  /** A route point as the scenario file holds it: "lat", "lon" (degrees) and "speed" (m/s). */
  datatype Point = Point(lat: real, lon: real, speed: real)

  /** A sea state: roll/pitch amplitude in degrees and frequency in Hz. */
  datatype Wave = Wave(amp: real, freq: real)

  /** One generated state `(t, lat, lon, heading, roll, pitch)`. */
  datatype State = State(t: real, lat: real, lon: real, heading: real, roll: real, pitch: real)

  /** `WAVE_STATES`. */
  const WaveStates: map<string, Wave> := map[
    "calm" := Wave(1.0, 0.2),
    "choppy" := Wave(10.0, 2.0),
    "moderate" := Wave(15.0, 0.3),
    "rough" := Wave(30.0, 1.0),
    "storm" := Wave(45.0, 1.5)]

  /** `interp(p1, p2, f)`: the point a fraction `f` of the way from `p1` to `p2`. */
  function Interp(p1: Point, p2: Point, f: real): (real, real) {
    (p1.lat + (p2.lat - p1.lat) * f, p1.lon + (p2.lon - p1.lon) * f)
  }

  /** `interp(p1, p2, 0) == p1` and `interp(p1, p2, 1) == p2`. */
  lemma InterpEndpoints(p1: Point, p2: Point)
    ensures Interp(p1, p2, 0.0) == (p1.lat, p1.lon)
    ensures Interp(p1, p2, 1.0) == (p2.lat, p2.lon)
  {
    assert (p2.lat - p1.lat) * 1.0 == p2.lat - p1.lat;
    assert (p2.lon - p1.lon) * 1.0 == p2.lon - p1.lon;
  }

  /** For a fraction in [0, 1] the interpolated latitude lies between the two endpoints' latitudes. */
  lemma InterpBetween(p1: Point, p2: Point, f: real)
    requires 0.0 <= f <= 1.0
    ensures var lat := Interp(p1, p2, f).0;
      (p1.lat <= p2.lat ==> p1.lat <= lat <= p2.lat) && (p2.lat <= p1.lat ==> p2.lat <= lat <= p1.lat)
  {
    var d := p2.lat - p1.lat;
    MulWithin(d, f);
    assert Interp(p1, p2, f).0 == p1.lat + d * f;
  }

  lemma MulWithin(d: real, f: real)
    requires 0.0 <= f <= 1.0
    ensures d >= 0.0 ==> 0.0 <= d * f <= d
    ensures d <= 0.0 ==> d <= d * f <= 0.0
  {
  }

  /** The time a kept leg takes: its distance over the start point's positive speed. */
  function LegDuration(geo: Geo, p0: Point, p1: Point): real
    requires p0.speed > 0.0
  {
    geo.distance(p0.lat, p0.lon, p1.lat, p1.lon) / p0.speed
  }

  /** `max(1, int(dur / dt))`: how many states a kept leg yields. */
  function StepCount(dur: real, dt: real): (n: nat)
    requires dt != 0.0
    ensures n >= 1
  {
    var q := PyMath.Trunc(dur / dt);
    if q > 1 then q else 1
  }

  /** `min(step * dt / dur, 1.0)`. */
  function Frac(step: nat, dt: real, dur: real): real
    requires dur != 0.0
  {
    PyMath.Min(step as real * dt / dur, 1.0)
  }

  /** The state at step `step` of the leg from `p0` to `p1` at time `t`. */
  function LegState(geo: Geo, wave: Wave, p0: Point, p1: Point, heading: real, dur: real, dt: real, step: nat, t: real): State
    requires dur != 0.0
  {
    var pos := Interp(p0, p1, Frac(step, dt, dur));
    var phase := 2.0 * PyMath.Pi * wave.freq * t;
    State(t, pos.0, pos.1, heading, wave.amp * geo.sin(phase), wave.amp * geo.cos(phase))
  }

  /** Steps `step`, ..., `n - 1` of one leg, the first at time `t`, each `dt` after the previous. */
  function LegStates(geo: Geo, wave: Wave, p0: Point, p1: Point, heading: real, dur: real, dt: real, step: nat, n: nat, t: real): (r: seq<State>)
    requires dur != 0.0
    ensures |r| == if step <= n then n - step else 0
    decreases n - step
  {
    if step >= n then []
    else [LegState(geo, wave, p0, p1, heading, dur, dt, step, t)] + LegStates(geo, wave, p0, p1, heading, dur, dt, step + 1, n, t + dt)
  }

  /** The closing state: the last point, with heading, roll and pitch all 0. */
  function Final(last: Point, t: real): State {
    State(t, last.lat, last.lon, 0.0, 0.0, 0.0)
  }

  /** Leg `i` is kept: it has an end point and its start speed is positive. */
  predicate Kept(points: seq<Point>, i: nat) {
    i + 1 < |points| && points[i].speed > 0.0
  }

  /** A kept leg divides by zero: `dt` is zero, or the leg lasts no time. */
  predicate Stalls(geo: Geo, points: seq<Point>, dt: real, i: nat)
    requires Kept(points, i)
  {
    dt == 0.0 || LegDuration(geo, points[i], points[i + 1]) == 0.0
  }

  /** The states a kept leg yields, the first at time `t`. */
  function LegOf(geo: Geo, points: seq<Point>, wave: Wave, dt: real, i: nat, t: real): (r: seq<State>)
    requires Kept(points, i) && !Stalls(geo, points, dt, i)
    ensures |r| == StepCount(LegDuration(geo, points[i], points[i + 1]), dt)
  {
    var dur := LegDuration(geo, points[i], points[i + 1]);
    var heading := Bearing(geo, points[i].lat, points[i].lon, points[i + 1].lat, points[i + 1].lon);
    LegStates(geo, wave, points[i], points[i + 1], heading, dur, dt, 0, StepCount(dur, dt), t)
  }

  /** `t` after `m` repetitions of `t += dt`. */
  function Advance(t: real, dt: real, m: nat): real
    decreases m
  {
    if m == 0 then t else Advance(t + dt, dt, m - 1)
  }

  /** The time after a kept leg entered at `t`. */
  function After(geo: Geo, points: seq<Point>, dt: real, i: nat, t: real): real
    requires Kept(points, i) && !Stalls(geo, points, dt, i)
  {
    Advance(t, dt, StepCount(LegDuration(geo, points[i], points[i + 1]), dt))
  }

  /**
   * What `generate_states(points, wave_cfg, dt)` yields from leg `i` on, the
   * first state at time `t`, and the exception it raises after them, if any:
   * legs whose start speed is not positive are skipped, a leg lasting no time
   * (or a zero `dt`) divides by zero, and an empty point list fails on
   * `points[-1]`.
   */
  function Generated(geo: Geo, points: seq<Point>, wave: Wave, dt: real, i: nat, t: real): (seq<State>, Option<PyError>)
    decreases |points| - i
  {
    if i + 1 >= |points| then
      if |points| == 0 then ([], Some(IndexError)) else ([Final(points[|points| - 1], t)], None)
    else if !Kept(points, i) then
      Generated(geo, points, wave, dt, i + 1, t)
    else if Stalls(geo, points, dt, i) then
      ([], Some(ZeroDivisionError))
    else
      var rest := Generated(geo, points, wave, dt, i + 1, After(geo, points, dt, i, t));
      (LegOf(geo, points, wave, dt, i, t) + rest.0, rest.1)
  }

  /** `generate_states`, collected: the states yielded, then the exception raised, if any. */
  method GenerateStates(geo: Geo, points: seq<Point>, wave: Wave, dt: real) returns (states: seq<State>, err: Option<PyError>)
    ensures (states, err) == Generated(geo, points, wave, dt, 0, 0.0)
  {
    ghost var total := Generated(geo, points, wave, dt, 0, 0.0);
    states := [];
    var t := 0.0;
    var idx := 0;
    while idx + 1 < |points|
      invariant idx <= |points|
      invariant states + Generated(geo, points, wave, dt, idx, t).0 == total.0
      invariant Generated(geo, points, wave, dt, idx, t).1 == total.1
      decreases |points| - idx
    {
      var start, end := points[idx], points[idx + 1];
      if start.speed <= 0.0 {
        idx := idx + 1;
        continue;
      }
      var dur := LegDuration(geo, start, end);
      if dt == 0.0 || dur == 0.0 {
        assert Kept(points, idx) && Stalls(geo, points, dt, idx);
        assert Generated(geo, points, wave, dt, idx, t) == ([], Some(ZeroDivisionError));
        assert states + [] == states;
        return states, Some(ZeroDivisionError);
      }
      var heading := Bearing(geo, start.lat, start.lon, end.lat, end.lon);
      var leg, t1 := EmitLeg(geo, wave, start, end, heading, dur, dt, StepCount(dur, dt), t);
      assert leg == LegOf(geo, points, wave, dt, idx, t);
      states := states + leg;
      t := t1;
      idx := idx + 1;
    }
    if |points| == 0 {
      return states, Some(IndexError);
    }
    states := states + [Final(points[|points| - 1], t)];
    err := None;
  }

  /** The inner loop of `generate_states` over the `n` steps of one kept leg, from time `t0`. */
  method EmitLeg(geo: Geo, wave: Wave, start: Point, end: Point, heading: real, dur: real, dt: real, n: nat, t0: real)
    returns (leg: seq<State>, t: real)
    requires dur != 0.0
    ensures leg == LegStates(geo, wave, start, end, heading, dur, dt, 0, n, t0)
    ensures t == Advance(t0, dt, n)
  {
    leg := [];
    t := t0;
    var step := 0;
    while step < n
      invariant 0 <= step <= n
      invariant Advance(t, dt, n - step) == Advance(t0, dt, n)
      invariant leg + LegStates(geo, wave, start, end, heading, dur, dt, step, n, t) == LegStates(geo, wave, start, end, heading, dur, dt, 0, n, t0)
    {
      leg := leg + [LegState(geo, wave, start, end, heading, dur, dt, step, t)];
      t := t + dt;
      step := step + 1;
    }
  }

  /** States `dt` apart: each one's time is the previous one's plus `dt`. */
  predicate Spaced(r: seq<State>, dt: real) {
    forall k :: 0 <= k < |r| - 1 ==> r[k + 1].t == r[k].t + dt
  }

  /** The states of one leg are `dt` apart, the first at `t`, and the time after them is the last one's plus `dt`. */
  lemma {:induction false} LegTimes(geo: Geo, wave: Wave, p0: Point, p1: Point, heading: real, dur: real, dt: real, step: nat, n: nat, t: real)
    requires dur != 0.0 && step < n
    ensures var r := LegStates(geo, wave, p0, p1, heading, dur, dt, step, n, t);
      r[0].t == t && Spaced(r, dt) && r[|r| - 1].t + dt == Advance(t, dt, n - step)
    decreases n - step
  {
    var r := LegStates(geo, wave, p0, p1, heading, dur, dt, step, n, t);
    var tail := LegStates(geo, wave, p0, p1, heading, dur, dt, step + 1, n, t + dt);
    assert r == [LegState(geo, wave, p0, p1, heading, dur, dt, step, t)] + tail;
    if step + 1 < n {
      LegTimes(geo, wave, p0, p1, heading, dur, dt, step + 1, n, t + dt);
      forall k | 0 <= k < |r| - 1
        ensures r[k + 1].t == r[k].t + dt
      {
        if k > 0 {
          assert r[k] == tail[k - 1] && r[k + 1] == tail[k];
        }
      }
    }
  }

  /** Two runs of spaced states, the second starting `dt` after the first ends, are spaced. */
  lemma SpacedAppend(a: seq<State>, b: seq<State>, dt: real)
    requires Spaced(a, dt) && Spaced(b, dt)
    requires |a| > 0 && |b| > 0 && b[0].t == a[|a| - 1].t + dt
    ensures Spaced(a + b, dt)
  {
    var c := a + b;
    forall k | 0 <= k < |c| - 1
      ensures c[k + 1].t == c[k].t + dt
    {
      if k + 1 < |a| {
        assert c[k] == a[k] && c[k + 1] == a[k + 1];
      } else if k + 1 == |a| {
        assert c[k] == a[k] && c[k + 1] == b[0];
      } else {
        assert c[k] == b[k - |a|] && c[k + 1] == b[k + 1 - |a|];
      }
    }
  }

  /**
   * The yielded times start at `t` and each is `dt` after the previous one
   * (so from 0 they are 0, dt, 2 dt, ...): time advances exactly once per state.
   */
  lemma {:induction false} Times(geo: Geo, points: seq<Point>, wave: Wave, dt: real, i: nat, t: real)
    ensures var r := Generated(geo, points, wave, dt, i, t).0;
      (|r| > 0 ==> r[0].t == t) && Spaced(r, dt)
    decreases |points| - i
  {
    if i + 1 >= |points| {
    } else if !Kept(points, i) {
      Times(geo, points, wave, dt, i + 1, t);
    } else if !Stalls(geo, points, dt, i) {
      var dur := LegDuration(geo, points[i], points[i + 1]);
      var heading := Bearing(geo, points[i].lat, points[i].lon, points[i + 1].lat, points[i + 1].lon);
      var t1 := After(geo, points, dt, i, t);
      var leg := LegOf(geo, points, wave, dt, i, t);
      var rest := Generated(geo, points, wave, dt, i + 1, t1).0;
      LegTimes(geo, wave, points[i], points[i + 1], heading, dur, dt, 0, StepCount(dur, dt), t);
      Times(geo, points, wave, dt, i + 1, t1);
      if |rest| > 0 {
        SpacedAppend(leg, rest, dt);
      }
      assert Generated(geo, points, wave, dt, i, t).0 == leg + rest;
    }
  }

  /** The number of states the legs from `i` on yield: skipped legs none, kept legs `max(1, int(dur / dt))`. */
  function KeptSteps(geo: Geo, points: seq<Point>, dt: real, i: nat): nat
    requires dt != 0.0
    decreases |points| - i
  {
    if i + 1 >= |points| then 0
    else if !Kept(points, i) then KeptSteps(geo, points, dt, i + 1)
    else StepCount(LegDuration(geo, points[i], points[i + 1]), dt) + KeptSteps(geo, points, dt, i + 1)
  }

  /**
   * When nothing is raised, the kept legs yield their step counts and exactly
   * one final state follows: the last point with heading, roll and pitch 0.
   */
  lemma {:induction false} Closing(geo: Geo, points: seq<Point>, wave: Wave, dt: real, i: nat, t: real)
    requires Generated(geo, points, wave, dt, i, t).1.None?
    ensures dt != 0.0 ==> |Generated(geo, points, wave, dt, i, t).0| == KeptSteps(geo, points, dt, i) + 1
    ensures var r := Generated(geo, points, wave, dt, i, t).0;
      |r| > 0 && r[|r| - 1] == Final(points[|points| - 1], r[|r| - 1].t)
    decreases |points| - i
  {
    if i + 1 >= |points| {
    } else if !Kept(points, i) {
      Closing(geo, points, wave, dt, i + 1, t);
    } else {
      assert !Stalls(geo, points, dt, i);
      var t1 := After(geo, points, dt, i, t);
      Closing(geo, points, wave, dt, i + 1, t1);
      var leg := LegOf(geo, points, wave, dt, i, t);
      var rest := Generated(geo, points, wave, dt, i + 1, t1).0;
      assert Generated(geo, points, wave, dt, i, t).0 == leg + rest;
      assert (leg + rest)[|leg + rest| - 1] == rest[|rest| - 1];
    }
  }

  /** Some kept leg from `i` on divides by zero. */
  ghost predicate StallAhead(geo: Geo, points: seq<Point>, dt: real, i: nat) {
    exists j :: i <= j && Kept(points, j) && Stalls(geo, points, dt, j)
  }

  /**
   * `generate_states` raises exactly when the point list is empty, or when
   * some kept leg (positive start speed) lasts no time or `dt` is zero.
   */
  lemma {:induction false} Raises(geo: Geo, points: seq<Point>, wave: Wave, dt: real, i: nat, t: real)
    requires |points| > 0
    ensures Generated(geo, points, wave, dt, i, t).1.Some? <==> StallAhead(geo, points, dt, i)
    ensures Generated(geo, points, wave, dt, i, t).1 != Some(IndexError)
    decreases |points| - i
  {
    if i + 1 >= |points| {
      assert !StallAhead(geo, points, dt, i);
    } else if !Kept(points, i) {
      Raises(geo, points, wave, dt, i + 1, t);
      StallShift(geo, points, dt, i);
    } else if !Stalls(geo, points, dt, i) {
      Raises(geo, points, wave, dt, i + 1, After(geo, points, dt, i, t));
      StallShift(geo, points, dt, i);
    }
  }

  lemma StallShift(geo: Geo, points: seq<Point>, dt: real, i: nat)
    requires !(Kept(points, i) && Stalls(geo, points, dt, i))
    ensures StallAhead(geo, points, dt, i) <==> StallAhead(geo, points, dt, i + 1)
  {
    if StallAhead(geo, points, dt, i) {
      var j :| i <= j && Kept(points, j) && Stalls(geo, points, dt, j);
      assert j != i;
    }
  }

  /** With an empty point list nothing is yielded before `points[-1]` fails. */
  lemma NoPoints(geo: Geo, wave: Wave, dt: real, t: real)
    ensures Generated(geo, [], wave, dt, 0, t) == ([], Some(IndexError))
  {
  }

  /** The fraction of a kept leg covered at a step lies in [0, 1] for a positive `dt` and duration. */
  lemma FracRange(step: nat, dt: real, dur: real)
    requires dt > 0.0 && dur > 0.0
    ensures 0.0 <= Frac(step, dt, dur) <= 1.0
  {
    assert step as real * dt >= 0.0;
  }
}
