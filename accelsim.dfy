// The accelerometer model `AccelSim` (simulators/imu_sim/lib/accelerometer_sim.py):
// gravity plus the linear acceleration rotated into the sensor frame, a
// static bias, an optional first-order low-pass filter primed by its first
// input, white noise, clipping to the full-scale range and int16 counts.
//
// `math.exp` and `math.sqrt` are supplied by the caller; the noise generator
// is represented by its three standard normal draws per step.

module AccelSimulator {
  import opened Wrappers
  import opened Vectors
  import PyMath

  /** Standard gravity in m/s^2. */
  const Gravity: real := 9.80665

  /** `LSB_PER_G`: counts per g for each full-scale range; None for a range the table lacks (KeyError). */
  function LsbPerG(rangeG: int): Option<real> {
    if rangeG == 2 then Some(16384.0)
    else if rangeG == 4 then Some(8192.0)
    else if rangeG == 8 then Some(4096.0)
    else if rangeG == 16 then Some(2048.0)
    else None
  }

  /** `AccelSimConfig`. */
  datatype AccelConfig = AccelConfig(
    rangeG: int, odrHz: real, biasG: V3, noiseDensity: real, useLpf: bool, lpfCutHz: real)

  /** Whether the constructor enables the filter. */
  predicate Filtered(cfg: AccelConfig) {
    cfg.useLpf && cfg.lpfCutHz > 0.0
  }

  /**
   * The filter coefficient the constructor computes: `exp(-2 pi fc dt)` with
   * `dt = 1 / odr` when the filter is enabled, None otherwise; a zero output
   * data rate with the filter enabled raises ZeroDivisionError.
   */
  function Alpha(cfg: AccelConfig, exp: real -> real): (r: Result<Option<real>>)
    ensures r.Success? && r.value.Some? <==> Filtered(cfg) && cfg.odrHz != 0.0
    ensures r.Failure? <==> Filtered(cfg) && cfg.odrHz == 0.0
    ensures r.Failure? ==> r.error == ZeroDivisionError
  {
    if Filtered(cfg) then
      if cfg.odrHz == 0.0 then Failure(ZeroDivisionError)
      else Success(Some(exp(-2.0 * PyMath.Pi * cfg.lpfCutHz * (1.0 / cfg.odrHz))))
    else Success(None)
  }

  /** The equivalent noise bandwidth: `(pi / 2) fc` behind the filter, the Nyquist band `odr / 2` without it, at least 1e-9. */
  function Bandwidth(cfg: AccelConfig, filtered: bool): (bw: real)
    ensures bw >= 0.000000001
    ensures filtered && PyMath.Pi / 2.0 * cfg.lpfCutHz >= 0.000000001 ==> bw == PyMath.Pi / 2.0 * cfg.lpfCutHz
    ensures !filtered && 0.5 * cfg.odrHz >= 0.000000001 ==> bw == 0.5 * cfg.odrHz
  {
    PyMath.Max(if filtered then PyMath.Pi / 2.0 * cfg.lpfCutHz else 0.5 * cfg.odrHz, 0.000000001)
  }

  /** `_calc_sigma`: the noise density times the square root of the bandwidth. */
  function Sigma(cfg: AccelConfig, filtered: bool, sqrt: real -> real): real {
    cfg.noiseDensity * sqrt(Bandwidth(cfg, filtered))
  }

  /** The true specific force in g, rotated into the sensor frame, plus the static bias. */
  function Biased(cfg: AccelConfig, aLinWorld: V3, r: Mat3): V3 {
    var aTrue := Scale(1.0 / Gravity, Add(Apply(r, aLinWorld), Apply(r, V3(0.0, 0.0, Gravity))));
    Add(aTrue, cfg.biasG)
  }

  /**
   * The two filter blocks of `step` on the state `(state, primed)` and the
   * biased input `x`: the new state, the new primed flag and the filtered
   * value. The first block always runs the recurrence; the second primes
   * an unprimed filter with `x` and otherwise runs the recurrence again.
   */
  function Filter(alpha: Option<real>, state: V3, primed: bool, x: V3): (V3, bool, V3) {
    if alpha.None? then (state, primed, x)
    else
      var once := Smooth(alpha.value, state, x);
      var s := if !primed then x else Smooth(alpha.value, once, x);
      (s, true, s)
  }

  /** The clipped measurement in g and its counts, or KeyError for a range without a sensitivity. */
  function Output(cfg: AccelConfig, filtered: V3, noise: V3): Result<(Counts, V3)> {
    var rng := cfg.rangeG as real;
    var aClip := ClipV(Add(filtered, noise), -rng, rng);
    var lsb := LsbPerG(cfg.rangeG);
    if lsb.None? then Failure(KeyError) else Success((QuantizeV(aClip, lsb.value), aClip))
  }

  class AccelSim {
    const cfg: AccelConfig
    /** `_alpha`: the filter coefficient, None without a filter. */
    const alpha: Option<real>
    /** `_sigma`: the standard deviation of the white noise. */
    const sigma: real
    var state: V3
    /** `_primed`: whether the filter has seen its first input. */
    var primed: bool

    constructor (cfg: AccelConfig, exp: real -> real, sqrt: real -> real)
      requires Alpha(cfg, exp).Success?
      ensures this.cfg == cfg && alpha == Alpha(cfg, exp).value
      ensures primed <==> alpha.None?
      ensures state == Zero && sigma == Sigma(cfg, alpha.Some?, sqrt)
    {
      this.cfg := cfg;
      var a := Alpha(cfg, exp).value;
      alpha := a;
      state := Zero;
      primed := a.None?;
      sigma := Sigma(cfg, a.Some?, sqrt);
    }

    /**
     * `step`: one sample from the world-frame linear acceleration and the
     * world-to-sensor rotation, with `z` the three standard normal draws of
     * the noise generator. The filter state is updated before the noise is
     * drawn and the range table consulted, so the ValueError numpy raises
     * for a negative sigma and a KeyError both leave it updated.
     */
    method Step(aLinWorld: V3, r: Mat3, z: V3) returns (out: Result<(Counts, V3)>)
      modifies this
      ensures var (s, p, f) := Filter(alpha, old(state), old(primed), Biased(cfg, aLinWorld, r));
        state == s && primed == p &&
        out == if sigma < 0.0 then Failure(ValueError) else Output(cfg, f, Scale(sigma, z))
    {
      var x := Biased(cfg, aLinWorld, r);
      var f := x;
      if alpha.Some? {
        state := Smooth(alpha.value, state, x);
        f := state;
      }
      if alpha.Some? {
        if !primed {
          state := x;
          primed := true;
        } else {
          state := Smooth(alpha.value, state, x);
        }
        f := state;
      }
      if sigma < 0.0 {
        return Failure(ValueError);
      }
      out := Output(cfg, f, Scale(sigma, z));
    }
  }

  /** `_primed` starts true exactly when there is no filter, so with a filter the first step returns its input. */
  lemma FirstFilteredStep(a: real, state: V3, x: V3)
    ensures Filter(Some(a), state, false, x) == (x, true, x)
  {
  }

  /**
   * Once primed, a step applies the recurrence twice:
   * `state' = a^2 state + (1 - a^2) x`, a filter with coefficient a^2.
   */
  lemma {:induction false} DoubleRecurrence(a: real, state: V3, x: V3)
    ensures Filter(Some(a), state, true, x).0 == Smooth(a * a, state, x)
  {
    TwiceOne(a, state.x, x.x);
    TwiceOne(a, state.y, x.y);
    TwiceOne(a, state.z, x.z);
  }

  lemma TwiceOne(a: real, s: real, x: real)
    ensures LowPass(a, LowPass(a, s, x), x) == LowPass(a * a, s, x)
  {
    calc {
      LowPass(a, LowPass(a, s, x), x);
      a * (a * s + (1.0 - a) * x) + (1.0 - a) * x;
      a * a * s + a * (1.0 - a) * x + (1.0 - a) * x;
      a * a * s + (a + 1.0) * (1.0 - a) * x;
      a * a * s + (1.0 - a * a) * x;
    }
  }

  /** Without a filter the output is the biased input and the state is untouched. */
  lemma Unfiltered(state: V3, primed: bool, x: V3)
    ensures Filter(None, state, primed, x) == (state, primed, x)
  {
  }

  /** The measurement stays in the full-scale range and equals the filtered value plus noise wherever that is in range. */
  lemma OutputInRange(cfg: AccelConfig, filtered: V3, noise: V3)
    requires LsbPerG(cfg.rangeG).Some?
    ensures Output(cfg, filtered, noise).Success?
    ensures var (counts, a) := Output(cfg, filtered, noise).value;
      Within(a, -(cfg.rangeG as real), cfg.rangeG as real) && InInt16(counts) &&
      (Within(Add(filtered, noise), -(cfg.rangeG as real), cfg.rangeG as real) ==> a == Add(filtered, noise)) &&
      counts == QuantizeV(a, LsbPerG(cfg.rangeG).value)
  {
  }

  /** The counts saturate exactly at full scale: +range reads 32767 (32768 clipped) and -range reads -32768, in every range. */
  lemma FullScale(rangeG: int)
    requires LsbPerG(rangeG).Some?
    ensures Quantize(rangeG as real, LsbPerG(rangeG).value) == PyMath.MaxInt16
    ensures Quantize(-(rangeG as real), LsbPerG(rangeG).value) == PyMath.MinInt16
  {
  }
}
