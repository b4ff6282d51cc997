// The gyroscope model `GyroSim` (simulators/imu_sim/lib/gyroscope_sim.py):
// the angular rate rotated into the sensor frame, a static bias, an optional
// first-order low-pass filter primed by its first input, white noise,
// clipping to the full-scale range and int16 counts.
//
// `math.exp` and `math.sqrt` are supplied by the caller; the noise generator
// is represented by its three standard normal draws per step.

module GyroSimulator {
  import opened Wrappers
  import opened Vectors
  import PyMath

  /** `LSB_PER_DPS`: counts per degree per second for each full-scale range; None for a range the table lacks (KeyError). */
  function LsbPerDps(rangeDps: int): Option<real> {
    if rangeDps == 250 then Some(131.0)
    else if rangeDps == 500 then Some(65.5)
    else if rangeDps == 1000 then Some(32.8)
    else if rangeDps == 2000 then Some(16.4)
    else None
  }

  /** `GyroSimConfig`. */
  datatype GyroConfig = GyroConfig(
    rangeDps: int, odrHz: real, biasDps: V3, noiseDensity: real, useLpf: bool, lpfCutHz: real)

  predicate Filtered(cfg: GyroConfig) {
    cfg.useLpf && cfg.lpfCutHz > 0.0
  }

  /**
   * The filter coefficient the constructor computes: `exp(-2 pi fc dt)` with
   * `dt = 1 / odr` when the filter is enabled, None otherwise; a zero output
   * data rate with the filter enabled raises ZeroDivisionError.
   */
  function Alpha(cfg: GyroConfig, exp: real -> real): (r: Result<Option<real>>)
    ensures r.Success? && r.value.Some? <==> Filtered(cfg) && cfg.odrHz != 0.0
    ensures r.Failure? <==> Filtered(cfg) && cfg.odrHz == 0.0
    ensures r.Failure? ==> r.error == ZeroDivisionError
  {
    if Filtered(cfg) then
      if cfg.odrHz == 0.0 then Failure(ZeroDivisionError)
      else Success(Some(exp(-2.0 * PyMath.Pi * cfg.lpfCutHz * (1.0 / cfg.odrHz))))
    else Success(None)
  }

  /** The equivalent noise bandwidth: `(pi / 2) fc` behind the filter, `odr / 2` without it, at least 1e-9. */
  function Bandwidth(cfg: GyroConfig, filtered: bool): (bw: real)
    ensures bw >= 0.000000001
    ensures filtered && PyMath.Pi / 2.0 * cfg.lpfCutHz >= 0.000000001 ==> bw == PyMath.Pi / 2.0 * cfg.lpfCutHz
    ensures !filtered && 0.5 * cfg.odrHz >= 0.000000001 ==> bw == 0.5 * cfg.odrHz
  {
    PyMath.Max(if filtered then PyMath.Pi / 2.0 * cfg.lpfCutHz else 0.5 * cfg.odrHz, 0.000000001)
  }

  /** `_calc_sigma`. */
  function Sigma(cfg: GyroConfig, filtered: bool, sqrt: real -> real): real {
    cfg.noiseDensity * sqrt(Bandwidth(cfg, filtered))
  }

  /** The rate rotated into the sensor frame plus the static bias: `R @ omega + bias`. */
  function Biased(cfg: GyroConfig, omegaWorld: V3, r: Mat3): V3 {
    Add(Apply(r, omegaWorld), cfg.biasDps)
  }

  /** The clipped rate and its counts, or KeyError for a range without a sensitivity. */
  function Output(cfg: GyroConfig, filtered: V3, noise: V3): Result<(Counts, V3)> {
    var rng := cfg.rangeDps as real;
    var wClip := ClipV(Add(filtered, noise), -rng, rng);
    var lsb := LsbPerDps(cfg.rangeDps);
    if lsb.None? then Failure(KeyError) else Success((QuantizeV(wClip, lsb.value), wClip))
  }

  class GyroSim {
    const cfg: GyroConfig
    const alpha: Option<real>
    const sigma: real
    var state: V3
    var primed: bool

    constructor (cfg: GyroConfig, exp: real -> real, sqrt: real -> real)
      requires Alpha(cfg, exp).Success?
      ensures this.cfg == cfg && alpha == Alpha(cfg, exp).value
      ensures primed <==> alpha.None?
      ensures state == Zero && sigma == Sigma(cfg, alpha.Some?, sqrt)
    {
      this.cfg := cfg;
      var a := Alpha(cfg, exp).value;
      alpha := a;
      state := Zero;
      primed := a.None?;
      sigma := Sigma(cfg, a.Some?, sqrt);
    }

    /**
     * `step`: one sample from the world-frame rate and the world-to-sensor
     * rotation, with `z` the three standard normal draws of the noise
     * generator. The filter state is updated before the noise is drawn
     * (numpy refuses a negative sigma with ValueError) and the range table
     * consulted.
     */
    method Step(omegaWorld: V3, r: Mat3, z: V3) returns (out: Result<(Counts, V3)>)
      modifies this
      ensures var (s, p, f) := PrimedFilter(alpha, old(state), old(primed), Biased(cfg, omegaWorld, r));
        state == s && primed == p &&
        out == if sigma < 0.0 then Failure(ValueError) else Output(cfg, f, Scale(sigma, z))
    {
      var x := Biased(cfg, omegaWorld, r);
      var f;
      if alpha.Some? {
        if !primed {
          state := x;
          primed := true;
        } else {
          state := Smooth(alpha.value, state, x);
        }
        f := state;
      } else {
        f := x;
      }
      if sigma < 0.0 {
        return Failure(ValueError);
      }
      out := Output(cfg, f, Scale(sigma, z));
    }
  }

  /** The clipped rate stays in the full-scale range and equals filtered value plus noise wherever that is in range. */
  lemma OutputInRange(cfg: GyroConfig, filtered: V3, noise: V3)
    requires LsbPerDps(cfg.rangeDps).Some?
    ensures Output(cfg, filtered, noise).Success?
    ensures var (counts, w) := Output(cfg, filtered, noise).value;
      Within(w, -(cfg.rangeDps as real), cfg.rangeDps as real) && InInt16(counts) &&
      (Within(Add(filtered, noise), -(cfg.rangeDps as real), cfg.rangeDps as real) ==> w == Add(filtered, noise)) &&
      counts == QuantizeV(w, LsbPerDps(cfg.rangeDps).value)
  {
  }

  /**
   * Full scale in counts: the 250 and 500 dps ranges reach +-32750 without
   * saturating; the 1000 and 2000 dps ranges (32800 counts) saturate at
   * 32767 and -32768.
   */
  lemma FullScale()
    ensures Quantize(250.0, 131.0) == 32750 && Quantize(-250.0, 131.0) == -32750
    ensures Quantize(500.0, 65.5) == 32750 && Quantize(-500.0, 65.5) == -32750
    ensures Quantize(1000.0, 32.8) == PyMath.MaxInt16 && Quantize(-1000.0, 32.8) == PyMath.MinInt16
    ensures Quantize(2000.0, 16.4) == PyMath.MaxInt16 && Quantize(-2000.0, 16.4) == PyMath.MinInt16
  {
  }
}
