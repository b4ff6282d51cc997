// The magnetometer model `MagSim` (simulators/imu_sim/lib/magnetometer_sim.py):
// the configured world field rotated into the sensor frame, a hard-iron
// bias, an optional first-order low-pass filter primed by its first input,
// white noise and int16 counts. Unlike the accelerometer and gyroscope the
// microtesla output is not clipped; only the counts are.
//
// `math.exp` and `math.sqrt` are supplied by the caller; the noise generator
// is represented by its three standard normal draws per step.

module MagSimulator {
  import opened Wrappers
  import opened Vectors
  import PyMath

  /** `COUNTS_PER_UT`: counts per microtesla for 14- and 16-bit output; None for other widths (KeyError). */
  function CountsPerUt(rangeBits: int): Option<real> {
    if rangeBits == 14 then Some(1.0 / 0.6)
    else if rangeBits == 16 then Some(1.0 / 0.15)
    else None
  }

  /** `MagSimConfig`. */
  datatype MagConfig = MagConfig(
    rangeBits: int, odrHz: real, biasUt: V3, noiseDensity: real, worldFieldUt: V3, useLpf: bool, lpfCutHz: real)

  predicate Filtered(cfg: MagConfig) {
    cfg.useLpf && cfg.lpfCutHz > 0.0
  }

  /**
   * The sample period `1 / max(odr, 1e-9)`: the floor on the rate means the
   * magnetometer, unlike the other two sensors, never divides by zero.
   */
  function Period(cfg: MagConfig): (dt: real)
    ensures dt > 0.0
    ensures cfg.odrHz >= 0.000000001 ==> dt * cfg.odrHz == 1.0
  {
    1.0 / PyMath.Max(cfg.odrHz, 0.000000001)
  }

  /** The filter coefficient: `exp(-2 pi fc dt)` when the filter is enabled, None otherwise. */
  function Alpha(cfg: MagConfig, exp: real -> real): (r: Option<real>)
    ensures r.Some? <==> Filtered(cfg)
  {
    if Filtered(cfg) then Some(exp(-2.0 * PyMath.Pi * cfg.lpfCutHz * Period(cfg))) else None
  }

  /** The equivalent noise bandwidth: `(pi / 2) fc` behind the filter, `odr / 2` without it, at least 1e-9. */
  function Bandwidth(cfg: MagConfig, filtered: bool): (bw: real)
    ensures bw >= 0.000000001
    ensures filtered && PyMath.Pi / 2.0 * cfg.lpfCutHz >= 0.000000001 ==> bw == PyMath.Pi / 2.0 * cfg.lpfCutHz
    ensures !filtered && 0.5 * cfg.odrHz >= 0.000000001 ==> bw == 0.5 * cfg.odrHz
  {
    PyMath.Max(if filtered then PyMath.Pi / 2.0 * cfg.lpfCutHz else 0.5 * cfg.odrHz, 0.000000001)
  }

  /** `_calc_sigma`. */
  function Sigma(cfg: MagConfig, filtered: bool, sqrt: real -> real): real {
    cfg.noiseDensity * sqrt(Bandwidth(cfg, filtered))
  }

  /** The world field in the sensor frame plus the hard-iron bias: `R @ B_world + bias`. */
  function Biased(cfg: MagConfig, r: Mat3): V3 {
    Add(Apply(r, cfg.worldFieldUt), cfg.biasUt)
  }

  /** The noisy field and its counts, or KeyError for an output width without a sensitivity. */
  function Output(cfg: MagConfig, filtered: V3, noise: V3): Result<(Counts, V3)> {
    var b := Add(filtered, noise);
    var cps := CountsPerUt(cfg.rangeBits);
    if cps.None? then Failure(KeyError) else Success((QuantizeV(b, cps.value), b))
  }

  class MagSim {
    const cfg: MagConfig
    const alpha: Option<real>
    const sigma: real
    var state: V3
    var primed: bool

    constructor (cfg: MagConfig, exp: real -> real, sqrt: real -> real)
      ensures this.cfg == cfg && alpha == Alpha(cfg, exp)
      ensures primed <==> alpha.None?
      ensures state == Zero && sigma == Sigma(cfg, alpha.Some?, sqrt)
    {
      this.cfg := cfg;
      var a := Alpha(cfg, exp);
      alpha := a;
      state := Zero;
      primed := a.None?;
      sigma := Sigma(cfg, a.Some?, sqrt);
    }

    /**
     * `step`: one sample at the world-to-sensor rotation `r`, with `z` the
     * three standard normal draws. The filter state is updated before the
     * noise is drawn, and numpy refuses a negative sigma with ValueError.
     */
    method Step(r: Mat3, z: V3) returns (out: Result<(Counts, V3)>)
      modifies this
      ensures var (s, p, f) := PrimedFilter(alpha, old(state), old(primed), Biased(cfg, r));
        state == s && primed == p &&
        out == if sigma < 0.0 then Failure(ValueError) else Output(cfg, f, Scale(sigma, z))
    {
      var x := Biased(cfg, r);
      var f;
      if alpha.Some? {
        if !primed {
          state := x;
          primed := true;
        } else {
          state := Smooth(alpha.value, state, x);
        }
        f := state;
      } else {
        f := x;
      }
      if sigma < 0.0 {
        return Failure(ValueError);
      }
      out := Output(cfg, f, Scale(sigma, z));
    }
  }

  /**
   * The microtesla output is the filtered field plus noise, never clipped,
   * while its counts always lie in the int16 range.
   */
  lemma OutputUnclipped(cfg: MagConfig, filtered: V3, noise: V3)
    requires CountsPerUt(cfg.rangeBits).Some?
    ensures Output(cfg, filtered, noise).Success?
    ensures var (counts, b) := Output(cfg, filtered, noise).value;
      b == Add(filtered, noise) && InInt16(counts) && counts == QuantizeV(b, CountsPerUt(cfg.rangeBits).value)
  {
  }

  /** With the identity rotation, no noise and an unfiltered sensor, the reading is the world field plus the bias. */
  lemma StaticReading(cfg: MagConfig, state: V3, primed: bool)
    requires !Filtered(cfg) && CountsPerUt(cfg.rangeBits).Some?
    ensures var f := PrimedFilter(None, state, primed, Biased(cfg, Identity)).2;
      Output(cfg, f, Zero).Success? && Output(cfg, f, Zero).value.1 == Add(cfg.worldFieldUt, cfg.biasUt)
  {
  }
}
