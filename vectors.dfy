// The three-component vectors and 3x3 matrices the IMU simulators compute
// with (numpy arrays of shape (3,) and (3, 3)), the element-wise operations
// they apply, and the int16 quantisation every sensor ends with.

module Vectors {
  import opened Wrappers
  import PyMath

  /** A vector of three reals: one sensor axis per component. */
  datatype V3 = V3(x: real, y: real, z: real)

  /** A 3x3 matrix given by its rows. */
  datatype Mat3 = Mat3(r0: V3, r1: V3, r2: V3)

  /** Three int16 sensor counts. */
  datatype Counts = Counts(cx: int, cy: int, cz: int)

  const Zero := V3(0.0, 0.0, 0.0)

  /** The identity matrix. */
  const Identity := Mat3(V3(1.0, 0.0, 0.0), V3(0.0, 1.0, 0.0), V3(0.0, 0.0, 1.0))

  function Dot(a: V3, b: V3): real {
    a.x * b.x + a.y * b.y + a.z * b.z
  }

  /** `R @ v`. */
  function Apply(m: Mat3, v: V3): V3 {
    V3(Dot(m.r0, v), Dot(m.r1, v), Dot(m.r2, v))
  }

  function Add(a: V3, b: V3): V3 {
    V3(a.x + b.x, a.y + b.y, a.z + b.z)
  }

  function Sub(a: V3, b: V3): V3 {
    V3(a.x - b.x, a.y - b.y, a.z - b.z)
  }

  function Scale(k: real, a: V3): V3 {
    V3(k * a.x, k * a.y, k * a.z)
  }

  /** Every component of `a` lies in [lo, hi]. */
  predicate Within(a: V3, lo: real, hi: real) {
    lo <= a.x <= hi && lo <= a.y <= hi && lo <= a.z <= hi
  }

  /** `numpy.clip(a, lo, hi)`, component by component. */
  function ClipV(a: V3, lo: real, hi: real): (r: V3)
    ensures lo <= hi ==> Within(r, lo, hi)
    ensures Within(a, lo, hi) ==> r == a
  {
    V3(PyMath.Clip(a.x, lo, hi), PyMath.Clip(a.y, lo, hi), PyMath.Clip(a.z, lo, hi))
  }

  /** `numpy.clip(numpy.rint(x * scale), -32768, 32767)`: one int16 count. */
  function Quantize(x: real, scale: real): (r: int)
    ensures PyMath.MinInt16 <= r <= PyMath.MaxInt16
  {
    PyMath.ClipInt(PyMath.RoundHalfEven(x * scale), PyMath.MinInt16, PyMath.MaxInt16)
  }

  /** The int16 counts of a vector: each component quantised with the same scale. */
  function QuantizeV(a: V3, scale: real): (r: Counts)
    ensures InInt16(r)
  {
    Counts(Quantize(a.x, scale), Quantize(a.y, scale), Quantize(a.z, scale))
  }

  predicate InInt16(c: Counts) {
    PyMath.MinInt16 <= c.cx <= PyMath.MaxInt16 && PyMath.MinInt16 <= c.cy <= PyMath.MaxInt16 &&
    PyMath.MinInt16 <= c.cz <= PyMath.MaxInt16
  }

  /** Rounding half to even never reverses the order of two values. */
  lemma RoundMonotone(x: real, y: real)
    requires x <= y
    ensures PyMath.RoundHalfEven(x) <= PyMath.RoundHalfEven(y)
  {
  }

  /** A larger reading never gives a smaller count: quantisation preserves order for a non-negative scale. */
  lemma QuantizeMonotone(x: real, y: real, scale: real)
    requires x <= y && scale >= 0.0
    ensures Quantize(x, scale) <= Quantize(y, scale)
  {
    assert x * scale <= y * scale;
    RoundMonotone(x * scale, y * scale);
  }

  /** A reading whose scaled value lies in the int16 range is off from its count by at most half a count. */
  lemma QuantizeError(x: real, scale: real)
    requires PyMath.MinInt16 as real <= x * scale <= PyMath.MaxInt16 as real
    ensures -0.5 <= x * scale - Quantize(x, scale) as real <= 0.5
  {
    var n := PyMath.RoundHalfEven(x * scale);
    assert PyMath.MinInt16 <= n <= PyMath.MaxInt16;
  }

  /** At any positive scale, a reading that is exactly `n` counts in the int16 range quantises to `n`. */
  lemma QuantizeExact(n: int, scale: real)
    requires scale > 0.0 && PyMath.MinInt16 <= n <= PyMath.MaxInt16
    ensures Quantize(n as real / scale, scale) == n
  {
    assert (n as real / scale) * scale == n as real;
  }

  /** One first-order low-pass step `alpha * state + (1 - alpha) * x` on one axis. */
  function LowPass(alpha: real, state: real, x: real): real {
    alpha * state + (1.0 - alpha) * x
  }

  /** The low-pass step on every axis: the numpy expression `alpha * state + (1.0 - alpha) * x`. */
  function Smooth(alpha: real, state: V3, x: V3): V3 {
    V3(LowPass(alpha, state.x, x.x), LowPass(alpha, state.y, x.y), LowPass(alpha, state.z, x.z))
  }

  /**
   * The primed first-order filter of the gyroscope and magnetometer models
   * on the state `(state, primed)` and the input `x`: the new state, the new
   * primed flag and the filtered value. Without a coefficient the input
   * passes through; the first filtered input primes the state; every later
   * one applies the recurrence once.
   */
  function PrimedFilter(alpha: Option<real>, state: V3, primed: bool, x: V3): (V3, bool, V3) {
    if alpha.None? then (state, primed, x)
    else
      var s := if !primed then x else Smooth(alpha.value, state, x);
      (s, true, s)
  }

  /** A coefficient in [0, 1] keeps each filtered component between the previous state and the input. */
  lemma LowPassBetween(alpha: real, state: real, x: real)
    requires 0.0 <= alpha <= 1.0
    ensures PyMath.Min(state, x) <= LowPass(alpha, state, x) <= PyMath.Max(state, x)
  {
    assert LowPass(alpha, state, x) == Blend(1.0 - alpha, state, x);
    BlendBetween(1.0 - alpha, state, x);
  }

  /** `prev += alpha * (x - prev)` on vectors. */
  function BlendV(alpha: real, prev: V3, x: V3): V3 {
    V3(Blend(alpha, prev.x, x.x), Blend(alpha, prev.y, x.y), Blend(alpha, prev.z, x.z))
  }

  /**
   * `prev += alpha * (x - prev)` is the convex combination
   * `(1 - alpha) * prev + alpha * x`; for alpha in [0, 1] each component of
   * the result lies between the old value and the input.
   */
  function Blend(alpha: real, prev: real, x: real): (r: real)
    ensures r == (1.0 - alpha) * prev + alpha * x
  {
    prev + alpha * (x - prev)
  }

  lemma BlendBetween(alpha: real, prev: real, x: real)
    requires 0.0 <= alpha <= 1.0
    ensures PyMath.Min(prev, x) <= Blend(alpha, prev, x) <= PyMath.Max(prev, x)
  {
    var d := x - prev;
    if d >= 0.0 {
      ScaleBetween(alpha, d);
    } else {
      ScaleBetween(alpha, -d);
      assert alpha * d == -(alpha * -d);
    }
  }

  lemma ScaleBetween(alpha: real, d: real)
    requires 0.0 <= alpha <= 1.0 && d >= 0.0
    ensures 0.0 <= alpha * d <= d
  {
    assert (1.0 - alpha) * d >= 0.0;
  }

  /** The identity rotation leaves a vector where it is. */
  lemma IdentityFixes(r: Mat3, v: V3)
    requires r == Identity
    ensures Apply(r, v) == v
  {
    assert Dot(r.r0, v) == v.x;
    assert Dot(r.r1, v) == v.y;
    assert Dot(r.r2, v) == v.z;
  }

  /** A zero draw, whatever its scale, adds nothing. */
  lemma NoiseFree(v: V3, k: real)
    ensures Add(v, Scale(k, Zero)) == v
  {
  }

  /** Scaling distributes over a sum. */
  lemma ScaleAdd(k: real, a: V3, b: V3)
    ensures Scale(k, Add(a, b)) == Add(Scale(k, a), Scale(k, b))
  {
    assert k * (a.x + b.x) == k * a.x + k * b.x;
    assert k * (a.y + b.y) == k * a.y + k * b.y;
    assert k * (a.z + b.z) == k * a.z + k * b.z;
  }
}
