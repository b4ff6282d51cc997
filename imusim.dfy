// The MPU9250 facade (simulators/imu_sim/lib/imu_sim.py). It covers:
//   - validating property setters and the sample rates and sensitivities they derive;
//   - per-sensor initialisation;
//   - sampling through a primed first-order low-pass filter, with saturation and int16 counts;
//   - `simulate`.
//
// These are inputs:
//   - the motion provider and the world-to-sensor rotation it returns;
//   - the standard normal draws of the three noise generators
//     (`normal(0, sigma)` is `sigma` times a draw; numpy refuses a negative sigma).
// Generator seeds only choose the draws, so they do not appear.

module ImuSim {
  import opened Wrappers
  import opened Json
  import opened ImuEnums
  import opened Vectors
  import PyMath

  const Gravity := 9.80665

  // ---------------------------------------------------------------------------
  // Settings and their setters

  /** A member of any of the five enumerations. */
  datatype Member =
    | AccelRangeMember(ar: AccelerometerRange)
    | GyroRangeMember(gr: GyroscopeRange)
    | MagRangeMember(mr: MagnetometerRange)
    | MagModeMember(mm: MagnetometerMode)
    | DlpfMember(d: Dlpf)

  /** A value assigned to a property: an enumeration member, or any other Python value. */
  datatype Arg = Enum(m: Member) | Plain(v: Json)

  /**
   * The value holds no non-finite float, which exact reals cannot represent.
   * Ints too large for a float are represented and accepted, although
   * `float()` raises OverflowError for them.
   */
  predicate Finite(arg: Arg) {
    arg.Plain? ==>
      !arg.v.JNonFinite? && (arg.v.JArr? ==> forall i :: 0 <= i < |arg.v.items| ==> !arg.v.items[i].JNonFinite?)
  }

  /** The assignable properties of `MPU9250`. */
  datatype Property =
    | AccelRange | AccelDlpf | AccelBias | AccelNoiseDensity | AccelSmplrtDiv
    | GyroRange | GyroDlpf | GyroBias | GyroNoiseDensity | GyroSmplrtDiv
    | MagRange | MagMode | MagBias | MagNoiseDensity | MagWorld

  /** The configuration attributes of `MPU9250`, derived rates and sensitivity included. */
  datatype Settings = Settings(
    accelRange: AccelerometerRange, accelDlpf: Option<Dlpf>, accelBias: V3, accelNoiseDensity: real,
    accelSmplrtDiv: Option<int>, accelOdrHz: real,
    gyroRange: GyroscopeRange, gyroDlpf: Option<Dlpf>, gyroBias: V3, gyroNoiseDensity: real,
    gyroSmplrtDiv: Option<int>, gyroOdrHz: real,
    magRange: MagnetometerRange, magMode: MagnetometerMode, magBias: V3, magNoiseDensity: real,
    magWorld: V3, magOdrHz: real, magCps: real)

  /** The values `__init__` assigns. */
  const Defaults := Settings(
    Accel2G, None, Zero, 0.0, None, 0.0,
    Gyro250Dps, None, Zero, 0.0, None, 0.0,
    Mag16Bits, Cont100Hz, Zero, 0.0, V3(20.0, 0.0, 40.0), 100.0, 1.0 / 0.15)

  /** The accelerometer output rate for a filter setting and a divider: 1 kHz behind the filter, 4 kHz in bypass, divided by `div + 1`. */
  function AccelOdr(d: Dlpf, div: nat): (r: real)
    ensures r > 0.0
    ensures r * (div + 1) as real == if d == Active then 1000.0 else 4000.0
  {
    (if d == Active then 1000.0 else 4000.0) / (div + 1) as real
  }

  /** The gyroscope output rate: 1 kHz behind the filter, 32 kHz in bypass, divided by `div + 1`. */
  function GyroOdr(d: Dlpf, div: nat): (r: real)
    ensures r > 0.0
    ensures r * (div + 1) as real == if d == Active then 1000.0 else 32000.0
  {
    (if d == Active then 1000.0 else 32000.0) / (div + 1) as real
  }

  /** The magnetometer output rate of a mode; zero exactly in the two non-continuous modes. */
  function MagOdr(m: MagnetometerMode): (r: real)
    ensures r >= 0.0
    ensures r == 0.0 <==> m == PowerDown || m == Single
  {
    match m
    case PowerDown => 0.0
    case Single => 0.0
    case Cont8Hz => 8.0
    case Cont100Hz => 100.0
  }

  /** Counts per microtesla: one count per 0.6 uT at 14 bits, per 0.15 uT otherwise. */
  function MagCps(r: MagnetometerRange): (c: real)
    ensures c > 0.0
    ensures c * (if r == Mag14Bits then 0.6 else 0.15) == 1.0
  {
    1.0 / (if r == Mag14Bits then 0.6 else 0.15)
  }

  /**
   * What the settings always satisfy:
   *   - the magnetometer rate and sensitivity follow its mode and width;
   *   - the magnetometer noise density is never negative;
   *   - each of the accelerometer and gyroscope rates is zero until a divider is set;
   *     after that it is the rate of that divider under one of the two filter settings.
   */
  ghost predicate Valid(s: Settings) {
    s.magOdrHz == MagOdr(s.magMode) && s.magCps == MagCps(s.magRange) && s.magNoiseDensity >= 0.0 &&
    (s.accelSmplrtDiv.None? ==> s.accelOdrHz == 0.0) &&
    (s.accelSmplrtDiv.Some? ==>
      s.accelSmplrtDiv.value >= 0 &&
      (s.accelOdrHz == AccelOdr(Bypass, s.accelSmplrtDiv.value) || s.accelOdrHz == AccelOdr(Active, s.accelSmplrtDiv.value))) &&
    (s.gyroSmplrtDiv.None? ==> s.gyroOdrHz == 0.0) &&
    (s.gyroSmplrtDiv.Some? ==>
      s.gyroSmplrtDiv.value >= 0 &&
      (s.gyroOdrHz == GyroOdr(Bypass, s.gyroSmplrtDiv.value) || s.gyroOdrHz == GyroOdr(Active, s.gyroSmplrtDiv.value)))
  }

  function PickAccelRange(m: Member): Option<AccelerometerRange> {
    if m.AccelRangeMember? then Some(m.ar) else None
  }

  function PickGyroRange(m: Member): Option<GyroscopeRange> {
    if m.GyroRangeMember? then Some(m.gr) else None
  }

  function PickMagRange(m: Member): Option<MagnetometerRange> {
    if m.MagRangeMember? then Some(m.mr) else None
  }

  function PickMagMode(m: Member): Option<MagnetometerMode> {
    if m.MagModeMember? then Some(m.mm) else None
  }

  function PickDlpf(m: Member): Option<Dlpf> {
    if m.DlpfMember? then Some(m.d) else None
  }

  /**
   * An enumeration setter's coercion: a member of the enumeration is taken
   * as it is, an int is looked up by code (ValueError for an unknown code),
   * anything else is a TypeError.
   */
  function EnumArg<E>(arg: Arg, pick: Member -> Option<E>, lookup: int -> Option<E>): Result<E> {
    if arg.Enum? && pick(arg.m).Some? then Success(pick(arg.m).value)
    else if arg.Plain? && IsInt(arg.v) then
      if lookup(IntOf(arg.v)).Some? then Success(lookup(IntOf(arg.v)).value) else Failure(ValueError)
    else Failure(TypeError)
  }

  /** A list or tuple of exactly three numbers. */
  predicate IsTriple(arg: Arg) {
    arg.Plain? && arg.v.JArr? && |arg.v.items| == 3 &&
    IsNumber(arg.v.items[0]) && IsNumber(arg.v.items[1]) && IsNumber(arg.v.items[2])
  }

  /** `[float(v) for v in val]` of a triple. */
  function Triple(arg: Arg): V3
    requires IsTriple(arg) && Finite(arg)
  {
    V3(NumValue(arg.v.items[0]), NumValue(arg.v.items[1]), NumValue(arg.v.items[2]))
  }

  /** A vector setter's check: a triple, or TypeError. */
  function VectorArg(arg: Arg): Result<V3>
    requires Finite(arg)
  {
    if IsTriple(arg) then Success(Triple(arg)) else Failure(TypeError)
  }

  /** A numeric setter's check: `float(val)` of an int or float, or TypeError. */
  function NumberArg(arg: Arg): Result<real>
    requires Finite(arg)
  {
    if arg.Plain? && IsNumber(arg.v) then Success(NumValue(arg.v)) else Failure(TypeError)
  }

  /** A divider setter's type check: a non-negative int. */
  predicate IsDivider(arg: Arg) {
    arg.Plain? && IsInt(arg.v) && IntOf(arg.v) >= 0
  }

  /** The setter of property `p` applied to `arg`: the new settings, or the exception it raises. */
  function Assign(s: Settings, p: Property, arg: Arg): Result<Settings>
    requires Finite(arg)
  {
    match p
    case AccelRange =>
      var r := EnumArg(arg, PickAccelRange, AccelRangeOf);
      if r.Failure? then Failure(r.error) else Success(s.(accelRange := r.value))
    case AccelDlpf =>
      var r := EnumArg(arg, PickDlpf, DlpfOf);
      if r.Failure? then Failure(r.error) else Success(s.(accelDlpf := Some(r.value)))
    case AccelBias =>
      var r := VectorArg(arg);
      if r.Failure? then Failure(r.error) else Success(s.(accelBias := r.value))
    case AccelNoiseDensity =>
      var r := NumberArg(arg);
      if r.Failure? then Failure(r.error) else Success(s.(accelNoiseDensity := r.value))
    case AccelSmplrtDiv =>
      if s.accelDlpf.None? then Failure(ValueError)
      else if !IsDivider(arg) then Failure(TypeError)
      else if s.accelDlpf.value == Bypass && IntOf(arg.v) % 4 != 0 then Failure(ValueError)
      else Success(s.(accelSmplrtDiv := Some(IntOf(arg.v)), accelOdrHz := AccelOdr(s.accelDlpf.value, IntOf(arg.v))))
    case GyroRange =>
      var r := EnumArg(arg, PickGyroRange, GyroRangeOf);
      if r.Failure? then Failure(r.error) else Success(s.(gyroRange := r.value))
    case GyroDlpf =>
      var r := EnumArg(arg, PickDlpf, DlpfOf);
      if r.Failure? then Failure(r.error) else Success(s.(gyroDlpf := Some(r.value)))
    case GyroBias =>
      var r := VectorArg(arg);
      if r.Failure? then Failure(r.error) else Success(s.(gyroBias := r.value))
    case GyroNoiseDensity =>
      var r := NumberArg(arg);
      if r.Failure? then Failure(r.error) else Success(s.(gyroNoiseDensity := r.value))
    case GyroSmplrtDiv =>
      if s.gyroDlpf.None? then Failure(ValueError)
      else if !IsDivider(arg) then Failure(TypeError)
      else Success(s.(gyroSmplrtDiv := Some(IntOf(arg.v)), gyroOdrHz := GyroOdr(s.gyroDlpf.value, IntOf(arg.v))))
    case MagRange =>
      var r := EnumArg(arg, PickMagRange, MagRangeOf);
      if r.Failure? then Failure(r.error) else Success(s.(magRange := r.value, magCps := MagCps(r.value)))
    case MagMode =>
      var r := EnumArg(arg, PickMagMode, MagModeOf);
      if r.Failure? then Failure(r.error) else Success(s.(magMode := r.value, magOdrHz := MagOdr(r.value)))
    case MagBias =>
      var r := VectorArg(arg);
      if r.Failure? then Failure(r.error) else Success(s.(magBias := r.value))
    case MagNoiseDensity =>
      var r := NumberArg(arg);
      if r.Failure? then Failure(r.error)
      else if r.value < 0.0 then Failure(TypeError)
      else Success(s.(magNoiseDensity := r.value))
    case MagWorld =>
      var r := VectorArg(arg);
      if r.Failure? then Failure(r.error) else Success(s.(magWorld := r.value))
  }

  // ---------------------------------------------------------------------------
  // Sensor state

  datatype Sensor = Accel | Gyro | Mag

  /** The filter attributes `_x_alpha`, `_x_prev` and `_x_initialized` of one sensor. */
  datatype Lpf = Lpf(alpha: Option<real>, prev: V3, initialized: bool)

  /**
   * One sensor's simulation state: whether its generator `_rng_x` exists,
   * and its filter attributes once an initialisation has got as far as
   * setting them.
   */
  datatype Channel = Channel(seeded: bool, lpf: Option<Lpf>)

  datatype Channels = Channels(accel: Channel, gyro: Channel, mag: Channel)

  const Unseeded := Channels(Channel(false, None), Channel(false, None), Channel(false, None))

  function ChannelOf(c: Channels, sensor: Sensor): Channel {
    match sensor
    case Accel => c.accel
    case Gyro => c.gyro
    case Mag => c.mag
  }

  function WithChannel(c: Channels, sensor: Sensor, ch: Channel): (r: Channels)
    ensures ChannelOf(r, sensor) == ch
    ensures forall other :: other != sensor ==> ChannelOf(r, other) == ChannelOf(c, other)
  {
    match sensor
    case Accel => c.(accel := ch)
    case Gyro => c.(gyro := ch)
    case Mag => c.(mag := ch)
  }

  /**
   * `_lpf_alpha`: no filter for a cutoff at or below zero; otherwise
   * `dt / (rc + dt)` with `dt = 1 / fs` and `rc = 1 / (2 pi cutoff)`, and a
   * ZeroDivisionError for a zero rate.
   */
  function LpfAlpha(cutHz: real, fsHz: real): (r: Result<Option<real>>)
    ensures r.Success? && r.value.None? <==> cutHz <= 0.0
    ensures fsHz >= 0.0 ==> (r.Failure? <==> cutHz > 0.0 && fsHz == 0.0)
    ensures r.Failure? ==> r.error == ZeroDivisionError
  {
    if cutHz <= 0.0 then Success(None)
    else if fsHz == 0.0 then Failure(ZeroDivisionError)
    else
      var dt := 1.0 / fsHz;
      var rc := 1.0 / (2.0 * PyMath.Pi * cutHz);
      if rc + dt == 0.0 then Failure(ZeroDivisionError) else Success(Some(dt / (rc + dt)))
  }

  /** `lpf_cut_hz or 0.0`. */
  function CutOr0(cutHz: Option<real>): real {
    if cutHz.Some? then cutHz.value else 0.0
  }

  /** The rate `init_x_sim` hands to `_lpf_alpha`; a stopped magnetometer is taken as 1 Hz. */
  function InitRate(s: Settings, sensor: Sensor): real {
    match sensor
    case Accel => s.accelOdrHz
    case Gyro => s.gyroOdrHz
    case Mag => if s.magOdrHz != 0.0 then s.magOdrHz else 1.0
  }

  /**
   * `init_x_sim`: the generator is created first, so a ZeroDivisionError
   * from the coefficient leaves the sensor seeded with its old filter
   * attributes. Success installs the coefficient and an unprimed zero state.
   */
  function InitSensor(s: Settings, c: Channels, sensor: Sensor, cutHz: Option<real>): (Channels, Outcome) {
    var ch := ChannelOf(c, sensor);
    var alpha := LpfAlpha(CutOr0(cutHz), InitRate(s, sensor));
    if alpha.Failure? then (WithChannel(c, sensor, ch.(seeded := true)), Fail(alpha.error))
    else (WithChannel(c, sensor, Channel(true, Some(Lpf(alpha.value, Zero, false)))), Pass)
  }

  /**
   * `init_all_sims`: RuntimeError without touching any sensor when the
   * magnetometer is not in a continuous mode; otherwise the accelerometer,
   * the gyroscope and the unfiltered magnetometer in turn, up to the first
   * failure.
   */
  function InitAll(s: Settings, c: Channels, accelCut: Option<real>, gyroCut: Option<real>): (Channels, Outcome) {
    if s.magMode == PowerDown || s.magMode == Single then (c, Fail(RuntimeError))
    else
      var (c1, o1) := InitSensor(s, c, Accel, accelCut);
      if o1.Fail? then (c1, o1)
      else
        var (c2, o2) := InitSensor(s, c1, Gyro, gyroCut);
        if o2.Fail? then (c2, o2) else InitSensor(s, c2, Mag, None)
  }

  // ---------------------------------------------------------------------------
  // Sampling

  /** What a motion provider returns for a time: linear acceleration (m/s^2), angular rate (dps), world-to-sensor rotation. */
  datatype Motion = Motion(aLin: V3, omega: V3, r: Mat3)

  function NoiseDensity(s: Settings, sensor: Sensor): real {
    match sensor
    case Accel => s.accelNoiseDensity
    case Gyro => s.gyroNoiseDensity
    case Mag => s.magNoiseDensity
  }

  /**
   * Why `sample_x` raises before it changes anything:
   *   - RuntimeError: the sensor was never initialised;
   *   - ValueError: numpy refuses a negative noise deviation;
   *   - AttributeError: an initialisation failed before it set the filter attributes.
   */
  function SampleGuard(s: Settings, sensor: Sensor, ch: Channel): Option<PyError> {
    if !ch.seeded then Some(RuntimeError)
    else if NoiseDensity(s, sensor) < 0.0 then Some(ValueError)
    else if ch.lpf.None? then Some(AttributeError)
    else None
  }

  /**
   * The value entering the filter, noise included, for the draws `z`:
   *   - the accelerometer senses the linear acceleration plus gravity, in g;
   *   - the gyroscope senses the rate;
   *   - the magnetometer senses the configured world field;
   * each rotated into the sensor frame, with its bias added.
   */
  function Input(s: Settings, sensor: Sensor, m: Motion, z: V3): V3 {
    match sensor
    case Accel =>
      Add(Add(Scale(1.0 / Gravity, Apply(m.r, Add(m.aLin, V3(0.0, 0.0, Gravity)))), s.accelBias), Scale(s.accelNoiseDensity, z))
    case Gyro => Add(Add(Apply(m.r, m.omega), s.gyroBias), Scale(s.gyroNoiseDensity, z))
    case Mag => Add(Add(Apply(m.r, s.magWorld), s.magBias), Scale(s.magNoiseDensity, z))
  }

  /**
   * The filter block of `sample_x`:
   *   - without a coefficient the input passes;
   *   - the first filtered input primes the state;
   *   - later inputs move the state by `alpha * (x - prev)`.
   * Returns the new filter state and the filtered value.
   */
  function Filter(lpf: Lpf, x: V3): (Lpf, V3) {
    if lpf.alpha.None? then (lpf, x)
    else if lpf.initialized then
      var p := BlendV(lpf.alpha.value, lpf.prev, x);
      (lpf.(prev := p), p)
    else (lpf.(prev := x, initialized := true), x)
  }

  /** `_range_g`. */
  function RangeG(r: AccelerometerRange): (g: real)
    ensures g > 0.0
  {
    match r
    case Accel2G => 2.0
    case Accel4G => 4.0
    case Accel8G => 8.0
    case Accel16G => 16.0
  }

  /** `_range_dps`. */
  function RangeDps(r: GyroscopeRange): (d: real)
    ensures d > 0.0
  {
    match r
    case Gyro250Dps => 250.0
    case Gyro500Dps => 500.0
    case Gyro1000Dps => 1000.0
    case Gyro2000Dps => 2000.0
  }

  /** The full-scale range of a clipped sensor. */
  function FullScale(s: Settings, sensor: Sensor): (f: real)
    requires sensor != Mag
    ensures f > 0.0
  {
    if sensor == Accel then RangeG(s.accelRange) else RangeDps(s.gyroRange)
  }

  /**
   * The counts and the physical value `sample_x` returns for the filtered
   * value `y`. Accelerometer and gyroscope values are clipped to the full
   * scale and counted at 32768 per full scale; magnetometer values are not
   * clipped and are counted with the configured sensitivity.
   */
  function Output(s: Settings, sensor: Sensor, y: V3): (Counts, V3) {
    if sensor == Mag then (QuantizeV(y, s.magCps), y)
    else
      var f := FullScale(s, sensor);
      var v := ClipV(y, -f, f);
      (QuantizeV(v, 32768.0 / f), v)
  }

  /** One sample of a sensor that passes its guard: the new channel state and the returned counts and value. */
  function Step(s: Settings, sensor: Sensor, ch: Channel, m: Motion, z: V3): (r: (Channel, (Counts, V3)))
    requires SampleGuard(s, sensor, ch).None?
    ensures SampleGuard(s, sensor, r.0).None?
    ensures r.0.lpf.value.alpha == ch.lpf.value.alpha
  {
    var (lpf, y) := Filter(ch.lpf.value, Input(s, sensor, m, z));
    (ch.(lpf := Some(lpf)), Output(s, sensor, y))
  }

  // ---------------------------------------------------------------------------
  // simulate

  function Odr(s: Settings, sensor: Sensor): real {
    match sensor
    case Accel => s.accelOdrHz
    case Gyro => s.gyroOdrHz
    case Mag => s.magOdrHz
  }

  /** `math.floor(odr * duration) + 1`. */
  function SampleCount(odr: real, duration: real): int {
    (odr * duration).Floor + 1
  }

  /** `n` sample times, the i-th at `i / odr`. */
  predicate Timed(t: seq<real>, odr: real, n: int) {
    |t| == n && forall i :: 0 <= i < n ==> t[i] * odr == i as real
  }

  /**
   * `np.linspace(0.0, (n - 1) / odr, n)`: `n` times `i / odr`, after the
   * ZeroDivisionError of a zero rate and the ValueError of a negative count.
   */
  function TimeAxis(odr: real, n: int): (r: Result<seq<real>>)
    ensures r.Failure? <==> odr == 0.0 || n < 0
    ensures r.Failure? ==> r.error == if odr == 0.0 then ZeroDivisionError else ValueError
    ensures r.Success? ==> Timed(r.value, odr, n)
  {
    if odr == 0.0 then Failure(ZeroDivisionError)
    else if n < 0 then Failure(ValueError)
    else Success(seq(n, i requires 0 <= i < n => i as real / odr))
  }

  /**
   * `n` samples of one sensor from the channel `ch`, at the times `i / odr`
   * with the draws `z(i)`: the channel reached and the physical values.
   */
  function Run(s: Settings, sensor: Sensor, ch: Channel, motion: real -> Motion, z: nat -> V3, odr: real, n: nat): (r: (Channel, seq<V3>))
    requires odr != 0.0
    requires n > 0 ==> SampleGuard(s, sensor, ch).None?
    ensures |r.1| == n
    ensures n > 0 ==> SampleGuard(s, sensor, r.0).None? && r.0.lpf.value.alpha == ch.lpf.value.alpha
    ensures n == 0 ==> r.0 == ch
  {
    if n == 0 then (ch, [])
    else
      var (c, ms) := Run(s, sensor, ch, motion, z, odr, n - 1);
      var (c', out) := Step(s, sensor, c, motion((n - 1) as real / odr), z(n - 1));
      (c', ms + [out.1])
  }

  /**
   * One sampling loop of `simulate`: a sensor that fails its guard fails on
   * its first sample and changes nothing; otherwise all `n` samples run.
   */
  function Phase(s: Settings, c: Channels, sensor: Sensor, motion: real -> Motion, z: nat -> V3, n: nat): (r: (Channels, Result<seq<V3>>))
    requires Odr(s, sensor) != 0.0
    ensures r.1.Success? ==> |r.1.value| == n
  {
    var ch := ChannelOf(c, sensor);
    if n > 0 && SampleGuard(s, sensor, ch).Some? then (c, Failure(SampleGuard(s, sensor, ch).value))
    else
      var (ch', ms) := Run(s, sensor, ch, motion, z, Odr(s, sensor), n);
      (WithChannel(c, sensor, ch'), Success(ms))
  }

  datatype Trace = Trace(t: seq<real>, meas: seq<V3>)

  datatype SimOutput = SimOutput(accel: Trace, gyro: Trace, mag: Trace)

  /** A trace of `n` samples at the rate `odr`. */
  predicate Shaped(tr: Trace, odr: real, n: int) {
    Timed(tr.t, odr, n) && |tr.meas| == n
  }

  /**
   * `simulate(duration, motion)`: the channels it leaves and its result.
   * Steps, in order:
   *   - RuntimeError unless all three sensors were initialised;
   *   - the three time axes;
   *   - the accelerometer, gyroscope and magnetometer loops;
   * stopping at the first exception.
   * A result holds, for each sensor, `floor(odr * duration) + 1` times
   * `i / odr` and as many measurements.
   */
  function Simulated(s: Settings, c: Channels, duration: real, motion: real -> Motion, draws: Sensor -> nat -> V3)
    : (r: (Channels, Result<SimOutput>))
    ensures r.1.Success? ==>
      Shaped(r.1.value.accel, Odr(s, Accel), SampleCount(Odr(s, Accel), duration)) &&
      Shaped(r.1.value.gyro, Odr(s, Gyro), SampleCount(Odr(s, Gyro), duration)) &&
      Shaped(r.1.value.mag, Odr(s, Mag), SampleCount(Odr(s, Mag), duration))
  {
    if !(c.accel.seeded && c.gyro.seeded && c.mag.seeded) then (c, Failure(RuntimeError))
    else
      var tA := TimeAxis(Odr(s, Accel), SampleCount(Odr(s, Accel), duration));
      var tG := TimeAxis(Odr(s, Gyro), SampleCount(Odr(s, Gyro), duration));
      var tM := TimeAxis(Odr(s, Mag), SampleCount(Odr(s, Mag), duration));
      if tA.Failure? then (c, Failure(tA.error))
      else if tG.Failure? then (c, Failure(tG.error))
      else if tM.Failure? then (c, Failure(tM.error))
      else
        var (c1, mA) := Phase(s, c, Accel, motion, draws(Accel), |tA.value|);
        if mA.Failure? then (c1, Failure(mA.error))
        else
          var (c2, mG) := Phase(s, c1, Gyro, motion, draws(Gyro), |tG.value|);
          if mG.Failure? then (c2, Failure(mG.error))
          else
            var (c3, mM) := Phase(s, c2, Mag, motion, draws(Mag), |tM.value|);
            if mM.Failure? then (c3, Failure(mM.error))
            else (c3, Success(SimOutput(Trace(tA.value, mA.value), Trace(tG.value, mG.value), Trace(tM.value, mM.value))))
  }

  // ---------------------------------------------------------------------------
  // The simulator object

  class MPU9250 {
    var settings: Settings
    var chans: Channels

    /** `__init__`: the default settings, no sensor initialised. */
    constructor ()
      ensures settings == Defaults && chans == Unseeded
    {
      settings := Defaults;
      chans := Unseeded;
    }

    /** Assigning property `p`: a refused value raises and leaves every setting as it was. */
    method Set(p: Property, arg: Arg) returns (err: Option<PyError>)
      requires Finite(arg)
      modifies this`settings
      ensures Assign(old(settings), p, arg).Success? ==> err.None? && settings == Assign(old(settings), p, arg).value
      ensures Assign(old(settings), p, arg).Failure? ==> err == Some(Assign(old(settings), p, arg).error) && settings == old(settings)
    {
      var r := Assign(settings, p, arg);
      if r.Failure? {
        return Some(r.error);
      }
      settings := r.value;
      err := None;
    }

    /** `init_accel_sim`, `init_gyro_sim` and `init_mag_sim` (the magnetometer's callers pass no cutoff). */
    method InitSim(sensor: Sensor, cutHz: Option<real>) returns (out: Outcome)
      modifies this`chans
      ensures (chans, out) == InitSensor(settings, old(chans), sensor, cutHz)
    {
      var ch := ChannelOf(chans, sensor);
      chans := WithChannel(chans, sensor, ch.(seeded := true));
      var alpha := LpfAlpha(CutOr0(cutHz), InitRate(settings, sensor));
      if alpha.Failure? {
        return Fail(alpha.error);
      }
      chans := WithChannel(chans, sensor, Channel(true, Some(Lpf(alpha.value, Zero, false))));
      out := Pass;
    }

    /** `init_all_sims`. */
    method InitAllSims(accelCut: Option<real>, gyroCut: Option<real>) returns (out: Outcome)
      modifies this`chans
      ensures (chans, out) == InitAll(settings, old(chans), accelCut, gyroCut)
    {
      if settings.magMode == PowerDown || settings.magMode == Single {
        return Fail(RuntimeError);
      }
      out := InitSim(Accel, accelCut);
      if out.Fail? {
        return;
      }
      out := InitSim(Gyro, gyroCut);
      if out.Fail? {
        return;
      }
      out := InitSim(Mag, None);
    }

    /**
     * `sample_accel`, `sample_gyro` and `sample_mag`: each reads its own part
     * of the motion `m` and its draws `z`; a refused sample changes nothing.
     */
    method Sample(sensor: Sensor, m: Motion, z: V3) returns (r: Result<(Counts, V3)>)
      modifies this`chans
      ensures SampleGuard(settings, sensor, ChannelOf(old(chans), sensor)).Some? ==>
        r == Failure(SampleGuard(settings, sensor, ChannelOf(old(chans), sensor)).value) && chans == old(chans)
      ensures SampleGuard(settings, sensor, ChannelOf(old(chans), sensor)).None? ==>
        var (ch, out) := Step(settings, sensor, ChannelOf(old(chans), sensor), m, z);
        r == Success(out) && chans == WithChannel(old(chans), sensor, ch)
    {
      var ch := ChannelOf(chans, sensor);
      var guard := SampleGuard(settings, sensor, ch);
      if guard.Some? {
        return Failure(guard.value);
      }
      var x := Input(settings, sensor, m, z);
      var lpf := ch.lpf.value;
      var y := x;
      if lpf.alpha.Some? {
        if lpf.initialized {
          lpf := lpf.(prev := BlendV(lpf.alpha.value, lpf.prev, x));
        } else {
          lpf := lpf.(prev := x, initialized := true);
        }
        y := lpf.prev;
      }
      chans := WithChannel(chans, sensor, ch.(lpf := Some(lpf)));
      r := Success(Output(settings, sensor, y));
    }

    /** One sampling loop of `simulate`: `n` samples at the times `i / odr`, stopping at the first exception. */
    method RunSensor(sensor: Sensor, n: nat, motion: real -> Motion, z: nat -> V3) returns (r: Result<seq<V3>>)
      requires Odr(settings, sensor) != 0.0
      modifies this`chans
      ensures (chans, r) == Phase(settings, old(chans), sensor, motion, z, n)
    {
      var odr := Odr(settings, sensor);
      ghost var ch0 := ChannelOf(chans, sensor);
      var ms := [];
      for i := 0 to n
        invariant i > 0 ==> SampleGuard(settings, sensor, ch0).None?
        invariant i == 0 ==> chans == old(chans) && ms == []
        invariant i > 0 ==>
          chans == WithChannel(old(chans), sensor, Run(settings, sensor, ch0, motion, z, odr, i).0) &&
          ms == Run(settings, sensor, ch0, motion, z, odr, i).1
      {
        var out := Sample(sensor, motion(i as real / odr), z(i));
        if out.Failure? {
          return Failure(out.error);
        }
        ms := ms + [out.value.1];
      }
      r := Success(ms);
    }

    /** `simulate(duration, motion_provider)`; `draws(x)` are the draws of sensor `x`'s generator, in order. */
    method Simulate(duration: real, motion: real -> Motion, draws: Sensor -> nat -> V3) returns (r: Result<SimOutput>)
      modifies this`chans
      ensures (chans, r) == Simulated(settings, old(chans), duration, motion, draws)
    {
      if !(chans.accel.seeded && chans.gyro.seeded && chans.mag.seeded) {
        return Failure(RuntimeError);
      }
      var tA := TimeAxis(Odr(settings, Accel), SampleCount(Odr(settings, Accel), duration));
      var tG := TimeAxis(Odr(settings, Gyro), SampleCount(Odr(settings, Gyro), duration));
      var tM := TimeAxis(Odr(settings, Mag), SampleCount(Odr(settings, Mag), duration));
      if tA.Failure? {
        return Failure(tA.error);
      }
      if tG.Failure? {
        return Failure(tG.error);
      }
      if tM.Failure? {
        return Failure(tM.error);
      }
      var mA := RunSensor(Accel, |tA.value|, motion, draws(Accel));
      if mA.Failure? {
        return Failure(mA.error);
      }
      var mG := RunSensor(Gyro, |tG.value|, motion, draws(Gyro));
      if mG.Failure? {
        return Failure(mG.error);
      }
      var mM := RunSensor(Mag, |tM.value|, motion, draws(Mag));
      if mM.Failure? {
        return Failure(mM.error);
      }
      r := Success(SimOutput(Trace(tA.value, mA.value), Trace(tG.value, mG.value), Trace(tM.value, mM.value)));
    }
  }

  // ---------------------------------------------------------------------------
  // Setters

  /**
   * `accel_range`: the range becomes `e` exactly when the value is `e` or its
   * code; an int that is no code is a ValueError, anything else a TypeError.
   */
  lemma AccelRangeSetter(s: Settings, arg: Arg, e: AccelerometerRange)
    requires Finite(arg)
    ensures Assign(s, AccelRange, arg) == Success(s.(accelRange := e)) <==>
      arg == Enum(AccelRangeMember(e)) || (arg.Plain? && IsInt(arg.v) && IntOf(arg.v) == AccelRangeCode(e))
    ensures Assign(s, AccelRange, arg) == Failure(ValueError) <==>
      arg.Plain? && IsInt(arg.v) && IntOf(arg.v) !in {1, 2, 4, 8}
    ensures Assign(s, AccelRange, arg) == Failure(TypeError) <==>
      !(arg.Enum? && arg.m.AccelRangeMember?) && !(arg.Plain? && IsInt(arg.v))
  {
    if arg.Plain? && IsInt(arg.v) {
      CodesInvert(IntOf(arg.v));
    }
  }

  /** `gyro_range`: the range becomes `e` exactly when the value is `e` or its code. */
  lemma GyroRangeSetter(s: Settings, arg: Arg, e: GyroscopeRange)
    requires Finite(arg)
    ensures Assign(s, GyroRange, arg) == Success(s.(gyroRange := e)) <==>
      arg == Enum(GyroRangeMember(e)) || (arg.Plain? && IsInt(arg.v) && IntOf(arg.v) == GyroRangeCode(e))
    ensures Assign(s, GyroRange, arg) == Failure(ValueError) <==>
      arg.Plain? && IsInt(arg.v) && IntOf(arg.v) !in {1, 2, 4, 8}
    ensures Assign(s, GyroRange, arg) == Failure(TypeError) <==>
      !(arg.Enum? && arg.m.GyroRangeMember?) && !(arg.Plain? && IsInt(arg.v))
  {
    if arg.Plain? && IsInt(arg.v) {
      CodesInvert(IntOf(arg.v));
    }
  }

  /**
   * `accel_dlpf` and `gyro_dlpf`: the filter setting becomes `d` exactly when
   * the value is `d` or its code, and the output rate is left as it was, even
   * when it was derived under the other setting.
   */
  lemma DlpfSetters(s: Settings, arg: Arg, d: Dlpf)
    requires Finite(arg)
    ensures Assign(s, AccelDlpf, arg) == Success(s.(accelDlpf := Some(d))) <==>
      arg == Enum(DlpfMember(d)) || (arg.Plain? && IsInt(arg.v) && IntOf(arg.v) == DlpfCode(d))
    ensures Assign(s, GyroDlpf, arg) == Success(s.(gyroDlpf := Some(d))) <==>
      arg == Enum(DlpfMember(d)) || (arg.Plain? && IsInt(arg.v) && IntOf(arg.v) == DlpfCode(d))
    ensures Assign(s, AccelDlpf, arg) == Failure(ValueError) <==> arg.Plain? && IsInt(arg.v) && IntOf(arg.v) !in {0, 1}
    ensures Assign(s, GyroDlpf, arg) == Failure(ValueError) <==> arg.Plain? && IsInt(arg.v) && IntOf(arg.v) !in {0, 1}
    ensures Assign(s, AccelDlpf, arg) == Failure(TypeError) <==> !(arg.Enum? && arg.m.DlpfMember?) && !(arg.Plain? && IsInt(arg.v))
    ensures Assign(s, GyroDlpf, arg) == Failure(TypeError) <==> !(arg.Enum? && arg.m.DlpfMember?) && !(arg.Plain? && IsInt(arg.v))
  {
    if arg.Plain? && IsInt(arg.v) {
      CodesInvert(IntOf(arg.v));
    }
  }

  /** `mag_range`: an accepted width also sets the sensitivity to 1/0.6 counts per uT at 14 bits and 1/0.15 at 16. */
  lemma MagRangeSetter(s: Settings, arg: Arg, w: MagnetometerRange)
    requires Finite(arg)
    ensures Assign(s, MagRange, arg) == Success(s.(magRange := w, magCps := MagCps(w))) <==>
      arg == Enum(MagRangeMember(w)) || (arg.Plain? && IsInt(arg.v) && IntOf(arg.v) == MagRangeCode(w))
    ensures Assign(s, MagRange, arg) == Failure(ValueError) <==> arg.Plain? && IsInt(arg.v) && IntOf(arg.v) !in {1, 2}
    ensures Assign(s, MagRange, arg) == Failure(TypeError) <==>
      !(arg.Enum? && arg.m.MagRangeMember?) && !(arg.Plain? && IsInt(arg.v))
  {
    if arg.Plain? && IsInt(arg.v) {
      CodesInvert(IntOf(arg.v));
    }
  }

  /** `mag_mode`: an accepted mode also sets the output rate from the table, 0 Hz for the two non-continuous modes. */
  lemma MagModeSetter(s: Settings, arg: Arg, m: MagnetometerMode)
    requires Finite(arg)
    ensures Assign(s, MagMode, arg) == Success(s.(magMode := m, magOdrHz := MagOdr(m))) <==>
      arg == Enum(MagModeMember(m)) || (arg.Plain? && IsInt(arg.v) && IntOf(arg.v) == MagModeCode(m))
    ensures Assign(s, MagMode, arg) == Failure(ValueError) <==> arg.Plain? && IsInt(arg.v) && IntOf(arg.v) !in {1, 2, 3, 4}
    ensures Assign(s, MagMode, arg) == Failure(TypeError) <==>
      !(arg.Enum? && arg.m.MagModeMember?) && !(arg.Plain? && IsInt(arg.v))
  {
    if arg.Plain? && IsInt(arg.v) {
      CodesInvert(IntOf(arg.v));
    }
  }

  /** The bias and world-field setters accept exactly a list or tuple of three numbers and change only their own vector. */
  lemma VectorSetters(s: Settings, arg: Arg)
    requires Finite(arg)
    ensures IsTriple(arg) ==>
      Assign(s, AccelBias, arg) == Success(s.(accelBias := Triple(arg))) &&
      Assign(s, GyroBias, arg) == Success(s.(gyroBias := Triple(arg))) &&
      Assign(s, MagBias, arg) == Success(s.(magBias := Triple(arg))) &&
      Assign(s, MagWorld, arg) == Success(s.(magWorld := Triple(arg)))
    ensures !IsTriple(arg) ==>
      Assign(s, AccelBias, arg) == Failure(TypeError) && Assign(s, GyroBias, arg) == Failure(TypeError) &&
      Assign(s, MagBias, arg) == Failure(TypeError) && Assign(s, MagWorld, arg) == Failure(TypeError)
  {
  }

  /**
   * The noise density setters take any number; the magnetometer's refuses a
   * negative one, with TypeError like a non-number.
   */
  lemma NoiseDensitySetters(s: Settings, arg: Arg)
    requires Finite(arg)
    ensures Assign(s, AccelNoiseDensity, arg).Success? <==> arg.Plain? && IsNumber(arg.v)
    ensures Assign(s, GyroNoiseDensity, arg).Success? <==> arg.Plain? && IsNumber(arg.v)
    ensures Assign(s, MagNoiseDensity, arg).Success? <==> arg.Plain? && IsNumber(arg.v) && NumValue(arg.v) >= 0.0
    ensures arg.Plain? && IsNumber(arg.v) ==>
      Assign(s, AccelNoiseDensity, arg) == Success(s.(accelNoiseDensity := NumValue(arg.v))) &&
      Assign(s, GyroNoiseDensity, arg) == Success(s.(gyroNoiseDensity := NumValue(arg.v)))
    ensures Assign(s, MagNoiseDensity, arg).Success? ==> Assign(s, MagNoiseDensity, arg).value == s.(magNoiseDensity := NumValue(arg.v))
    ensures Assign(s, AccelNoiseDensity, arg).Failure? ==> Assign(s, AccelNoiseDensity, arg).error == TypeError
    ensures Assign(s, GyroNoiseDensity, arg).Failure? ==> Assign(s, GyroNoiseDensity, arg).error == TypeError
    ensures Assign(s, MagNoiseDensity, arg).Failure? ==> Assign(s, MagNoiseDensity, arg).error == TypeError
  {
  }

  /**
   * `accel_smplrt_div`:
   *   - ValueError while no filter setting is chosen;
   *   - TypeError for anything but a non-negative int;
   *   - ValueError in bypass for a divider that is not a multiple of 4.
   * Otherwise it stores the divider and sets the output rate so that rate
   * times (divider + 1) is 1 kHz with the filter, 4 kHz in bypass;
   * nothing else changes.
   */
  lemma AccelDividerSetter(s: Settings, arg: Arg)
    requires Finite(arg)
    ensures Assign(s, AccelSmplrtDiv, arg) == Failure(ValueError) <==>
      s.accelDlpf.None? || (s.accelDlpf == Some(Bypass) && IsDivider(arg) && IntOf(arg.v) % 4 != 0)
    ensures Assign(s, AccelSmplrtDiv, arg) == Failure(TypeError) <==> s.accelDlpf.Some? && !IsDivider(arg)
    ensures Assign(s, AccelSmplrtDiv, arg).Success? ==>
      var s' := Assign(s, AccelSmplrtDiv, arg).value;
      var div := IntOf(arg.v);
      s' == s.(accelSmplrtDiv := Some(div), accelOdrHz := s'.accelOdrHz) &&
      s'.accelOdrHz * (div + 1) as real == (if s.accelDlpf == Some(Active) then 1000.0 else 4000.0)
  {
  }

  /** `gyro_smplrt_div`: the same checks without the multiple-of-4 rule, and 32 kHz in bypass. */
  lemma GyroDividerSetter(s: Settings, arg: Arg)
    requires Finite(arg)
    ensures Assign(s, GyroSmplrtDiv, arg) == Failure(ValueError) <==> s.gyroDlpf.None?
    ensures Assign(s, GyroSmplrtDiv, arg) == Failure(TypeError) <==> s.gyroDlpf.Some? && !IsDivider(arg)
    ensures Assign(s, GyroSmplrtDiv, arg).Success? ==>
      var s' := Assign(s, GyroSmplrtDiv, arg).value;
      var div := IntOf(arg.v);
      s' == s.(gyroSmplrtDiv := Some(div), gyroOdrHz := s'.gyroOdrHz) &&
      s'.gyroOdrHz * (div + 1) as real == (if s.gyroDlpf == Some(Active) then 1000.0 else 32000.0)
  {
  }

  /** The defaults satisfy the settings invariant. */
  lemma DefaultsValid()
    ensures Valid(Defaults)
  {
    assert MagCps(Mag16Bits) == 1.0 / 0.15;
  }

  /** Every accepted assignment keeps the settings invariant. */
  lemma AssignKeepsValid(s: Settings, p: Property, arg: Arg)
    requires Finite(arg) && Valid(s)
    ensures Assign(s, p, arg).Success? ==> Valid(Assign(s, p, arg).value)
  {
  }

  // ---------------------------------------------------------------------------
  // Initialisation

  /**
   * A positive cutoff at a positive rate gives a coefficient strictly
   * between 0 and 1, namely `2 pi fc / (2 pi fc + fs)`.
   */
  lemma AlphaInUnit(cutHz: real, fsHz: real)
    requires cutHz > 0.0 && fsHz > 0.0
    ensures LpfAlpha(cutHz, fsHz).Success? && LpfAlpha(cutHz, fsHz).value.Some?
    ensures var a := LpfAlpha(cutHz, fsHz).value.value;
      0.0 < a < 1.0 && a * (2.0 * PyMath.Pi * cutHz + fsHz) == 2.0 * PyMath.Pi * cutHz
  {
    var w := 2.0 * PyMath.Pi * cutHz;
    var dt := 1.0 / fsHz;
    var rc := 1.0 / w;
    assert dt * fsHz == 1.0;
    assert rc * w == 1.0;
    var a := dt / (rc + dt);
    assert a * (rc + dt) == dt;
    assert (rc + dt) * (w * fsHz) == fsHz + w by {
      assert rc * (w * fsHz) == fsHz;
      assert dt * (w * fsHz) == w;
    }
    assert a * (w + fsHz) == w by {
      calc {
        a * (w + fsHz);
        a * ((rc + dt) * (w * fsHz));
        (a * (rc + dt)) * (w * fsHz);
        dt * (w * fsHz);
        w;
      }
    }
  }

  /** The magnetometer's initialisation never fails: a stopped magnetometer is filtered as if it ran at 1 Hz. */
  lemma InitMagSucceeds(s: Settings, c: Channels, cutHz: Option<real>)
    requires Valid(s)
    ensures InitSensor(s, c, Mag, cutHz).1 == Pass
    ensures ChannelOf(InitSensor(s, c, Mag, cutHz).0, Mag).seeded
  {
  }

  /**
   * A failed initialisation leaves the sensor seeded but, if it never had
   * filter attributes, without them: the next sample passes the
   * "not initialised" check and raises AttributeError instead.
   */
  lemma FailedInitThenSample(s: Settings, c: Channels, sensor: Sensor, cutHz: Option<real>)
    requires InitSensor(s, c, sensor, cutHz).1.Fail?
    requires ChannelOf(c, sensor).lpf.None? && NoiseDensity(s, sensor) >= 0.0
    ensures SampleGuard(s, sensor, ChannelOf(InitSensor(s, c, sensor, cutHz).0, sensor)) == Some(AttributeError)
  {
  }

  /**
   * `init_all_sims` raises RuntimeError, touching nothing, exactly when the
   * magnetometer is powered down or in single mode. It succeeds exactly when
   * in addition neither the accelerometer nor the gyroscope asks for a
   * filter at a zero rate. Success leaves all three sensors seeded with
   * fresh unprimed filters, the magnetometer's without a coefficient.
   */
  lemma InitAllOutcome(s: Settings, c: Channels, accelCut: Option<real>, gyroCut: Option<real>)
    requires Valid(s)
    ensures var (c', out) := InitAll(s, c, accelCut, gyroCut);
      (out == Fail(RuntimeError) <==> s.magMode == PowerDown || s.magMode == Single) &&
      (out == Fail(RuntimeError) ==> c' == c)
    ensures var (c', out) := InitAll(s, c, accelCut, gyroCut);
      out == Pass <==>
        s.magMode != PowerDown && s.magMode != Single &&
        !(CutOr0(accelCut) > 0.0 && s.accelOdrHz == 0.0) && !(CutOr0(gyroCut) > 0.0 && s.gyroOdrHz == 0.0)
    ensures var (c', out) := InitAll(s, c, accelCut, gyroCut);
      out == Pass ==>
        c'.accel == Channel(true, Some(Lpf(LpfAlpha(CutOr0(accelCut), s.accelOdrHz).value, Zero, false))) &&
        c'.gyro == Channel(true, Some(Lpf(LpfAlpha(CutOr0(gyroCut), s.gyroOdrHz).value, Zero, false))) &&
        c'.mag == Channel(true, Some(Lpf(None, Zero, false)))
  {
    InitMagSucceeds(s, InitSensor(s, InitSensor(s, c, Accel, accelCut).0, Gyro, gyroCut).0, None);
  }

  // ---------------------------------------------------------------------------
  // Sampling

  /** Sampling a sensor that was never initialised raises RuntimeError. */
  lemma SampleBeforeInit(s: Settings, sensor: Sensor, ch: Channel)
    requires !ch.seeded
    ensures SampleGuard(s, sensor, ch) == Some(RuntimeError)
  {
  }

  /**
   * With a coefficient, the first sample primes the filter with its input and
   * returns it unchanged; every later sample moves the state by
   * `alpha * (x - prev)`, which for a coefficient in [0, 1] keeps each
   * component between the previous state and the input.
   */
  lemma FilterSteps(lpf: Lpf, x: V3)
    requires lpf.alpha.Some?
    ensures !lpf.initialized ==> Filter(lpf, x) == (Lpf(lpf.alpha, x, true), x)
    ensures lpf.initialized ==>
      var (l, y) := Filter(lpf, x);
      var a := lpf.alpha.value;
      l == Lpf(lpf.alpha, y, true) &&
      y.x == (1.0 - a) * lpf.prev.x + a * x.x && y.y == (1.0 - a) * lpf.prev.y + a * x.y && y.z == (1.0 - a) * lpf.prev.z + a * x.z
    ensures lpf.initialized && 0.0 <= lpf.alpha.value <= 1.0 ==>
      var y := Filter(lpf, x).1;
      PyMath.Min(lpf.prev.x, x.x) <= y.x <= PyMath.Max(lpf.prev.x, x.x) &&
      PyMath.Min(lpf.prev.y, x.y) <= y.y <= PyMath.Max(lpf.prev.y, x.y) &&
      PyMath.Min(lpf.prev.z, x.z) <= y.z <= PyMath.Max(lpf.prev.z, x.z)
  {
    if lpf.initialized && 0.0 <= lpf.alpha.value <= 1.0 {
      var a := lpf.alpha.value;
      BlendBetween(a, lpf.prev.x, x.x);
      BlendBetween(a, lpf.prev.y, x.y);
      BlendBetween(a, lpf.prev.z, x.z);
    }
  }

  /** Without a coefficient the filter passes its input and keeps its state. */
  lemma FilterBypassed(lpf: Lpf, x: V3)
    requires lpf.alpha.None?
    ensures Filter(lpf, x) == (lpf, x)
  {
  }

  /** A filter that holds `x` (or is not yet primed) ends holding `x` and returns `x` when `x` comes in. */
  lemma FilterHolds(lpf: Lpf, x: V3)
    requires lpf.alpha.Some? && (lpf.initialized ==> lpf.prev == x)
    ensures Filter(lpf, x) == (Lpf(lpf.alpha, x, true), x)
  {
    if lpf.initialized {
      var a := lpf.alpha.value;
      assert Blend(a, x.x, x.x) == x.x;
      assert Blend(a, x.y, x.y) == x.y;
      assert Blend(a, x.z, x.z) == x.z;
    }
  }

  /**
   * Saturation and quantisation: accelerometer and gyroscope values lie in
   * the full-scale range and equal the filtered value wherever it is in range.
   * Their counts are the rounded value at 32768 counts per full scale,
   * clipped to int16. Magnetometer values are the filtered value, never
   * clipped, with counts at the configured sensitivity.
   */
  lemma OutputBounds(s: Settings, sensor: Sensor, y: V3)
    ensures var (counts, v) := Output(s, sensor, y);
      InInt16(counts) &&
      (sensor == Mag ==> v == y && counts == QuantizeV(y, s.magCps)) &&
      (sensor != Mag ==>
        Within(v, -FullScale(s, sensor), FullScale(s, sensor)) &&
        (Within(y, -FullScale(s, sensor), FullScale(s, sensor)) ==> v == y) &&
        counts == QuantizeV(v, 32768.0 / FullScale(s, sensor)))
  {
  }

  /** At either end of the full-scale range the counts saturate: +range gives 32767 (not 32768) and -range gives -32768. */
  lemma FullScaleCounts(s: Settings, sensor: Sensor)
    requires sensor != Mag
    ensures Quantize(FullScale(s, sensor), 32768.0 / FullScale(s, sensor)) == PyMath.MaxInt16
    ensures Quantize(-FullScale(s, sensor), 32768.0 / FullScale(s, sensor)) == PyMath.MinInt16
  {
    var f := FullScale(s, sensor);
    assert f * (32768.0 / f) == 32768.0;
    assert -f * (32768.0 / f) == -32768.0;
  }

  /**
   * With the identity rotation and no noise the accelerometer reads the
   * linear acceleration in g, plus 1 g up, plus its bias: at rest, 1 g up
   * plus the bias.
   */
  lemma StaticAccel(s: Settings, m: Motion)
    requires m.r == Identity
    ensures Input(s, Accel, m, Zero) == Add(Add(Scale(1.0 / Gravity, m.aLin), V3(0.0, 0.0, 1.0)), s.accelBias)
  {
    var up := V3(0.0, 0.0, Gravity);
    IdentityFixes(m.r, Add(m.aLin, up));
    ScaleAdd(1.0 / Gravity, m.aLin, up);
    Upright(Gravity);
    NoiseFree(Add(Scale(1.0 / Gravity, Apply(m.r, Add(m.aLin, up))), s.accelBias), s.accelNoiseDensity);
  }

  /** Dividing the vertical `g` by `g` gives the unit vertical. */
  lemma Upright(g: real)
    requires g > 0.0
    ensures Scale(1.0 / g, V3(0.0, 0.0, g)) == V3(0.0, 0.0, 1.0)
  {
    assert 1.0 / g * g == 1.0;
  }

  /** With the identity rotation and no noise the gyroscope reads the rotation rate plus its bias. */
  lemma StaticGyro(s: Settings, m: Motion)
    requires m.r == Identity
    ensures Input(s, Gyro, m, Zero) == Add(m.omega, s.gyroBias)
  {
    IdentityFixes(m.r, m.omega);
    NoiseFree(Add(Apply(m.r, m.omega), s.gyroBias), s.gyroNoiseDensity);
  }

  /** With the identity rotation and no noise the magnetometer reads the world field plus its bias, whatever the motion. */
  lemma StaticMag(s: Settings, m: Motion)
    requires m.r == Identity
    ensures Input(s, Mag, m, Zero) == Add(s.magWorld, s.magBias)
  {
    IdentityFixes(m.r, s.magWorld);
    NoiseFree(Add(Apply(m.r, s.magWorld), s.magBias), s.magNoiseDensity);
  }

  /**
   * Under a constant motion and constant draws, a freshly initialised (or
   * already settled) sensor returns the same value at every sample: the
   * output of its constant input.
   */
  lemma {:induction false} RunConstant(s: Settings, sensor: Sensor, ch: Channel, motion: real -> Motion, z: nat -> V3, odr: real, n: nat, m: Motion, zc: V3)
    requires odr != 0.0 && SampleGuard(s, sensor, ch).None?
    requires forall t :: motion(t) == m
    requires forall i :: z(i) == zc
    requires var l := ch.lpf.value; l.initialized ==> l.alpha.Some? && l.prev == Input(s, sensor, m, zc)
    ensures var (c, ms) := Run(s, sensor, ch, motion, z, odr, n);
      var x := Input(s, sensor, m, zc);
      (forall j :: 0 <= j < n ==> ms[j] == Output(s, sensor, x).1) &&
      (c.lpf.value.initialized ==> c.lpf.value.alpha.Some? && c.lpf.value.prev == x)
  {
    if n > 0 {
      RunConstant(s, sensor, ch, motion, z, odr, n - 1, m, zc);
      var prior := Run(s, sensor, ch, motion, z, odr, n - 1);
      var x := Input(s, sensor, m, zc);
      assert motion((n - 1) as real / odr) == m;
      assert z(n - 1) == zc;
      var next := Step(s, sensor, prior.0, m, zc);
      var ms := prior.1 + [next.1.1];
      assert Run(s, sensor, ch, motion, z, odr, n) == (next.0, ms);
      StepHolds(s, sensor, prior.0, m, zc);
      forall j | 0 <= j < n
        ensures ms[j] == Output(s, sensor, x).1
      {
        if j < n - 1 {
          assert ms[j] == prior.1[j];
        }
      }
    }
  }

  /** One sample of a sensor whose filter holds (or has not yet seen) the input keeps holding it and outputs that input. */
  lemma StepHolds(s: Settings, sensor: Sensor, ch: Channel, m: Motion, z: V3)
    requires SampleGuard(s, sensor, ch).None?
    requires var l := ch.lpf.value; l.initialized ==> l.alpha.Some? && l.prev == Input(s, sensor, m, z)
    ensures var (c, out) := Step(s, sensor, ch, m, z);
      var x := Input(s, sensor, m, z);
      out == Output(s, sensor, x) && (c.lpf.value.initialized ==> c.lpf.value.alpha.Some? && c.lpf.value.prev == x)
  {
    if ch.lpf.value.alpha.Some? {
      FilterHolds(ch.lpf.value, Input(s, sensor, m, z));
    }
  }

  // ---------------------------------------------------------------------------
  // simulate

  /**
   * For a positive rate and a non-negative duration there is at least one
   * sample, the last sample time lies within the duration and one more
   * sample would lie past it.
   */
  lemma SampleCountCovers(odr: real, duration: real)
    requires odr > 0.0 && duration >= 0.0
    ensures var n := SampleCount(odr, duration);
      n >= 1 && (n - 1) as real / odr <= duration < n as real / odr
  {
    var n := SampleCount(odr, duration);
    var p := odr * duration;
    assert p >= 0.0;
    assert (n - 1) as real <= p < n as real;
    assert (n - 1) as real / odr <= duration by {
      assert ((n - 1) as real / odr) * odr == (n - 1) as real;
    }
    assert duration < n as real / odr by {
      assert (n as real / odr) * odr == n as real;
    }
  }

  /** The rates and sample counts the tests expect: 200 Hz and 1 kHz from the divider, and 21, 4 and 1 samples. */
  lemma TestRatesAndCounts()
    ensures AccelOdr(Active, 4) == 200.0 && GyroOdr(Active, 4) == 200.0 && AccelOdr(Active, 0) == 1000.0
    ensures MagOdr(Cont100Hz) == 100.0 && MagOdr(Cont8Hz) == 8.0
    ensures SampleCount(200.0, 0.1) == 21 && SampleCount(1000.0, 0.003) == 4 && SampleCount(200.0, 0.003) == 1
  {
  }

  /** `simulate` raises RuntimeError, changing nothing, unless all three sensors were initialised. */
  lemma SimulateBeforeInit(s: Settings, c: Channels, duration: real, motion: real -> Motion, draws: Sensor -> nat -> V3)
    requires !(c.accel.seeded && c.gyro.seeded && c.mag.seeded)
    ensures Simulated(s, c, duration, motion, draws) == (c, Failure(RuntimeError))
  {
  }

  /**
   * A configured IMU simulates without an exception. Configured means:
   *   - valid settings, with both dividers set;
   *   - non-negative noise densities;
   *   - a successful `init_all_sims`.
   * Then a non-negative duration always gives a result.
   */
  lemma ConfiguredSimulates(s: Settings, c: Channels, accelCut: Option<real>, gyroCut: Option<real>,
                            duration: real, motion: real -> Motion, draws: Sensor -> nat -> V3)
    requires Valid(s) && s.accelSmplrtDiv.Some? && s.gyroSmplrtDiv.Some?
    requires s.accelNoiseDensity >= 0.0 && s.gyroNoiseDensity >= 0.0
    requires InitAll(s, c, accelCut, gyroCut).1 == Pass
    requires duration >= 0.0
    ensures Simulated(s, InitAll(s, c, accelCut, gyroCut).0, duration, motion, draws).1.Success?
  {
    InitAllOutcome(s, c, accelCut, gyroCut);
    SampleCountCovers(s.accelOdrHz, duration);
    SampleCountCovers(s.gyroOdrHz, duration);
    SampleCountCovers(s.magOdrHz, duration);
  }
}
