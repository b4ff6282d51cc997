// The register-level enumerations of the MPU9250 model
// (simulators/imu_sim/lib/enums.py) and their integer codes. Each `...Of`
// lookup is Python's `Enum(value)` call: it finds the member with that code,
// or fails, as Python does with ValueError.

module ImuEnums {
  import opened Wrappers

  datatype AccelerometerRange = Accel2G | Accel4G | Accel8G | Accel16G

  datatype GyroscopeRange = Gyro250Dps | Gyro500Dps | Gyro1000Dps | Gyro2000Dps

  datatype MagnetometerRange = Mag14Bits | Mag16Bits

  datatype MagnetometerMode = PowerDown | Single | Cont8Hz | Cont100Hz

  datatype Dlpf = Bypass | Active

  /** The code of an accelerometer range; looking it up gives the range back. */
  function AccelRangeCode(r: AccelerometerRange): (c: int)
    ensures AccelRangeOf(c) == Some(r)
  {
    match r
    case Accel2G => 1
    case Accel4G => 2
    case Accel8G => 4
    case Accel16G => 8
  }

  /** `AccelerometerRange(code)`: the range with this code, if any. */
  function AccelRangeOf(c: int): (r: Option<AccelerometerRange>)
    ensures r.Some? <==> c in {1, 2, 4, 8}
  {
    if c == 1 then Some(Accel2G)
    else if c == 2 then Some(Accel4G)
    else if c == 4 then Some(Accel8G)
    else if c == 8 then Some(Accel16G)
    else None
  }

  /** The code of a gyroscope range; looking it up gives the range back. */
  function GyroRangeCode(r: GyroscopeRange): (c: int)
    ensures GyroRangeOf(c) == Some(r)
  {
    match r
    case Gyro250Dps => 1
    case Gyro500Dps => 2
    case Gyro1000Dps => 4
    case Gyro2000Dps => 8
  }

  /** `GyroscopeRange(code)`. */
  function GyroRangeOf(c: int): (r: Option<GyroscopeRange>)
    ensures r.Some? <==> c in {1, 2, 4, 8}
  {
    if c == 1 then Some(Gyro250Dps)
    else if c == 2 then Some(Gyro500Dps)
    else if c == 4 then Some(Gyro1000Dps)
    else if c == 8 then Some(Gyro2000Dps)
    else None
  }

  /** The code of a magnetometer output width; looking it up gives the width back. */
  function MagRangeCode(r: MagnetometerRange): (c: int)
    ensures MagRangeOf(c) == Some(r)
  {
    match r
    case Mag14Bits => 1
    case Mag16Bits => 2
  }

  /** `MagnetometerRange(code)`. */
  function MagRangeOf(c: int): (r: Option<MagnetometerRange>)
    ensures r.Some? <==> c in {1, 2}
  {
    if c == 1 then Some(Mag14Bits) else if c == 2 then Some(Mag16Bits) else None
  }

  /** The code of a magnetometer mode; looking it up gives the mode back. */
  function MagModeCode(m: MagnetometerMode): (c: int)
    ensures MagModeOf(c) == Some(m)
  {
    match m
    case PowerDown => 1
    case Single => 2
    case Cont8Hz => 3
    case Cont100Hz => 4
  }

  /** `MagnetometerMode(code)`. */
  function MagModeOf(c: int): (r: Option<MagnetometerMode>)
    ensures r.Some? <==> c in {1, 2, 3, 4}
  {
    if c == 1 then Some(PowerDown)
    else if c == 2 then Some(Single)
    else if c == 3 then Some(Cont8Hz)
    else if c == 4 then Some(Cont100Hz)
    else None
  }

  /** The code of a digital low-pass filter setting; looking it up gives the setting back. */
  function DlpfCode(d: Dlpf): (c: int)
    ensures DlpfOf(c) == Some(d)
  {
    match d
    case Bypass => 0
    case Active => 1
  }

  /** `DLPF(code)`. */
  function DlpfOf(c: int): (r: Option<Dlpf>)
    ensures r.Some? <==> c in {0, 1}
  {
    if c == 0 then Some(Bypass) else if c == 1 then Some(Active) else None
  }

  /** A code that a lookup accepts is the code of the member it finds, for every enumeration. */
  lemma CodesInvert(c: int)
    ensures AccelRangeOf(c).Some? ==> AccelRangeCode(AccelRangeOf(c).value) == c
    ensures GyroRangeOf(c).Some? ==> GyroRangeCode(GyroRangeOf(c).value) == c
    ensures MagRangeOf(c).Some? ==> MagRangeCode(MagRangeOf(c).value) == c
    ensures MagModeOf(c).Some? ==> MagModeCode(MagModeOf(c).value) == c
    ensures DlpfOf(c).Some? ==> DlpfCode(DlpfOf(c).value) == c
  {
  }
}
