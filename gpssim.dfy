// The GPS receiver simulator `NEOM8N` (simulators/gps_sim/lib/gps_sim.py):
// an object holding the validated settings, the sampling state (whether the
// noise generator was initialised, the time of the last sample), and the
// operations that read the configuration, draw a sample and simulate a run.
//
// The noise generator is the caller's: each sample consumes four standard
// normal draws, which the sampler scales by the configured deviations, as
// `Generator.normal(0, sigma)` does. Number formatting (`f"{x:.6f}"`) is a
// parameter, and so are the trigonometry and the motion provider.

module GpsSim {
  import opened Wrappers
  import opened Json
  import opened Text
  import opened Geodesy
  import opened GpsSettings
  import Scenarios
  import Nmea
  import PyMath

  /** One fix: position in degrees and metres, speed in knots, course in degrees, climb rate in m/s. */
  datatype Fix = Fix(lat: real, lon: real, alt: real, speedKnots: real, courseDeg: real, climb: real)

  /** What `sample` returns: the noisy measurement, the truth it was drawn around, the framed sentences. */
  datatype Reading = Reading(meas: Fix, truth: Fix, nmea: seq<string>)

  /**
   * The noise generator as one sample sees it: `normal(k, sigma)` is the
   * value of its `k`-th call `rng.normal(0.0, sigma)` (0 latitude,
   * 1 longitude, 2 altitude, 3 speed).
   */
  type Normal = (nat, real) -> real

  /** `format(x, f"0{width}.{decimals}f")`, or without the zero padding when `width` is 0. */
  type Format = (real, nat, nat) -> string

  /** The sentence types the sampler knows. */
  datatype Sentence = GGA | RMC | VTG

  const MsToKnots: real := 1.94384
  const MetresPerDegree: real := 111111.0

  /** The sentence type a configured name selects, compared in upper case; None for a name the sampler skips. */
  function KindOf(name: string): (r: Option<Sentence>)
    ensures r == Some(GGA) <==> Upper(name) == "GGA"
    ensures r == Some(RMC) <==> Upper(name) == "RMC"
    ensures r == Some(VTG) <==> Upper(name) == "VTG"
  {
    var u := Upper(name);
    if u == "GGA" then Some(GGA) else if u == "RMC" then Some(RMC) else if u == "VTG" then Some(VTG) else None
  }

  /** The configured names the sampler emits a sentence for, in configured order. */
  function Selected(names: seq<string>): seq<Sentence> {
    if names == [] then []
    else (if KindOf(names[0]).Some? then [KindOf(names[0]).value] else []) + Selected(names[1..])
  }

  /** How many of the configured names are known sentence types. */
  function KnownCount(names: seq<string>): nat {
    if names == [] then 0 else (if KindOf(names[0]).Some? then 1 else 0) + KnownCount(names[1..])
  }

  /** `f"{n:02d}"` for a non-negative number: its decimal digits, zero-padded to two. */
  function Pad02(n: nat): (r: string)
    ensures AllDigits(r)
    ensures n < 100 ==> |r| == 2 && DigitsValue(r) == n
  {
    var d := Decimal(n);
    if |d| < 2 then "0" + d else d
  }

  /** The decimal digits of `n`, without leading zeros. */
  function Decimal(n: nat): (r: string)
    ensures |r| >= 1 && AllDigits(r) && DigitsValue(r) == n
    ensures n < 10 <==> |r| == 1
    ensures 10 <= n < 100 ==> |r| == 2
  {
    if n < 10 then [('0' as int + n) as char]
    else
      var r := Decimal(n / 10) + [('0' as int + n % 10) as char];
      assert r[..|r| - 1] == Decimal(n / 10);
      r
  }

  /** The fields of a sentence separated by commas. */
  function Fields(f: seq<string>): string {
    if f == [] then "" else if |f| == 1 then f[0] else f[0] + "," + Fields(f[1..])
  }

  /** The fields of the body of a sentence of type `k` at time `t`; every value in it is the truth, not the measurement. */
  function BodyFields(k: Sentence, s: Settings, t: real, truth: Fix, fmt: Format): (r: seq<string>)
    ensures |r| > 1 && r[0] == Tag(k)
  {
    match k
    case GGA =>
      ["GPGGA", fmt(truth.lat, 0, 6), fmt(truth.lon, 0, 6), "1", Pad02(if s.numSvs < 0 then 0 else s.numSvs),
       fmt(s.hdop, 0, 1), fmt(truth.alt, 0, 1), "M", "0.0", "M", "", ""]
    case RMC =>
      ["GPRMC", fmt(t, 6, 1), "A", fmt(truth.lat, 0, 6), "N", fmt(truth.lon, 0, 6), "E",
       fmt(truth.speedKnots, 0, 1), fmt(truth.courseDeg, 0, 1), "000000", "", ""]
    case VTG =>
      ["GPVTG", fmt(truth.courseDeg, 0, 1), "T", "", "M", fmt(truth.speedKnots, 0, 1), "N",
       fmt(truth.speedKnots * 1.852, 0, 1), "K"]
  }

  /** The body of a sentence: its fields separated by commas. */
  function Body(k: Sentence, s: Settings, t: real, truth: Fix, fmt: Format): string {
    Fields(BodyFields(k, s, t, truth, fmt))
  }

  /** The framed sentences for the selected types, in order. */
  function Frames(kinds: seq<Sentence>, s: Settings, t: real, truth: Fix, fmt: Format): (r: seq<string>)
    ensures |r| == |kinds|
  {
    if kinds == [] then []
    else [Nmea.Framed(Body(kinds[0], s, t, truth, fmt), s.nmeaTerm)] + Frames(kinds[1..], s, t, truth, fmt)
  }

  /** The true motion at `t`: from the provider when one is given, otherwise from the scenario at the configured altitude. */
  function Truth(sc: Scenarios.Scenario, s: Settings, t: real, provider: Option<real -> Fix>): (r: Fix)
    requires |sc.points| > 0
    ensures provider.Some? ==> r == provider.value(t)
    ensures provider.None? ==> var (lat, lon, speed, heading) := Scenarios.StateAt(sc, t);
      r.lat == lat && r.lon == lon && r.alt == s.initialAlt && r.speedKnots == speed * MsToKnots &&
      r.courseDeg == heading && r.climb == 0.0
  {
    if provider.Some? then provider.value(t)
    else
      var (lat, lon, speed, heading) := Scenarios.StateAt(sc, t);
      Fix(lat, lon, s.initialAlt, speed * MsToKnots, heading, 0.0)
  }

  /** The measurement: the truth plus each draw scaled by its deviation; course and climb are copied. */
  function Measure(s: Settings, truth: Fix, normal: Normal, geo: Geo): Fix {
    var lonScale := MetresPerDegree * PyMath.Max(geo.cos(truth.lat * PyMath.Pi / 180.0), 0.000001);
    Fix(truth.lat + normal(0, s.posNoiseM / MetresPerDegree), truth.lon + normal(1, s.posNoiseM / lonScale),
        truth.alt + normal(2, s.altNoiseM), truth.speedKnots + normal(3, s.velNoiseMS * MsToKnots),
        truth.courseDeg, truth.climb)
  }

  /** `sample` past its guards: the whole reading at `t`. */
  function ReadingAt(sc: Scenarios.Scenario, s: Settings, t: real, provider: Option<real -> Fix>, normal: Normal, geo: Geo, fmt: Format): Reading
    requires |sc.points| > 0
  {
    var truth := Truth(sc, s, t, provider);
    Reading(Measure(s, truth, normal, geo), truth, Frames(Selected(s.nmeaSentences), s, t, truth, fmt))
  }

  /** The guards of `sample`: RuntimeError before `init_sim`, ValueError when time runs backwards. */
  function SampleGuard(initialised: bool, lastT: Option<real>, t: real): (r: Option<PyError>)
    ensures r == Some(RuntimeError) <==> !initialised
    ensures r == Some(ValueError) <==> initialised && lastT.Some? && t < lastT.value
    ensures r.None? <==> initialised && (lastT.None? || lastT.value <= t)
  {
    if !initialised then Some(RuntimeError)
    else if lastT.Some? && t < lastT.value then Some(ValueError)
    else None
  }

  /** `math.floor(update_rate_hz * duration) + 1`: the number of samples `simulate` asks for. */
  function SampleCount(rate: real, duration: real): int {
    (rate * duration).Floor + 1
  }

  /** The i-th time of `np.linspace(0, (n - 1) / rate, n)`. */
  function SampleTime(rate: real, i: nat): (r: real)
    requires rate > 0.0
    ensures r >= 0.0 && (i == 0 ==> r == 0.0)
  {
    i as real / rate
  }

  class NEOM8N {
    /** Whether a configuration path was given. */
    const hasConfig: bool
    /** The route the samples follow when no motion provider is given. */
    const scenario: Scenarios.Scenario
    var settings: Settings
    /** Whether `init_sim` has created the noise generator. */
    var initialised: bool
    var lastT: Option<real>

    predicate Valid()
      reads this
    {
      GpsSettings.Valid(settings) && |scenario.points| > 0
    }

    /** The constructor: the defaults, no noise generator, no sample yet, and the scenario loaded from its file. */
    constructor (hasConfig: bool, data: Option<Scenarios.ScenarioData>, geo: Geo)
      ensures Valid()
      ensures this.hasConfig == hasConfig && settings == Defaults && !initialised && lastT.None?
      ensures scenario.points == if data.Some? && |data.value.points| > 0 then data.value.points else [Scenarios.Origin]
    {
      var sc := Scenarios.Load(data, geo);
      this.hasConfig := hasConfig;
      scenario := sc;
      settings := Defaults;
      initialised := false;
      lastT := None;
    }

    /**
     * A property setter: the value is stored when the setter accepts it; a
     * refused value leaves what the setter stored before raising.
     */
    method Set(p: Property, v: Json, repr: Json -> string) returns (err: Option<PyError>)
      requires Valid() && Representable(p, v)
      modifies this
      ensures Valid()
      ensures Assign(old(settings), p, v, repr).Success? ==> err.None? && settings == Assign(old(settings), p, v, repr).value
      ensures Assign(old(settings), p, v, repr).Failure? ==>
        err == Some(Assign(old(settings), p, v, repr).error) && settings == Refused(old(settings), p, v, repr)
      ensures initialised == old(initialised) && lastT == old(lastT)
    {
      var r := Assign(settings, p, v, repr);
      if r.Failure? {
        RefusedFrame(settings, p, v, repr);
        settings := Refused(settings, p, v, repr);
        return Some(r.error);
      }
      AssignValid(settings, p, v, repr);
      settings := r.value;
      err := None;
    }

    /** One line of `read_config`: read the option (its parse error propagates), then assign it through the setter. */
    method ReadLine(g: map<string, string>, k: nat, repr: Json -> string) returns (err: Option<PyError>)
      requires Valid() && k < Steps && TermModelled(g)
      modifies this
      ensures Valid()
      ensures ConfigStep(old(settings), g, k, repr).Success? ==> err.None? && settings == ConfigStep(old(settings), g, k, repr).value
      ensures ConfigStep(old(settings), g, k, repr).Failure? ==> err == Some(ConfigStep(old(settings), g, k, repr).error) && settings == old(settings)
      ensures initialised == old(initialised) && lastT == old(lastT)
    {
      var v := ConfigValue(settings, g, k);
      if v.Failure? {
        return Some(v.error);
      }
      var (p, x) := v.value;
      assert k == 15 && "nmea_term" !in g ==> Unescape(x.s).Some? by {
        if k == 15 && "nmea_term" !in g { PlainTerm("\r\n"); }
      }
      err := Set(p, x, repr);
    }

    /**
     * `read_config`: nothing happens without a configuration path or without
     * a `[gps]` section (a file that cannot be read has no sections);
     * otherwise the lines run in order and the first exception ends it, the
     * properties set before it kept. The eighteen assignments are taken one
     * per turn of a loop over the line number `k` of `ConfigValue`.
     */
    method ReadConfig(sections: map<string, map<string, string>>, repr: Json -> string) returns (err: Option<PyError>)
      requires Valid() && ("gps" in sections ==> TermModelled(sections["gps"]))
      modifies this
      ensures Valid()
      ensures !hasConfig || "gps" !in sections ==> err.None? && settings == old(settings)
      ensures hasConfig && "gps" in sections ==> (err, settings) == Configured(old(settings), sections["gps"], 0, repr)
      ensures initialised == old(initialised) && lastT == old(lastT)
    {
      if !hasConfig || "gps" !in sections {
        return None;
      }
      var g := sections["gps"];
      ghost var total := Configured(settings, g, 0, repr);
      var k := 0;
      while k < Steps
        invariant 0 <= k <= Steps && Valid()
        invariant Configured(settings, g, k, repr) == total
        invariant initialised == old(initialised) && lastT == old(lastT)
      {
        err := ReadLine(g, k, repr);
        if err.Some? {
          return;
        }
        k := k + 1;
      }
      err := None;
    }

    /** `init_sim`: create the noise generator and forget the last sample time. */
    method InitSim()
      modifies this
      ensures initialised && lastT.None? && settings == old(settings)
    {
      initialised := true;
      lastT := None;
    }

    /**
     * `sample(t)`: the guards, then the reading at `t` with the draws `z`;
     * a sample that passes the guards records `t` as the last sample time.
     */
    method Sample(t: real, provider: Option<real -> Fix>, normal: Normal, geo: Geo, fmt: Format) returns (r: Result<Reading>)
      requires Valid()
      modifies this
      ensures Valid() && settings == old(settings) && initialised == old(initialised)
      ensures SampleGuard(old(initialised), old(lastT), t).Some? ==>
        r == Failure(SampleGuard(old(initialised), old(lastT), t).value) && lastT == old(lastT)
      ensures SampleGuard(old(initialised), old(lastT), t).None? ==>
        r == Success(ReadingAt(scenario, settings, t, provider, normal, geo, fmt)) && lastT == Some(t)
    {
      if !initialised {
        return Failure(RuntimeError);
      }
      if lastT.Some? && t < lastT.value {
        return Failure(ValueError);
      }
      lastT := Some(t);
      var truth := Truth(scenario, settings, t, provider);
      var meas := Measure(settings, truth, normal, geo);
      var nmea := Sentences(settings, t, truth, fmt);
      return Success(Reading(meas, truth, nmea));
    }

    /**
     * `simulate(duration)`: `n` samples for the sample count `n` (a negative
     * count makes `linspace` raise ValueError), at the times `i / update_rate_hz`,
     * in order, with the draws `noise(i)`; the first exception of a sample ends the run.
     */
    method Simulate(duration: real, provider: Option<real -> Fix>, noise: nat -> Normal, geo: Geo, fmt: Format)
      returns (r: Result<(seq<real>, seq<Reading>)>)
      requires Valid()
      modifies this
      ensures Valid() && settings == old(settings) && initialised == old(initialised)
      ensures SampleCount(settings.updateRateHz, duration) < 0 ==> r == Failure(ValueError) && lastT == old(lastT)
      ensures SampleCount(settings.updateRateHz, duration) >= 0 ==>
        RunOutcome(old(initialised), old(lastT), lastT, SampleCount(settings.updateRateHz, duration), settings.updateRateHz, r) &&
        (r.Success? ==> r.value == (Times(settings.updateRateHz, SampleCount(settings.updateRateHz, duration)),
          Run(scenario, settings, settings.updateRateHz, provider, noise, geo, fmt, SampleCount(settings.updateRateHz, duration))))
    {
      var n := SampleCount(settings.updateRateHz, duration);
      if n < 0 {
        return Failure(ValueError);
      }
      r := SampleRun(n, provider, noise, geo, fmt);
    }

    /** The loop of `simulate` over `n` sample times. */
    method SampleRun(n: nat, provider: Option<real -> Fix>, noise: nat -> Normal, geo: Geo, fmt: Format)
      returns (r: Result<(seq<real>, seq<Reading>)>)
      requires Valid()
      modifies this
      ensures Valid() && settings == old(settings) && initialised == old(initialised)
      ensures RunOutcome(old(initialised), old(lastT), lastT, n, settings.updateRateHz, r)
      ensures r.Success? ==> r.value == (Times(settings.updateRateHz, n), Run(scenario, settings, settings.updateRateHz, provider, noise, geo, fmt, n))
    {
      var rate := settings.updateRateHz;
      ghost var st := settings;
      var times := [];
      var readings := [];
      for i := 0 to n
        invariant Valid() && settings == st && initialised == old(initialised)
        invariant times == Times(rate, i) && readings == Run(scenario, st, rate, provider, noise, geo, fmt, i)
        invariant i == 0 ==> lastT == old(lastT)
        invariant i > 0 ==> lastT == Some(SampleTime(rate, i - 1)) && SampleGuard(old(initialised), old(lastT), 0.0).None?
      {
        var err;
        err, times, readings := SampleNext(rate, i, times, readings, provider, noise, geo, fmt);
        if err.Some? {
          return Failure(err.value);
        }
      }
      return Success((times, readings));
    }

    /** One turn of the loop of `simulate`: sample at the `i`-th time and append the time and the reading. */
    method SampleNext(rate: real, i: nat, times: seq<real>, readings: seq<Reading>, provider: Option<real -> Fix>, noise: nat -> Normal, geo: Geo, fmt: Format)
      returns (err: Option<PyError>, times': seq<real>, readings': seq<Reading>)
      requires Valid() && rate == settings.updateRateHz
      requires times == Times(rate, i) && readings == Run(scenario, settings, rate, provider, noise, geo, fmt, i)
      requires i > 0 ==> initialised && lastT == Some(SampleTime(rate, i - 1))
      modifies this
      ensures Valid() && settings == old(settings) && initialised == old(initialised)
      ensures err.Some? ==> i == 0 && err == SampleGuard(old(initialised), old(lastT), 0.0) && lastT == old(lastT)
      ensures err.None? ==> (SampleGuard(old(initialised), old(lastT), SampleTime(rate, i)).None? && lastT == Some(SampleTime(rate, i)) &&
        times' == Times(rate, i + 1) && readings' == Run(scenario, settings, rate, provider, noise, geo, fmt, i + 1))
    {
      var ti := SampleTime(rate, i);
      if i > 0 {
        LaterSample(rate, i);
      }
      var s := Sample(ti, provider, noise(i), geo, fmt);
      if s.Failure? {
        return Some(s.error), times, readings;
      }
      return None, times + [ti], readings + [s.value];
    }
  }

  /** The sentence loop of `sample`: one framed sentence per configured name of a known type, in order. */
  method Sentences(s: Settings, t: real, truth: Fix, fmt: Format) returns (nmea: seq<string>)
    ensures nmea == Frames(Selected(s.nmeaSentences), s, t, truth, fmt)
  {
    nmea := [];
    var names := s.nmeaSentences;
    for i := 0 to |names|
      invariant nmea == Frames(Selected(names[..i]), s, t, truth, fmt)
    {
      SentenceStep(names, i, s, t, truth, fmt);
      var kind := KindOf(names[i]);
      if kind.None? {
        continue;
      }
      var framed := Nmea.WithChecksum(Body(kind.value, s, t, truth, fmt), s.nmeaTerm);
      nmea := nmea + [framed];
    }
    assert names[..|names|] == names;
  }

  /** One more configured name adds its sentence when its type is known, and nothing otherwise. */
  lemma SentenceStep(names: seq<string>, i: nat, s: Settings, t: real, truth: Fix, fmt: Format)
    requires i < |names|
    ensures KindOf(names[i]).None? ==> Frames(Selected(names[..i + 1]), s, t, truth, fmt) == Frames(Selected(names[..i]), s, t, truth, fmt)
    ensures KindOf(names[i]).Some? ==> (Frames(Selected(names[..i + 1]), s, t, truth, fmt) ==
      Frames(Selected(names[..i]), s, t, truth, fmt) + [Nmea.Framed(Body(KindOf(names[i]).value, s, t, truth, fmt), s.nmeaTerm)])
  {
    assert names[..i + 1] == names[..i] + [names[i]];
    SelectedAppend(names[..i], names[i]);
    var kind := KindOf(names[i]);
    if kind.None? {
      assert Selected(names[..i]) + [] == Selected(names[..i]);
    } else {
      FramesAppend(Selected(names[..i]), [kind.value], s, t, truth, fmt);
      assert [kind.value][1..] == [];
    }
  }

  /** Selecting from a longer list selects from the shorter one, then from the added name. */
  lemma {:induction false} SelectedAppend(names: seq<string>, name: string)
    ensures Selected(names + [name]) == Selected(names) + (if KindOf(name).Some? then [KindOf(name).value] else [])
  {
    if names != [] {
      assert (names + [name])[1..] == names[1..] + [name];
      SelectedAppend(names[1..], name);
    }
  }

  /** The sentences of two lists of types one after the other are those of the joined list. */
  lemma {:induction false} FramesAppend(a: seq<Sentence>, b: seq<Sentence>, s: Settings, t: real, truth: Fix, fmt: Format)
    ensures Frames(a + b, s, t, truth, fmt) == Frames(a, s, t, truth, fmt) + Frames(b, s, t, truth, fmt)
  {
    if a != [] {
      assert (a + b)[1..] == a[1..] + b;
      FramesAppend(a[1..], b, s, t, truth, fmt);
    } else {
      assert a + b == b;
    }
  }

  /** The first `n` sample times of `simulate`. */
  function Times(rate: real, n: nat): seq<real>
    requires rate > 0.0
  {
    if n == 0 then [] else Times(rate, n - 1) + [SampleTime(rate, n - 1)]
  }

  /** The first `n` readings of `simulate`: reading `j` at the `j`-th sample time with the `j`-th draws. */
  function Run(sc: Scenarios.Scenario, s: Settings, rate: real, provider: Option<real -> Fix>, noise: nat -> Normal, geo: Geo, fmt: Format, n: nat): seq<Reading>
    requires |sc.points| > 0 && rate > 0.0
  {
    if n == 0 then [] else Run(sc, s, rate, provider, noise, geo, fmt, n - 1) + [ReadingAt(sc, s, SampleTime(rate, n - 1), provider, noise(n - 1), geo, fmt)]
  }

  /** The sample times of `simulate`: `n` of them, `j / rate` in place `j`. */
  lemma {:induction false} TimesShape(rate: real, n: nat)
    requires rate > 0.0
    ensures |Times(rate, n)| == n
    ensures forall j :: 0 <= j < n ==> Times(rate, n)[j] == SampleTime(rate, j)
  {
    if n > 0 {
      TimesShape(rate, n - 1);
    }
  }

  /** The sample times of `simulate` strictly increase from 0. */
  lemma TimesIncrease(rate: real, n: nat)
    requires rate > 0.0
    ensures |Times(rate, n)| == n
    ensures forall j :: 0 < j < n ==> Times(rate, n)[j - 1] < Times(rate, n)[j]
    ensures n > 0 ==> Times(rate, n)[0] == 0.0
  {
    TimesShape(rate, n);
    forall j | 0 < j < n
      ensures Times(rate, n)[j - 1] < Times(rate, n)[j]
    {
      Slower(rate, j);
    }
  }

  lemma Slower(rate: real, j: nat)
    requires rate > 0.0 && j > 0
    ensures (j - 1) as real / rate < j as real / rate
  {
    assert (j - 1) as real < j as real;
  }

  /**
   * How a run of `n` samples ends: with no sample nothing changes; otherwise
   * only the first sample, at time 0, can meet a guard, and a run that
   * passes it ends with the last sample time recorded.
   */
  predicate RunOutcome(initialised: bool, lastT: Option<real>, lastT': Option<real>, n: nat, rate: real, r: Result<(seq<real>, seq<Reading>)>)
    requires rate > 0.0
  {
    if n == 0 then r.Success? && lastT' == lastT
    else
      match SampleGuard(initialised, lastT, 0.0)
      case Some(e) => r == Failure(e) && lastT' == lastT
      case None => r.Success? && lastT' == Some(SampleTime(rate, n - 1))
  }

  /** The sample times of `simulate` never decrease, so no sample after the first meets the time guard. */
  lemma LaterSample(rate: real, i: nat)
    requires rate > 0.0 && i > 0
    ensures SampleTime(rate, i - 1) <= SampleTime(rate, i)
    ensures 0.0 <= SampleTime(rate, i - 1)
  {
    assert (i - 1) as real <= i as real;
  }

  /** The noise generator returns 0 whenever its deviation is 0, as `normal(0.0, 0.0)` does. */
  ghost predicate Silent(normal: Normal) {
    forall k: nat :: normal(k, 0.0) == 0.0
  }

  /**
   * Additive noise: course and climb are always copied from the truth, and
   * with all three noise levels at 0 the measurement is the truth.
   */
  lemma MeasureNoise(s: Settings, truth: Fix, normal: Normal, geo: Geo)
    ensures Measure(s, truth, normal, geo).courseDeg == truth.courseDeg
    ensures Measure(s, truth, normal, geo).climb == truth.climb
    ensures Silent(normal) && s.posNoiseM == 0.0 && s.altNoiseM == 0.0 && s.velNoiseMS == 0.0 ==>
      Measure(s, truth, normal, geo) == truth
  {
    var lonScale := MetresPerDegree * PyMath.Max(geo.cos(truth.lat * PyMath.Pi / 180.0), 0.000001);
    assert lonScale > 0.0;
  }

  /** With a motion provider and no noise, a sample measures exactly what the provider reports. */
  lemma ProviderWithoutNoise(sc: Scenarios.Scenario, s: Settings, t: real, f: real -> Fix, normal: Normal, geo: Geo, fmt: Format)
    requires |sc.points| > 0 && Silent(normal) && s.posNoiseM == 0.0 && s.altNoiseM == 0.0 && s.velNoiseMS == 0.0
    ensures ReadingAt(sc, s, t, Some(f), normal, geo, fmt).meas == f(t)
    ensures ReadingAt(sc, s, t, Some(f), normal, geo, fmt).truth == f(t)
  {
    MeasureNoise(s, f(t), normal, geo);
  }

  /** Exactly one sentence per configured name of a known type. */
  lemma {:induction false} SelectedCount(names: seq<string>)
    ensures |Selected(names)| == KnownCount(names)
    ensures KnownCount(names) <= |names|
  {
    if names != [] {
      SelectedCount(names[1..]);
    }
  }

  /** The selection keeps configured order: a name's type comes after the types of the names before it. */
  lemma {:induction false} SelectedSplit(a: seq<string>, b: seq<string>)
    ensures Selected(a + b) == Selected(a) + Selected(b)
  {
    if a == [] {
      assert a + b == b;
    } else {
      assert (a + b)[1..] == a[1..] + b;
      SelectedSplit(a[1..], b);
    }
  }

  /** The talker and type tag a sentence of type `k` starts with. */
  function Tag(k: Sentence): string {
    match k case GGA => "GPGGA" case RMC => "GPRMC" case VTG => "GPVTG"
  }

  /** Every framed sentence starts with '$', its tag and a comma. */
  lemma FrameStart(k: Sentence, s: Settings, t: real, truth: Fix, fmt: Format)
    ensures var f := Nmea.Framed(Body(k, s, t, truth, fmt), s.nmeaTerm); |f| >= 7 && f[..7] == "$" + Tag(k) + ","
  {
    FramedHead(BodyFields(k, s, t, truth, fmt), s.nmeaTerm);
  }

  /** A framed list of fields starts with '$', the first field and a comma. */
  lemma FramedHead(fields: seq<string>, term: string)
    requires |fields| > 1
    ensures var f := Nmea.Framed(Fields(fields), term); |f| >= |fields[0]| + 2 && f[..|fields[0]| + 2] == "$" + fields[0] + ","
  {
    var body := Fields(fields);
    var f := Nmea.Framed(body, term);
    FieldsHead(fields);
    Nmea.FramedPrefix(body, term);
    assert f[..|fields[0]| + 2] == [f[0]] + f[1..|fields[0]| + 2];
    assert f[1..|fields[0]| + 2] == body[..|fields[0]| + 1];
  }

  /** Fields after the first are preceded by the first and a comma. */
  lemma FieldsHead(f: seq<string>)
    requires |f| > 1
    ensures |Fields(f)| > |f[0]| && Fields(f)[..|f[0]| + 1] == f[0] + ","
  {
    assert Fields(f) == (f[0] + ",") + Fields(f[1..]);
  }

  /** The sentences of a configuration listing GGA only: one GGA sentence and no other. */
  lemma OnlyGga(s: Settings, t: real, truth: Fix, fmt: Format)
    requires s.nmeaSentences == ["GGA"]
    ensures var n := Frames(Selected(s.nmeaSentences), s, t, truth, fmt); |n| == 1 && n[0][..7] == "$GPGGA,"
  {
    GgaClean();
    assert Selected(["GGA"]) == [GGA] by { assert ["GGA"][1..] == []; }
    assert [GGA][1..] == [];
    FrameStart(GGA, s, t, truth, fmt);
  }

  /** Unknown names are skipped: the default list and a mixed-case list with an unknown name. */
  lemma SelectionExamples()
    ensures Selected(["gga", "XYZ", "Vtg", "rmc"]) == [GGA, VTG, RMC]
    ensures Selected(["GSV"]) == []
  {
    KindExamples();
    var l := ["gga", "XYZ", "Vtg", "rmc"];
    assert Selected(l[3..]) == [RMC] by { assert l[3..][1..] == []; }
    assert Selected(l[2..]) == [VTG, RMC] by { assert l[2..][1..] == l[3..]; }
    assert Selected(l[1..]) == [VTG, RMC] by { assert l[1..][1..] == l[2..]; }
    assert ["GSV"][1..] == [];
  }

  /** Type names are matched without regard to case; other names are no type. */
  lemma KindExamples()
    ensures KindOf("gga") == Some(GGA) && KindOf("Vtg") == Some(VTG) && KindOf("rmc") == Some(RMC)
    ensures KindOf("XYZ").None? && KindOf("GSV").None?
  {
    assert Upper("gga") == "GGA";
    assert Upper("XYZ") == "XYZ";
    assert Upper("Vtg") == "VTG";
    assert Upper("rmc") == "RMC";
    assert Upper("GSV") == "GSV";
  }



  /** Formatted numbers are ASCII and hold no '*': digits, a sign, a point, "nan" or "inf". */
  ghost predicate PlainFormat(fmt: Format) {
    forall x: real, w: nat, d: nat :: Plain(fmt(x, w, d))
  }

  predicate Plain(s: string) {
    Nmea.IsAscii(s) && '*' !in s
  }

  lemma PlainJoin(a: string, b: string)
    requires Plain(a) && Plain(b)
    ensures Plain(a + b)
  {
    assert forall i :: 0 <= i < |a + b| ==> (a + b)[i] == if i < |a| then a[i] else b[i - |a|];
  }

  /** Plain fields make a plain body. */
  lemma {:induction false} FieldsPlain(f: seq<string>)
    requires forall i :: 0 <= i < |f| ==> Plain(f[i])
    ensures Plain(Fields(f))
  {
    if |f| > 1 {
      FieldsPlain(f[1..]);
      PlainJoin(f[0], ",");
      PlainJoin(f[0] + ",", Fields(f[1..]));
    }
  }

  /** With plain number formatting, every sentence body is ASCII and holds no '*'. */
  lemma BodyPlain(k: Sentence, s: Settings, t: real, truth: Fix, fmt: Format)
    requires PlainFormat(fmt)
    ensures Plain(Body(k, s, t, truth, fmt))
  {
    var p := Pad02(if s.numSvs < 0 then 0 else s.numSvs);
    assert Plain(p);
    match k {
      case GGA => KindFieldsPlain(GGA, s, t, truth, fmt, p);
      case RMC => KindFieldsPlain(RMC, s, t, truth, fmt, p);
      case VTG => KindFieldsPlain(VTG, s, t, truth, fmt, p);
    }
    FieldsPlain(BodyFields(k, s, t, truth, fmt));
  }

  /** Every field of the body of one sentence type is plain. */
  lemma KindFieldsPlain(k: Sentence, s: Settings, t: real, truth: Fix, fmt: Format, p: string)
    requires PlainFormat(fmt) && p == Pad02(if s.numSvs < 0 then 0 else s.numSvs) && Plain(p)
    ensures var f := BodyFields(k, s, t, truth, fmt); forall i :: 0 <= i < |f| ==> Plain(f[i])
  {
    var f := BodyFields(k, s, t, truth, fmt);
    forall i | 0 <= i < |f|
      ensures Plain(f[i])
    {
      LiteralPlain(f[i], fmt, p);
    }
  }

  /** Every field of a sentence body is a literal of letters and digits, a formatted number or the satellite count. */
  lemma LiteralPlain(x: string, fmt: Format, p: string)
    requires PlainFormat(fmt) && Plain(p)
    requires x in {"GPGGA", "GPRMC", "GPVTG", "1", "M", "0.0", "", "A", "N", "E", "000000", "T", "K", p} ||
             exists y: real, w: nat, d: nat :: x == fmt(y, w, d)
    ensures Plain(x)
  {
  }

  /** The checksum property of one framed sentence whose body is plain. */
  predicate ChecksumHolds(f: string) {
    var star := FirstIndexOf(f, '*');
    1 <= star && star + 3 <= |f| && f[0] == '$' &&
    f[star + 1..star + 3] == Nmea.Hex02(Nmea.XorOf(f[1..star]) as nat)
  }

  /** Every sentence framed from a list of types carries a checksum the receiver can recompute. */
  lemma FramesChecksums(kinds: seq<Sentence>, s: Settings, t: real, truth: Fix, fmt: Format)
    requires PlainFormat(fmt)
    ensures var n := Frames(kinds, s, t, truth, fmt); forall i :: 0 <= i < |n| ==> ChecksumHolds(n[i])
  {
    var n := Frames(kinds, s, t, truth, fmt);
    FramesAt(kinds, s, t, truth, fmt);
    forall i | 0 <= i < |n|
      ensures ChecksumHolds(n[i])
    {
      var b := Body(kinds[i], s, t, truth, fmt);
      BodyPlain(kinds[i], s, t, truth, fmt);
      Nmea.ChecksumRecomputed(b, s.nmeaTerm);
    }
  }

  /**
   * What the checksum test recomputes, for every sentence of a reading: the
   * text between '$' and the first '*' is the body, and the two hexadecimal
   * digits after the '*' are its checksum.
   */
  lemma ReadingChecksums(sc: Scenarios.Scenario, s: Settings, t: real, provider: Option<real -> Fix>, normal: Normal, geo: Geo, fmt: Format)
    requires |sc.points| > 0 && PlainFormat(fmt)
    ensures var n := ReadingAt(sc, s, t, provider, normal, geo, fmt).nmea; forall i :: 0 <= i < |n| ==> ChecksumHolds(n[i])
  {
    var truth := Truth(sc, s, t, provider);
    assert ReadingAt(sc, s, t, provider, normal, geo, fmt).nmea == Frames(Selected(s.nmeaSentences), s, t, truth, fmt);
    FramesChecksums(Selected(s.nmeaSentences), s, t, truth, fmt);
  }

  /** Sentence `i` of a list of types is the framed body of type `i`. */
  lemma {:induction false} FramesAt(kinds: seq<Sentence>, s: Settings, t: real, truth: Fix, fmt: Format)
    ensures forall i :: 0 <= i < |kinds| ==> Frames(kinds, s, t, truth, fmt)[i] == Nmea.Framed(Body(kinds[i], s, t, truth, fmt), s.nmeaTerm)
  {
    if kinds != [] {
      FramesAt(kinds[1..], s, t, truth, fmt);
    }
  }
}
