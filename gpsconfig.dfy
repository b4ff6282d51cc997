// The configurable properties of `NEOM8N` (simulators/gps_sim/lib/gps_sim.py)
// on values: what each validating setter accepts and stores, the escape
// decoding of the line terminator, and the `[gps]` section reader.

module GpsSettings {
  import opened Wrappers
  import opened Json
  import opened Text
  import PyMath

  /** Every configurable property of the receiver. */
  datatype Settings = Settings(
    baudrate: int, protocol: string, useUbloxBinary: bool, updateRateHz: real, navRateMs: int,
    fixType: int, numSvs: int, initialLat: real, initialLon: real, initialAlt: real,
    posNoiseM: real, altNoiseM: real, velNoiseMS: real, hdop: real,
    nmeaSentences: seq<string>, nmeaTerm: string, publishRateHz: real, retainMessages: bool)

  /** The defaults set by the constructor. */
  const Defaults := Settings(9600, "nmea", false, 1.0, 1000, 3, 8, 0.0, 0.0, 0.0, 0.0, 0.0, 0.0, 1.0, ["GGA"], "\r\n", 1.0, false)

  /** The property setters. */
  datatype Property =
    | Baudrate | Protocol | UseUbloxBinary | UpdateRateHz | NavRateMs | FixType | NumSvs
    | InitialLat | InitialLon | InitialAlt | InitialPosition | PosNoiseM | AltNoiseM | VelNoiseMS | Hdop
    | NmeaSentences | NmeaTerm | PublishRateHz | RetainMessages

  /** What every setter guarantees about the value it keeps. */
  predicate Valid(s: Settings) {
    s.baudrate > 0 && (s.protocol == "nmea" || s.protocol == "ubx") && s.updateRateHz > 0.0 && s.navRateMs > 0 &&
    0 <= s.fixType <= 3 && 0 < s.numSvs < 100 &&
    -90.0 <= s.initialLat <= 90.0 && -180.0 <= s.initialLon <= 180.0 &&
    s.posNoiseM >= 0.0 && s.altNoiseM >= 0.0 && s.velNoiseMS >= 0.0 && s.hdop > 0.0 &&
    |s.nmeaSentences| > 0 && (forall i :: 0 <= i < |s.nmeaSentences| ==> s.nmeaSentences[i] != "") &&
    s.publishRateHz > 0.0
  }

  /** The escapes of Python's "unicode_escape" codec that stand for one fixed character. */
  function SimpleEscape(c: char): Option<char> {
    match c
    case '\\' => Some('\\')
    case '\'' => Some('\'')
    case '"' => Some('"')
    case 'a' => Some('\U{07}')
    case 'b' => Some('\U{08}')
    case 'f' => Some('\U{0C}')
    case 'n' => Some('\n')
    case 'r' => Some('\r')
    case 't' => Some('\t')
    case 'v' => Some('\U{0B}')
    case _ => None
  }

  predicate IsOctal(c: char) { '0' <= c <= '7' }

  /** A hexadecimal digit of either case and its value. */
  function HexDigit(c: char): Option<nat> {
    if '0' <= c <= '9' then Some(c as int - '0' as int)
    else if 'a' <= c <= 'f' then Some(c as int - 'a' as int + 10)
    else if 'A' <= c <= 'F' then Some(c as int - 'A' as int + 10)
    else None
  }

  function HexRun(s: string): Option<nat> {
    if s == [] then Some(0)
    else
      match (HexRun(s[..|s| - 1]), HexDigit(s[|s| - 1]))
      case (Some(hi), Some(d)) => Some(hi * 16 + d)
      case _ => None
  }

  /** How many octal digits start `s`, at most three. */
  function OctalCount(s: string): (n: nat)
    ensures n <= 3 && n <= |s|
    ensures forall i :: 0 <= i < n ==> IsOctal(s[i])
  {
    if |s| > 0 && IsOctal(s[0]) then
      (if |s| > 1 && IsOctal(s[1]) then (if |s| > 2 && IsOctal(s[2]) then 3 else 2) else 1)
    else 0
  }

  function OctalValue(s: string): (v: nat)
    requires forall i :: 0 <= i < |s| ==> IsOctal(s[i])
    ensures |s| == 0 ==> v == 0
    ensures |s| <= 1 ==> v < 8
    ensures |s| <= 2 ==> v < 64
    ensures |s| <= 3 ==> v < 512
  {
    if s == [] then 0
    else
      assert IsOctal(s[|s| - 1]);
      OctalValue(s[..|s| - 1]) * 8 + (s[|s| - 1] as int - '0' as int)
  }

  function Prepend(p: string, rest: Option<Result<string>>): Option<Result<string>> {
    match rest
    case Some(Success(t)) => Some(Success(p + t))
    case other => other
  }

  /**
   * `s.encode().decode("unicode_escape")` on ASCII text: backslash escapes
   * are decoded, an unknown escape is kept as written, and a truncated one
   * or a trailing backslash is an error (Python's UnicodeDecodeError, a
   * ValueError). None marks what the model leaves out: non-ASCII input,
   * named escapes `\N{...}` and escapes of surrogate code points.
   */
  function Unescape(s: string): Option<Result<string>>
    decreases |s|
  {
    if s == [] then Some(Success(""))
    else if s[0] as int >= 128 then None
    else if s[0] != '\\' then Prepend([s[0]], Unescape(s[1..]))
    else if |s| == 1 then Some(Failure(ValueError))
    else
      var c := s[1];
      if c as int >= 128 then None
      else if c == '\n' then Unescape(s[2..])
      else if SimpleEscape(c).Some? then Prepend([SimpleEscape(c).value], Unescape(s[2..]))
      else if IsOctal(c) then
        var n := OctalCount(s[1..]);
        Prepend([OctalValue(s[1..1 + n]) as char], Unescape(s[1 + n..]))
      else if c == 'x' || c == 'u' || c == 'U' then
        var w := if c == 'x' then 2 else if c == 'u' then 4 else 8;
        if |s| < 2 + w || HexRun(s[2..2 + w]).None? then Some(Failure(ValueError))
        else
          var v := HexRun(s[2..2 + w]).value;
          if v > 0x10FFFF then Some(Failure(ValueError))
          else if 0xD800 <= v < 0xE000 then None
          else Prepend([v as char], Unescape(s[2 + w..]))
      else if c == 'N' then None
      else Prepend(['\\', c], Unescape(s[2..]))
  }

  /** ASCII text without a backslash decodes to itself. */
  lemma {:induction false} PlainTerm(s: string)
    requires '\\' !in s && forall i :: 0 <= i < |s| ==> s[i] as int < 128
    ensures Unescape(s) == Some(Success(s))
    decreases |s|
  {
    if s != [] {
      PlainTerm(s[1..]);
      assert [s[0]] + s[1..] == s;
    }
  }

  /** The escaped and the already decoded carriage return and line feed both become CR LF. */
  lemma TermExamples()
    ensures Unescape("\\r\\n") == Some(Success("\r\n"))
    ensures Unescape("\r\n") == Some(Success("\r\n"))
  {
    assert "\\r\\n"[2..] == "\\n" && "\\n"[2..] == "";
    PlainTerm("\r\n");
  }

  /** `[str(v).strip().upper() for v in val if str(v).strip()]`. */
  function CleanNames(items: seq<Json>, repr: Json -> string): (r: seq<string>)
    ensures |r| <= |items|
    ensures forall i :: 0 <= i < |r| ==> r[i] != ""
  {
    if items == [] then []
    else
      var x := Strip(PyStr(items[0], repr));
      (if x != "" then [Upper(x)] else []) + CleanNames(items[1..], repr)
  }

  /** The inputs the model covers: non-finite floats where a setter would store them, a dict of sentence names, and the terminators `Unescape` leaves out. */
  predicate Representable(p: Property, v: Json) {
    match p
    case UpdateRateHz => !v.JNonFinite?
    case InitialAlt => !v.JNonFinite?
    case PosNoiseM => !v.JNonFinite?
    case AltNoiseM => !v.JNonFinite?
    case VelNoiseMS => !v.JNonFinite?
    case Hdop => !v.JNonFinite?
    case PublishRateHz => !v.JNonFinite?
    case InitialPosition => !(v.JArr? && |v.items| == 3 && v.items[2].JNonFinite?)
    case NmeaSentences => !v.JObj?
    case NmeaTerm => v.JStr? ==> Unescape(v.s).Some?
    case _ => true
  }

  /** `isinstance(v, (int, float))` for a value that is not NaN or infinite, greater than 0. */
  predicate PositiveNumber(v: Json) {
    IsFiniteNumber(v) && NumValue(v) > 0.0
  }

  predicate NonNegativeNumber(v: Json) {
    IsFiniteNumber(v) && NumValue(v) >= 0.0
  }

  /** The `initial_lat` setter. */
  function AssignLat(s: Settings, v: Json): (r: Result<Settings>)
    ensures r.Success? <==> IsFiniteNumber(v) && -90.0 <= NumValue(v) <= 90.0
    ensures r.Failure? ==> r.error == (if IsNumber(v) then ValueError else TypeError)
    ensures r.Success? ==> r.value == s.(initialLat := NumValue(v))
  {
    if !IsNumber(v) then Failure(TypeError)
    else if v.JNonFinite? || !(-90.0 <= NumValue(v) <= 90.0) then Failure(ValueError)
    else Success(s.(initialLat := NumValue(v)))
  }

  /** The `initial_lon` setter. */
  function AssignLon(s: Settings, v: Json): (r: Result<Settings>)
    ensures r.Success? <==> IsFiniteNumber(v) && -180.0 <= NumValue(v) <= 180.0
    ensures r.Failure? ==> r.error == (if IsNumber(v) then ValueError else TypeError)
    ensures r.Success? ==> r.value == s.(initialLon := NumValue(v))
  {
    if !IsNumber(v) then Failure(TypeError)
    else if v.JNonFinite? || !(-180.0 <= NumValue(v) <= 180.0) then Failure(ValueError)
    else Success(s.(initialLon := NumValue(v)))
  }

  /** The `initial_alt` setter. */
  function AssignAlt(s: Settings, v: Json): (r: Result<Settings>)
    requires !v.JNonFinite?
  {
    if !IsNumber(v) then Failure(TypeError) else Success(s.(initialAlt := NumValue(v)))
  }

  /** `initial_position`: three numbers, handed to the latitude, longitude and altitude setters in that order. */
  function AssignPosition(s: Settings, v: Json): Result<Settings>
    requires Representable(InitialPosition, v)
  {
    if !(v.JArr? && |v.items| == 3 && IsNumber(v.items[0]) && IsNumber(v.items[1]) && IsNumber(v.items[2])) then Failure(TypeError)
    else
      match AssignLat(s, v.items[0])
      case Failure(e) => Failure(e)
      case Success(s1) =>
        match AssignLon(s1, v.items[1])
        case Failure(e) => Failure(e)
        case Success(s2) => AssignAlt(s2, v.items[2])
  }

  /** What assigning `v` to property `p` does: the new settings, or the exception the setter raises. */
  function Assign(s: Settings, p: Property, v: Json, repr: Json -> string): (r: Result<Settings>)
    requires Representable(p, v)
  {
    match p
    case Baudrate => if IsInt(v) && IntOf(v) > 0 then Success(s.(baudrate := IntOf(v))) else Failure(TypeError)
    case Protocol => if v == JStr("nmea") || v == JStr("ubx") then Success(s.(protocol := v.s)) else Failure(ValueError)
    case UseUbloxBinary => if v.JBool? then Success(s.(useUbloxBinary := v.b)) else Failure(TypeError)
    case UpdateRateHz => if PositiveNumber(v) then Success(s.(updateRateHz := NumValue(v))) else Failure(TypeError)
    case NavRateMs => if IsInt(v) && IntOf(v) > 0 then Success(s.(navRateMs := IntOf(v))) else Failure(TypeError)
    case FixType =>
      if IsFiniteNumber(v) && NumValue(v) in {0.0, 1.0, 2.0, 3.0} then Success(s.(fixType := NumValue(v).Floor)) else Failure(ValueError)
    case NumSvs => if IsInt(v) && 0 < IntOf(v) < 100 then Success(s.(numSvs := IntOf(v))) else Failure(ValueError)
    case InitialLat => AssignLat(s, v)
    case InitialLon => AssignLon(s, v)
    case InitialAlt => AssignAlt(s, v)
    case InitialPosition => AssignPosition(s, v)
    case PosNoiseM => if NonNegativeNumber(v) then Success(s.(posNoiseM := NumValue(v))) else Failure(TypeError)
    case AltNoiseM => if NonNegativeNumber(v) then Success(s.(altNoiseM := NumValue(v))) else Failure(TypeError)
    case VelNoiseMS => if NonNegativeNumber(v) then Success(s.(velNoiseMS := NumValue(v))) else Failure(TypeError)
    case Hdop => if PositiveNumber(v) then Success(s.(hdop := NumValue(v))) else Failure(TypeError)
    case NmeaSentences =>
      if !v.JArr? then Failure(TypeError)
      else
        var names := CleanNames(v.items, repr);
        if names == [] then Failure(ValueError) else Success(s.(nmeaSentences := names))
    case NmeaTerm =>
      if !v.JStr? then Failure(TypeError)
      else
        (match Unescape(v.s).value
         case Success(t) => Success(s.(nmeaTerm := t))
         case Failure(_) => Failure(ValueError))
    case PublishRateHz => if PositiveNumber(v) then Success(s.(publishRateHz := NumValue(v))) else Failure(TypeError)
    case RetainMessages => if v.JBool? then Success(s.(retainMessages := v.b)) else Failure(TypeError)
  }

  /**
   * The settings a refused assignment leaves behind: nothing changes, except
   * that `initial_position` hands its three numbers to the setters one at a
   * time, so when the longitude is the one refused the latitude is already
   * stored.
   */
  function Refused(s: Settings, p: Property, v: Json, repr: Json -> string): (r: Settings)
    requires Representable(p, v) && Assign(s, p, v, repr).Failure?
  {
    if p == InitialPosition && v.JArr? && |v.items| == 3 && IsNumber(v.items[0]) && IsNumber(v.items[1]) && IsNumber(v.items[2])
       && AssignLat(s, v.items[0]).Success?
    then AssignLat(s, v.items[0]).value
    else s
  }

  /** A refused assignment touches the latitude at most, and only through `initial_position` with an accepted latitude. */
  lemma RefusedFrame(s: Settings, p: Property, v: Json, repr: Json -> string)
    requires Representable(p, v) && Assign(s, p, v, repr).Failure?
    ensures var r := Refused(s, p, v, repr);
      r == s || (p == InitialPosition && AssignLat(s, v.items[0]).Success? && r == s.(initialLat := NumValue(v.items[0])))
    ensures p != InitialPosition ==> Refused(s, p, v, repr) == s
    ensures Valid(s) ==> Valid(Refused(s, p, v, repr))
  {
  }

  /** The defaults satisfy every setter's guarantee. */
  lemma DefaultsValid()
    ensures Valid(Defaults)
  {
  }

  /** No setter can break the guarantees: an accepted value keeps every property within its range. */
  lemma AssignValid(s: Settings, p: Property, v: Json, repr: Json -> string)
    requires Valid(s) && Representable(p, v) && Assign(s, p, v, repr).Success?
    ensures Valid(Assign(s, p, v, repr).value)
  {
    if p == InitialPosition {
      var s1 := AssignLat(s, v.items[0]).value;
      var s2 := AssignLon(s1, v.items[1]).value;
      assert Assign(s, p, v, repr).value == s2.(initialAlt := NumValue(v.items[2]));
    }
  }

  /**
   * Every setter but `initial_position` touches its own property only, and
   * a rejected value changes nothing; `initial_position` touches the three
   * coordinates only.
   */
  lemma AssignFrame(s: Settings, p: Property, v: Json, repr: Json -> string)
    requires Representable(p, v) && Assign(s, p, v, repr).Success?
    ensures var n := Assign(s, p, v, repr).value;
      (p != Baudrate ==> n.baudrate == s.baudrate) &&
      (p != Protocol ==> n.protocol == s.protocol) &&
      (p != UpdateRateHz ==> n.updateRateHz == s.updateRateHz) &&
      (p != NavRateMs ==> n.navRateMs == s.navRateMs) &&
      (p != FixType ==> n.fixType == s.fixType) &&
      (p != NumSvs ==> n.numSvs == s.numSvs) &&
      (p != InitialLat && p != InitialPosition ==> n.initialLat == s.initialLat) &&
      (p != InitialLon && p != InitialPosition ==> n.initialLon == s.initialLon) &&
      (p != InitialAlt && p != InitialPosition ==> n.initialAlt == s.initialAlt) &&
      (p != Hdop ==> n.hdop == s.hdop) &&
      (p != NmeaSentences ==> n.nmeaSentences == s.nmeaSentences) &&
      (p != NmeaTerm ==> n.nmeaTerm == s.nmeaTerm)
  {
    if p == InitialPosition {
      var s1 := AssignLat(s, v.items[0]).value;
      var s2 := AssignLon(s1, v.items[1]).value;
      assert Assign(s, p, v, repr).value == s2.(initialAlt := NumValue(v.items[2]));
    }
  }

  /** Setting a property to the value it already holds is accepted and changes nothing. */
  lemma AssignStoredValue(s: Settings, repr: Json -> string)
    requires Valid(s)
    ensures Assign(s, Baudrate, JInt(s.baudrate), repr) == Success(s)
    ensures Assign(s, FixType, JInt(s.fixType), repr) == Success(s)
    ensures Assign(s, NumSvs, JInt(s.numSvs), repr) == Success(s)
    ensures Assign(s, InitialLat, JFloat(s.initialLat), repr) == Success(s)
    ensures Assign(s, InitialLon, JFloat(s.initialLon), repr) == Success(s)
    ensures Assign(s, Hdop, JFloat(s.hdop), repr) == Success(s)
    ensures Assign(s, InitialPosition, JArr([JFloat(s.initialLat), JFloat(s.initialLon), JFloat(s.initialAlt)]), repr) == Success(s)
  {
    var f := s.fixType;
    assert f == 0 || f == 1 || f == 2 || f == 3;
    assert (f as real).Floor == f;
  }

  /** The setters' refusals of values of the wrong type or sign, as the configuration tests exercise them. */
  lemma RejectedTypes(s: Settings, repr: Json -> string)
    ensures Assign(s, Baudrate, JStr("9600"), repr) == Failure(TypeError)
    ensures Assign(s, Baudrate, JInt(-1), repr) == Failure(TypeError)
    ensures Assign(s, UseUbloxBinary, JStr("false"), repr) == Failure(TypeError)
    ensures Assign(s, UpdateRateHz, JInt(0), repr) == Failure(TypeError)
    ensures Assign(s, InitialPosition, JStr("31,118,5"), repr) == Failure(TypeError)
    ensures Assign(s, InitialPosition, JArr([JFloat(31.0), JFloat(118.0)]), repr) == Failure(TypeError)
    ensures Assign(s, AltNoiseM, JFloat(-1.0), repr) == Failure(TypeError)
    ensures Assign(s, Hdop, JFloat(0.0), repr) == Failure(TypeError)
    ensures Assign(s, NmeaSentences, JStr("GGA,RMC"), repr) == Failure(TypeError)
  {
  }

  /** The setters' refusals of values out of their range, as the configuration tests exercise them. */
  lemma RejectedRanges(s: Settings, repr: Json -> string)
    ensures Assign(s, FixType, JInt(99), repr) == Failure(ValueError)
    ensures Assign(s, NumSvs, JInt(1000), repr) == Failure(ValueError)
    ensures Assign(s, InitialLat, JFloat(999.0), repr) == Failure(ValueError)
    ensures Assign(s, NmeaSentences, JArr([]), repr) == Failure(ValueError)
  {
    assert 99.0 !in {0.0, 1.0, 2.0, 3.0};
  }

  /**
   * `initial_position` assigns in order: a longitude out of range raises
   * `ValueError` with the new latitude already stored and the longitude and
   * altitude untouched.
   */
  lemma PositionPartialUpdate(s: Settings, lat: real, lon: real, alt: real, repr: Json -> string)
    requires -90.0 <= lat <= 90.0 && !(-180.0 <= lon <= 180.0)
    ensures var v := JArr([JFloat(lat), JFloat(lon), JFloat(alt)]);
      Assign(s, InitialPosition, v, repr) == Failure(ValueError) &&
      Refused(s, InitialPosition, v, repr) == s.(initialLat := lat)
  {
  }

  /** `nmea_sentences` strips and upper-cases each name and drops the blank ones, keeping their order. */
  lemma {:induction false} CleanNamesSpec(items: seq<Json>, repr: Json -> string)
    requires forall i :: 0 <= i < |items| ==> items[i].JStr? && Strip(items[i].s) != ""
    ensures var r := CleanNames(items, repr);
      |r| == |items| && forall i :: 0 <= i < |r| ==> r[i] == Upper(Strip(items[i].s))
  {
    if items != [] {
      CleanNamesSpec(items[1..], repr);
    }
  }

  // ---------------------------------------------------------------- read_config

  /** `configparser`'s `getint(key, fallback)`: the option parsed by `int`, or the fallback when absent. */
  function GetInt(g: map<string, string>, key: string, fallback: int): (r: Result<int>)
    ensures key !in g ==> r == Success(fallback)
    ensures key in g ==> (r.Success? <==> ParseInteger(g[key]).Some?)
  {
    if key !in g then Success(fallback)
    else match ParseInteger(g[key]) case Some(i) => Success(i) case None => Failure(ValueError)
  }

  /** `getfloat(key, fallback)`. */
  function GetFloat(g: map<string, string>, key: string, fallback: real): (r: Result<real>)
    ensures key !in g ==> r == Success(fallback)
    ensures key in g ==> (r.Success? <==> ParseDecimal(g[key]).Some?)
  {
    if key !in g then Success(fallback)
    else match ParseDecimal(g[key]) case Some(x) => Success(x) case None => Failure(ValueError)
  }

  /** `getboolean(key, fallback)`: the words configparser knows, in any case. */
  function GetBool(g: map<string, string>, key: string, fallback: bool): (r: Result<bool>)
    ensures key !in g ==> r == Success(fallback)
  {
    if key !in g then Success(fallback)
    else
      var w := Lower(g[key]);
      if w in {"1", "yes", "true", "on"} then Success(true)
      else if w in {"0", "no", "false", "off"} then Success(false)
      else Failure(ValueError)
  }

  /** `get(key, fallback)`. */
  function GetStr(g: map<string, string>, key: string, fallback: string): string {
    if key in g then g[key] else fallback
  }

  /** `",".join(names)`. */
  function Join(names: seq<string>): string {
    if names == [] then "" else if |names| == 1 then names[0] else names[0] + "," + Join(names[1..])
  }

  /** `[s.strip() for s in text.split(",") if s.strip()]` as a list of strings. */
  function NameList(pieces: seq<string>): seq<Json> {
    if pieces == [] then []
    else (if Strip(pieces[0]) != "" then [JStr(Strip(pieces[0]))] else []) + NameList(pieces[1..])
  }

  const Steps := 18

  /** The property line `k` of `read_config` assigns and the value it reads for it, or the parse error. */
  function ConfigValue(s: Settings, g: map<string, string>, k: nat): Result<(Property, Json)>
    requires k < Steps && s.updateRateHz > 0.0
  {
    if k == 0 then Lift(Baudrate, GetInt(g, "baudrate", s.baudrate))
    else if k == 1 then Success((Protocol, JStr(GetStr(g, "protocol", s.protocol))))
    else if k == 2 then LiftBool(UseUbloxBinary, GetBool(g, "use_ublox_binary", s.useUbloxBinary))
    else if k == 3 then LiftReal(UpdateRateHz, GetFloat(g, "update_rate_hz", s.updateRateHz))
    else if k == 4 then Lift(NavRateMs, GetInt(g, "nav_rate_ms", PyMath.Trunc(1000.0 / s.updateRateHz)))
    else if k == 5 then Lift(FixType, GetInt(g, "fix_type", s.fixType))
    else if k == 6 then Lift(NumSvs, GetInt(g, "num_svs", s.numSvs))
    else if k == 7 then LiftReal(InitialLat, GetFloat(g, "initial_lat", s.initialLat))
    else if k == 8 then LiftReal(InitialLon, GetFloat(g, "initial_lon", s.initialLon))
    else if k == 9 then LiftReal(InitialAlt, GetFloat(g, "initial_alt", s.initialAlt))
    else if k == 10 then LiftReal(PosNoiseM, GetFloat(g, "pos_noise_m", s.posNoiseM))
    else if k == 11 then LiftReal(AltNoiseM, GetFloat(g, "alt_noise_m", s.altNoiseM))
    else if k == 12 then LiftReal(VelNoiseMS, GetFloat(g, "vel_noise_m_s", s.velNoiseMS))
    else if k == 13 then LiftReal(Hdop, GetFloat(g, "hdop", s.hdop))
    else if k == 14 then Success((NmeaSentences, JArr(NameList(Split(GetStr(g, "nmea_sentences", Join(s.nmeaSentences)), ',')))))
    else if k == 15 then Success((NmeaTerm, JStr(GetStr(g, "nmea_term", "\r\n"))))
    else if k == 16 then LiftReal(PublishRateHz, GetFloat(g, "publish_rate_hz", s.publishRateHz))
    else LiftBool(RetainMessages, GetBool(g, "retain_messages", s.retainMessages))
  }

  function Lift(p: Property, r: Result<int>): Result<(Property, Json)> {
    match r case Success(i) => Success((p, JInt(i))) case Failure(e) => Failure(e)
  }

  function LiftReal(p: Property, r: Result<real>): Result<(Property, Json)> {
    match r case Success(x) => Success((p, JFloat(x))) case Failure(e) => Failure(e)
  }

  function LiftBool(p: Property, r: Result<bool>): Result<(Property, Json)> {
    match r case Success(b) => Success((p, JBool(b))) case Failure(e) => Failure(e)
  }

  /** The terminator a section gives is one the model decodes. */
  predicate TermModelled(g: map<string, string>) {
    "nmea_term" in g ==> Unescape(g["nmea_term"]).Some?
  }

  /** Line `k` of `read_config`: read the option, then hand it to the setter. */
  function ConfigStep(s: Settings, g: map<string, string>, k: nat, repr: Json -> string): (r: Result<Settings>)
    requires k < Steps && Valid(s) && TermModelled(g)
    ensures r.Success? ==> Valid(r.value)
  {
    match ConfigValue(s, g, k)
    case Failure(e) => Failure(e)
    case Success((p, v)) =>
      assert k == 15 ==> v == JStr(GetStr(g, "nmea_term", "\r\n"));
      assert k == 15 && "nmea_term" !in g ==> Unescape(v.s).Some? by {
        if k == 15 && "nmea_term" !in g { PlainTerm("\r\n"); }
      }
      var r := Assign(s, p, v, repr);
      if r.Success? then AssignValid(s, p, v, repr); r else r
  }

  /**
   * `read_config` on a `[gps]` section from line `k` on: the lines run in
   * order, and the first exception ends the run with the properties set so
   * far kept.
   */
  function Configured(s: Settings, g: map<string, string>, k: nat, repr: Json -> string): (r: (Option<PyError>, Settings))
    requires k <= Steps && Valid(s) && TermModelled(g)
    ensures Valid(r.1)
    decreases Steps - k
  {
    if k == Steps then (None, s)
    else
      match ConfigStep(s, g, k, repr)
      case Failure(e) => (Some(e), s)
      case Success(n) => Configured(n, g, k + 1, repr)
  }

  /** Lines 0 to 5 of `read_config` on a section without options read the default values back. */
  lemma EmptyValuesLow(k: nat, repr: Json -> string)
    requires 0 <= k < 6
    ensures ConfigValue(Defaults, map[], k).Success?
    ensures var (p, v) := ConfigValue(Defaults, map[], k).value;
      Representable(p, v) && Assign(Defaults, p, v, repr) == Success(Defaults)
  {
    if k == 0 {
      assert ConfigValue(Defaults, map[], 0) == Success((Baudrate, JInt(9600)));
    } else if k == 1 {
      assert ConfigValue(Defaults, map[], 1) == Success((Protocol, JStr("nmea")));
    } else if k == 2 {
      assert ConfigValue(Defaults, map[], 2) == Success((UseUbloxBinary, JBool(false)));
    } else if k == 3 {
      assert ConfigValue(Defaults, map[], 3) == Success((UpdateRateHz, JFloat(1.0)));
    } else if k == 4 {
      assert PyMath.Trunc(1000.0 / 1.0) == 1000;
      assert ConfigValue(Defaults, map[], 4) == Success((NavRateMs, JInt(1000)));
    } else if k == 5 {
      assert (3.0).Floor == 3;
      assert ConfigValue(Defaults, map[], 5) == Success((FixType, JInt(3)));
    }
  }

  /** Lines 6 to 11 of `read_config` on a section without options read the default values back. */
  lemma EmptyValuesMid(k: nat, repr: Json -> string)
    requires 6 <= k < 12
    ensures ConfigValue(Defaults, map[], k).Success?
    ensures var (p, v) := ConfigValue(Defaults, map[], k).value;
      Representable(p, v) && Assign(Defaults, p, v, repr) == Success(Defaults)
  {
    if k == 6 {
      assert ConfigValue(Defaults, map[], 6) == Success((NumSvs, JInt(8)));
    } else if k == 7 {
      assert ConfigValue(Defaults, map[], 7) == Success((InitialLat, JFloat(0.0)));
    } else if k == 8 {
      assert ConfigValue(Defaults, map[], 8) == Success((InitialLon, JFloat(0.0)));
    } else if k == 9 {
      assert ConfigValue(Defaults, map[], 9) == Success((InitialAlt, JFloat(0.0)));
    } else if k == 10 {
      assert ConfigValue(Defaults, map[], 10) == Success((PosNoiseM, JFloat(0.0)));
    } else if k == 11 {
      assert ConfigValue(Defaults, map[], 11) == Success((AltNoiseM, JFloat(0.0)));
    }
  }

  /** Lines 12 to 14 of `read_config` on a section without options read the default values back. */
  lemma EmptyValuesHigh(k: nat, repr: Json -> string)
    requires 12 <= k < 15
    ensures ConfigValue(Defaults, map[], k).Success?
    ensures var (p, v) := ConfigValue(Defaults, map[], k).value;
      Representable(p, v) && Assign(Defaults, p, v, repr) == Success(Defaults)
  {
    if k == 12 {
      assert ConfigValue(Defaults, map[], 12) == Success((VelNoiseMS, JFloat(0.0)));
    } else if k == 13 {
      assert ConfigValue(Defaults, map[], 13) == Success((Hdop, JFloat(1.0)));
    } else if k == 14 {
      DefaultNames(repr);
      assert ConfigValue(Defaults, map[], 14) == Success((NmeaSentences, JArr([JStr("GGA")])));
    }
  }

  /** Lines 15 to 17 of `read_config` on a section without options read the default values back. */
  lemma EmptyValuesTop(k: nat, repr: Json -> string)
    requires 15 <= k < 18
    ensures ConfigValue(Defaults, map[], k).Success?
    ensures var (p, v) := ConfigValue(Defaults, map[], k).value;
      Representable(p, v) && Assign(Defaults, p, v, repr) == Success(Defaults)
  {
    if k == 15 {
      PlainTerm("\r\n");
      assert ConfigValue(Defaults, map[], 15) == Success((NmeaTerm, JStr("\r\n")));
    } else if k == 16 {
      assert ConfigValue(Defaults, map[], 16) == Success((PublishRateHz, JFloat(1.0)));
    } else if k == 17 {
      assert ConfigValue(Defaults, map[], 17) == Success((RetainMessages, JBool(false)));
    }
  }

  /** Each line of `read_config` on a section without options puts the default back. */
  lemma EmptySectionStep(k: nat, repr: Json -> string)
    requires k < Steps
    ensures ConfigStep(Defaults, map[], k, repr) == Success(Defaults)
  {
    if k < 6 { EmptyValuesLow(k, repr); }
    else if k < 12 { EmptyValuesMid(k, repr); }
    else if k < 15 { EmptyValuesHigh(k, repr); }
    else { EmptyValuesTop(k, repr); }
  }

  /** The default sentence list survives being joined, split and cleaned. */
  lemma DefaultNames(repr: Json -> string)
    ensures ConfigValue(Defaults, map[], 14) == Success((NmeaSentences, JArr([JStr("GGA")])))
    ensures CleanNames([JStr("GGA")], repr) == ["GGA"]
  {
    DefaultNameList();
    NamesRead(Defaults, map[]);
    NamesCleaned([JStr("GGA")], repr);
  }

  /** Line 14 of `read_config` on a section without the option reads the current list back through a join and a split. */
  lemma NamesRead(s: Settings, g: map<string, string>)
    requires s.updateRateHz > 0.0 && "nmea_sentences" !in g
    ensures ConfigValue(s, g, 14) == Success((NmeaSentences, JArr(NameList(Split(Join(s.nmeaSentences), ',')))))
  {
  }

  /** Cleaning a list holding the one name "GGA" keeps it. */
  lemma NamesCleaned(items: seq<Json>, repr: Json -> string)
    requires items == [JStr("GGA")]
    ensures CleanNames(items, repr) == ["GGA"]
  {
    GgaClean();
    assert items[1..] == [];
  }

  /** "GGA" is its own stripped and upper-cased form. */
  lemma GgaClean()
    ensures Strip("GGA") == "GGA" && Upper("GGA") == "GGA"
  {
    UpperFixed("GGA");
    StripUnspaced("GGA");
  }

  /** The default list, joined and split again, is the one name. */
  lemma DefaultNameList()
    ensures NameList(Split(Join(["GGA"]), ',')) == [JStr("GGA")]
  {
    assert Join(["GGA"]) == "GGA";
    SplitGga();
    GgaClean();
    assert ["GGA"][1..] == [];
  }

  /** A name without a comma splits into itself. */
  lemma SplitGga()
    ensures Split("GGA", ',') == ["GGA"]
  {
    assert "GGA"[1..] == "GA" && "GA"[1..] == "A" && "A"[1..] == "";
    assert Split("", ',') == [""];
    assert ['A'] + "" == "A" && [""][1..] == [];
    assert Split("A", ',') == ["A"];
    assert ['G'] + "A" == "GA" && ["A"][1..] == [];
    assert Split("GA", ',') == ["GA"];
    assert ['G'] + "GA" == "GGA" && ["GA"][1..] == [];
  }

  /** A `[gps]` section with no options leaves a receiver at its defaults, and raises nothing. */
  lemma EmptySection(repr: Json -> string)
    ensures Configured(Defaults, map[], 0, repr) == (None, Defaults)
  {
    EmptyFrom(0, repr);
  }

  lemma {:induction false} EmptyFrom(k: nat, repr: Json -> string)
    requires k <= Steps
    ensures Configured(Defaults, map[], k, repr) == (None, Defaults)
    decreases Steps - k
  {
    if k < Steps {
      EmptySectionStep(k, repr);
      EmptyFrom(k + 1, repr);
    }
  }
}
