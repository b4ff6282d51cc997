// The minimal MPU9250 configuration reader (simulators/imu_sim/lib/imu.py):
// `read_config` reads the [accelerometer] section of an INI file and
// assigns the range, filter setting, bias, noise density and sample-rate
// divider in turn, so a failure part-way leaves the earlier fields updated.
//
// The file is an input: its sections as the INI parser yields them, or None
// when it cannot be read. The module imports an `AccelerationRange` that the
// enumerations do not define; the model reads that name as
// `AccelerometerRange`, codes 1, 2, 4 and 8.

module ImuConfig {
  import opened Wrappers
  import opened Json
  import opened ImuEnums

  /** One INI section: option name to raw text. */
  type Section = map<string, string>

  /** `SectionProxy.getint(key)`: None for a missing option, ValueError for text that is no integer. */
  function GetInt(sec: Section, key: string): (r: Result<Option<int>>)
    ensures key !in sec ==> r == Success(None)
    ensures key in sec ==> (r.Success? <==> ParseInteger(sec[key]).Some?)
    ensures r.Success? && key in sec ==> r.value == ParseInteger(sec[key])
    ensures r.Failure? ==> r.error == ValueError
  {
    if key !in sec then Success(None)
    else
      var n := ParseInteger(sec[key]);
      if n.None? then Failure(ValueError) else Success(n)
  }

  /** `SectionProxy.getfloat(key)`: None for a missing option, ValueError for text that is no number. */
  function GetFloat(sec: Section, key: string): (r: Result<Option<real>>)
    ensures key !in sec ==> r == Success(None)
    ensures key in sec ==> (r.Success? <==> ParseDecimal(sec[key]).Some?)
    ensures r.Success? && key in sec ==> r.value == ParseDecimal(sec[key])
    ensures r.Failure? ==> r.error == ValueError
  {
    if key !in sec then Success(None)
    else
      var x := ParseDecimal(sec[key]);
      if x.None? then Failure(ValueError) else Success(x)
  }

  /** The dataclass fields other than the path; every one starts as None. */
  datatype Fields = Fields(
    accelRange: Option<AccelerometerRange>,
    accelDlpf: Option<Dlpf>,
    accelBias: Option<seq<Option<real>>>,
    accelNoiseDensity: Option<real>,
    accelSmplrtDiv: Option<int>)

  const Unset := Fields(None, None, None, None, None)

  /** The enumeration member a range or filter option names: a missing option, bad text and an unknown code all fail. */
  function RangeOption(acc: Section): Option<AccelerometerRange> {
    var r := GetInt(acc, "range");
    if r.Failure? || r.value.None? then None else AccelRangeOf(r.value.value)
  }

  function DlpfOption(acc: Section): Option<Dlpf> {
    var r := GetInt(acc, "dlpf");
    if r.Failure? || r.value.None? then None else DlpfOf(r.value.value)
  }

  /** The three bias options, each None when missing; None overall when one of them is not a number. */
  function BiasOption(acc: Section): Option<seq<Option<real>>> {
    var x := GetFloat(acc, "bias_x");
    var y := GetFloat(acc, "bias_y");
    var z := GetFloat(acc, "bias_z");
    if x.Failure? || y.Failure? || z.Failure? then None else Some([x.value, y.value, z.value])
  }

  /**
   * `read_config` on the fields `f`: the fields it leaves and the exception
   * it raises, if any.
   *   - FileNotFoundError: no file was read.
   *   - KeyError: no [accelerometer] section.
   *   - ValueError: an invalid range, filter setting, bias or noise density.
   *   - TypeError: a sample-rate divider that is missing or negative.
   *     A missing one is None, and `None < 0` raises TypeError.
   * Each field is assigned as soon as it is checked.
   */
  function Loaded(f: Fields, file: Option<map<string, Section>>): (r: (Fields, Option<PyError>))
    ensures r.1.None? ==>
      r.0.accelRange.Some? && r.0.accelDlpf.Some? && r.0.accelBias.Some? &&
      r.0.accelSmplrtDiv.Some? && r.0.accelSmplrtDiv.value >= 0
  {
    if file.None? then (f, Some(FileNotFoundError))
    else if "accelerometer" !in file.value then (f, Some(KeyError))
    else
      var acc := file.value["accelerometer"];
      if RangeOption(acc).None? then (f, Some(ValueError))
      else
        var f1 := f.(accelRange := RangeOption(acc));
        if DlpfOption(acc).None? then (f1, Some(ValueError))
        else
          var f2 := f1.(accelDlpf := DlpfOption(acc));
          if BiasOption(acc).None? then (f2, Some(ValueError))
          else
            var f3 := f2.(accelBias := BiasOption(acc));
            var nd := GetFloat(acc, "noise_density");
            if nd.Failure? then (f3, Some(ValueError))
            else
              var f4 := f3.(accelNoiseDensity := nd.value);
              var srd := GetInt(acc, "sample_rate_div");
              if srd.Failure? then (f4, Some(ValueError))
              else if srd.value.None? || srd.value.value < 0 then (f4, Some(TypeError))
              else (f4.(accelSmplrtDiv := srd.value), None)
  }

  class MPU9250 {
    const configPath: string
    var accelRange: Option<AccelerometerRange>
    var accelDlpf: Option<Dlpf>
    var accelBias: Option<seq<Option<real>>>
    var accelNoiseDensity: Option<real>
    var accelSmplrtDiv: Option<int>

    function Current(): Fields
      reads this
    {
      Fields(accelRange, accelDlpf, accelBias, accelNoiseDensity, accelSmplrtDiv)
    }

    constructor (configPath: string)
      ensures this.configPath == configPath && Current() == Unset
    {
      this.configPath := configPath;
      accelRange := None;
      accelDlpf := None;
      accelBias := None;
      accelNoiseDensity := None;
      accelSmplrtDiv := None;
    }

    /** `read_config`, given what the parser read from `configPath`. */
    method ReadConfig(file: Option<map<string, Section>>) returns (err: Option<PyError>)
      modifies this
      ensures (Current(), err) == Loaded(old(Current()), file)
    {
      if file.None? {
        return Some(FileNotFoundError);
      }
      if "accelerometer" !in file.value {
        return Some(KeyError);
      }
      var acc := file.value["accelerometer"];
      var range := RangeOption(acc);
      if range.None? {
        return Some(ValueError);
      }
      accelRange := range;
      var dlpf := DlpfOption(acc);
      if dlpf.None? {
        return Some(ValueError);
      }
      accelDlpf := dlpf;
      var bias := BiasOption(acc);
      if bias.None? {
        return Some(ValueError);
      }
      accelBias := bias;
      var nd := GetFloat(acc, "noise_density");
      if nd.Failure? {
        return Some(ValueError);
      }
      accelNoiseDensity := nd.value;
      var srd := GetInt(acc, "sample_rate_div");
      if srd.Failure? {
        return Some(ValueError);
      }
      if srd.value.None? || srd.value.value < 0 {
        return Some(TypeError);
      }
      accelSmplrtDiv := srd.value;
      err := None;
    }
  }

  /** Without a readable file, or without an [accelerometer] section, nothing is assigned. */
  lemma NothingToRead(f: Fields, file: Option<map<string, Section>>)
    ensures file.None? ==> Loaded(f, file) == (f, Some(FileNotFoundError))
    ensures file.Some? && "accelerometer" !in file.value ==> Loaded(f, file) == (f, Some(KeyError))
  {
  }

  /**
   * A range option that is missing, not an integer or not an accelerometer
   * range code raises ValueError before anything is assigned.
   */
  lemma RangeChecked(f: Fields, sections: map<string, Section>)
    requires "accelerometer" in sections
    requires var acc := sections["accelerometer"];
      "range" !in acc || ParseInteger(acc["range"]).None? || ParseInteger(acc["range"]).value !in {1, 2, 4, 8}
    ensures Loaded(f, Some(sections)) == (f, Some(ValueError))
  {
  }

  /**
   * Partial update: a valid range followed by a filter code outside {0, 1}
   * raises ValueError with the range already assigned and nothing else.
   */
  lemma DlpfChecked(f: Fields, sections: map<string, Section>)
    requires "accelerometer" in sections
    requires var acc := sections["accelerometer"];
      "range" in acc && ParseInteger(acc["range"]).Some? && ParseInteger(acc["range"]).value in {1, 2, 4, 8}
    requires var acc := sections["accelerometer"];
      "dlpf" in acc && ParseInteger(acc["dlpf"]).Some? && ParseInteger(acc["dlpf"]).value !in {0, 1}
    ensures Loaded(f, Some(sections)) ==
      (f.(accelRange := AccelRangeOf(ParseInteger(sections["accelerometer"]["range"]).value)), Some(ValueError))
  {
  }

  /** A bias option that is present but not a number raises ValueError after the range and filter setting are assigned. */
  lemma BiasChecked(f: Fields, sections: map<string, Section>, key: string)
    requires "accelerometer" in sections && key in {"bias_x", "bias_y", "bias_z"}
    requires var acc := sections["accelerometer"]; RangeOption(acc).Some? && DlpfOption(acc).Some?
    requires var acc := sections["accelerometer"]; key in acc && ParseDecimal(acc[key]).None?
    ensures var acc := sections["accelerometer"];
      Loaded(f, Some(sections)) == (f.(accelRange := RangeOption(acc), accelDlpf := DlpfOption(acc)), Some(ValueError))
  {
  }

  /**
   * The divider: a negative or missing value raises TypeError after the
   * other four fields are assigned; a non-negative one is stored unchanged.
   */
  lemma DividerChecked(f: Fields, sections: map<string, Section>)
    requires "accelerometer" in sections
    requires var acc := sections["accelerometer"];
      RangeOption(acc).Some? && DlpfOption(acc).Some? && BiasOption(acc).Some? && GetFloat(acc, "noise_density").Success?
    ensures var acc := sections["accelerometer"];
      var srd := if "sample_rate_div" in acc then ParseInteger(acc["sample_rate_div"]) else None;
      var f4 := f.(accelRange := RangeOption(acc), accelDlpf := DlpfOption(acc), accelBias := BiasOption(acc),
                   accelNoiseDensity := GetFloat(acc, "noise_density").value);
      ("sample_rate_div" !in acc || (srd.Some? && srd.value < 0) ==> Loaded(f, Some(sections)) == (f4, Some(TypeError))) &&
      (srd.Some? && srd.value >= 0 ==> Loaded(f, Some(sections)) == (f4.(accelSmplrtDiv := srd), None))
  {
  }

  /** A successful read leaves every field set from the section, whatever the fields held before. */
  lemma SuccessOverwrites(f: Fields, g: Fields, file: Option<map<string, Section>>)
    requires Loaded(f, file).1.None?
    ensures Loaded(g, file) == Loaded(f, file)
  {
  }
}
