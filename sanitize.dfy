// `_sanitize_filename` of the telemetry backend (hmi/backend/app/main.py):
// the user-chosen recording name becomes a file name inside the recordings
// directory.

module Sanitize {
  import opened Text

  /** A character kept as it is: a letter, a digit, '-' or '_'. */
  predicate Kept(c: char) {
    IsAlnum(c) || c == '-' || c == '_'
  }

  /** Every other character becomes '_'. */
  function SafeChars(s: string): (r: string)
    ensures |r| == |s|
    ensures forall i :: 0 <= i < |s| ==> r[i] == (if Kept(s[i]) then s[i] else '_')
  {
    if s == [] then [] else [if Kept(s[0]) then s[0] else '_'] + SafeChars(s[1..])
  }

  /** The sanitised stripped name, or "recording" when nothing is left of it. */
  function Stem(name: string): (r: string)
    ensures |r| > 0
    ensures forall i :: 0 <= i < |r| ==> Kept(r[i])
  {
    StemOf(Strip(name))
  }

  /** The stem of text that is already stripped. */
  function StemOf(t: string): (r: string)
    ensures |r| > 0
    ensures forall i :: 0 <= i < |r| ==> Kept(r[i])
  {
    var safe := SafeChars(t);
    if safe == [] then "recording" else safe
  }

  /** `_sanitize_filename(name)`. */
  function SanitizeFilename(name: string): string {
    var stem := Stem(name);
    if EndsWith(Lower(stem), ".json") then stem else stem + ".json"
  }

  /** A stem of kept characters never ends with ".json", in any case. */
  lemma NoJsonSuffix(stem: string)
    requires forall i :: 0 <= i < |stem| ==> Kept(stem[i])
    ensures !EndsWith(Lower(stem), ".json")
  {
    var l := Lower(stem);
    if |l| >= 5 {
      var k := |l| - 5;
      var tail := l[k..];
      KeptLower(stem[k]);
      assert tail[0] == l[k] != '.';
      assert ".json"[0] == '.';
      assert tail != ".json";
    }
  }

  /**
   * The stem never contains '.', so ".json" is always appended: the result
   * is the stem followed by ".json".
   */
  lemma SanitizeShape(name: string)
    ensures SanitizeFilename(name) == Stem(name) + ".json"
  {
    NoJsonSuffix(Stem(name));
  }

  /**
   * The file name is never empty, ends with ".json", and apart from that
   * suffix holds only letters, digits, '-' and '_', so neither '/' nor '\'
   * nor a ".." component can appear in it.
   */
  lemma SanitizeSafe(name: string)
    ensures var r := SanitizeFilename(name);
      |r| > 5 && EndsWith(r, ".json") &&
      (forall i :: 0 <= i < |r| - 5 ==> Kept(r[i])) &&
      '/' !in r && '\\' !in r
  {
    SanitizeShape(name);
    SuffixedSafe(Stem(name));
  }

  lemma SuffixedSafe(stem: string)
    requires |stem| > 0 && forall i :: 0 <= i < |stem| ==> Kept(stem[i])
    ensures var r := stem + ".json";
      |r| > 5 && EndsWith(r, ".json") &&
      (forall i :: 0 <= i < |r| - 5 ==> Kept(r[i])) &&
      '/' !in r && '\\' !in r
  {
    var r := stem + ".json";
    assert r[|r| - 5..] == ".json";
    forall i | 0 <= i < |r|
      ensures r[i] != '/' && r[i] != '\\'
    {
      if i < |stem| {
        assert r[i] == stem[i] && Kept(stem[i]);
      } else {
        assert r[i] == ".json"[i - |stem|];
      }
    }
  }

  /** A name that is only spaces (or nothing) gives the default file name. */
  lemma BlankName(name: string)
    requires forall i :: 0 <= i < |name| ==> IsSpace(name[i])
    ensures SanitizeFilename(name) == "recording.json"
  {
    SanitizeShape(name);
    StripShape(name);
    assert Strip(name) == [];
  }

  lemma KeptLower(c: char)
    requires Kept(c)
    ensures LowerChar(c) != '.'
  {
  }

  lemma KeptIsNotSpace(c: char)
    requires Kept(c)
    ensures !IsSpace(c)
  {
  }

  /**
   * Sanitising a sanitised name again turns its ".json" into "_json" and
   * appends another ".json", so the sanitiser is never idempotent.
   */
  lemma Resanitize(name: string)
    ensures SanitizeFilename(SanitizeFilename(name)) == Stem(name) + "_json.json"
    ensures SanitizeFilename(SanitizeFilename(name)) != SanitizeFilename(name)
  {
    var stem := Stem(name);
    var r := stem + ".json";
    assert SanitizeFilename(name) == r by { SanitizeShape(name); }
    SuffixedSanitized(stem);
    assert |stem + "_json.json"| == |r| + 5;
  }

  /** A stem followed by ".json" sanitises to the stem followed by "_json.json". */
  lemma SuffixedSanitized(stem: string)
    requires |stem| > 0 && forall i :: 0 <= i < |stem| ==> Kept(stem[i])
    ensures SanitizeFilename(stem + ".json") == stem + "_json.json"
  {
    var r := stem + ".json";
    SuffixedStripped(stem);
    SafeSuffixed(stem);
    assert Stem(r) == stem + "_json";
    SanitizeShape(r);
    assert stem + "_json" + ".json" == stem + "_json.json";
  }

  /** A stem followed by ".json" has no surrounding space. */
  lemma SuffixedStripped(stem: string)
    requires |stem| > 0 && forall i :: 0 <= i < |stem| ==> Kept(stem[i])
    ensures Strip(stem + ".json") == stem + ".json"
  {
    var r := stem + ".json";
    assert r[0] == stem[0] && r[|r| - 1] == 'n';
    KeptIsNotSpace(stem[0]);
    StripUnspaced(r);
  }

  lemma SafeSuffixed(stem: string)
    requires |stem| > 0 && forall i :: 0 <= i < |stem| ==> Kept(stem[i])
    ensures StemOf(stem + ".json") == stem + "_json"
  {
    var r := stem + ".json";
    var safe := SafeChars(r);
    forall i | 0 <= i < |r|
      ensures safe[i] == (stem + "_json")[i]
    {
      if i < |stem| {
        assert r[i] == stem[i];
      } else {
        assert r[i] == ".json"[i - |stem|];
      }
    }
    assert safe == stem + "_json";
  }

  lemma StripExample()
    ensures Strip("a.json") == "a.json"
  {
    StripUnspaced("a.json");
  }

  lemma SafeCharsExample()
    ensures SafeChars("a.json") == "a_json"
  {
  }

  lemma StemExample(name: string)
    requires name == "a.json"
    ensures Stem(name) == "a_json"
  {
    StripExample();
    SafeCharsExample();
  }

  /** Stripped text of kept characters is its own stem. */
  lemma KeptStem(t: string)
    requires |t| > 0 && forall i :: 0 <= i < |t| ==> Kept(t[i])
    ensures StemOf(t) == t
  {
    assert SafeChars(t) == t;
  }

  /** The default name "recording" is its own stem. */
  lemma DefaultStem(name: string)
    requires name == "recording"
    ensures Stem(name) == "recording"
  {
    StripUnspaced(name);
    KeptStem(name);
  }

  /** The default name has no surrounding space to strip. */
  lemma DefaultStripped(t: string, name: string)
    requires t == "recording" && name == Strip(t)
    ensures name == "recording"
  {
    StripUnspaced(t);
  }

  /** The default name gives "recording.json". */
  lemma DefaultName(name: string)
    requires name == "recording"
    ensures SanitizeFilename(name) == "recording.json"
  {
    DefaultStem(name);
    SanitizeShape(name);
  }

  /** "a.json" becomes "a_json.json". */
  lemma DotJsonExample(name: string)
    requires name == "a.json"
    ensures SanitizeFilename(name) == "a_json.json"
  {
    StemExample(name);
    SanitizeShape(name);
    assert "a_json" + ".json" == "a_json.json";
  }
}
