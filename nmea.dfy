// The checksum framing of an NMEA 0183 sentence as `NEOM8N._with_checksum`
// (simulators/gps_sim/lib/gps_sim.py) writes it: "$", the body, "*", the
// exclusive-or of the body's character codes in upper-case hexadecimal with
// at least two digits, and the configured line terminator.

module Nmea {
  import opened Wrappers
  import opened Json

  /** The code of a character as a 32-bit word (every code point fits). */
  function Code(c: char): bv32 {
    c as bv32
  }

  /** The exclusive-or of the character codes of `s`, folded left to right from 0. */
  function XorOf(s: string): bv32 {
    if s == [] then 0 else XorOf(s[..|s| - 1]) ^ Code(s[|s| - 1])
  }

  predicate IsAscii(s: string) {
    forall i :: 0 <= i < |s| ==> s[i] as int < 128
  }

  /** The upper-case hexadecimal digit of `d`. */
  function HexChar(d: nat): (c: char)
    requires d < 16
  {
    if d < 10 then ('0' as int + d) as char else ('A' as int + d - 10) as char
  }

  /** The value of an upper-case hexadecimal digit, if `c` is one. */
  function HexDigitValue(c: char): (r: Option<nat>)
    ensures r.Some? ==> r.value < 16
  {
    if '0' <= c <= '9' then Some(c as int - '0' as int)
    else if 'A' <= c <= 'F' then Some(c as int - 'A' as int + 10)
    else None
  }

  /** Python's `format(n, "X")`: upper-case hexadecimal with no leading zeros. */
  function HexDigits(n: nat): (r: string)
    ensures |r| >= 1
    ensures n < 16 <==> |r| == 1
    ensures 16 <= n < 256 ==> |r| == 2
    decreases n
  {
    if n < 16 then [HexChar(n)] else HexDigits(n / 16) + [HexChar(n % 16)]
  }

  /** Python's `format(n, "02X")`: as `HexDigits`, zero-padded to two digits. */
  function Hex02(n: nat): (r: string)
    ensures n < 256 ==> |r| == 2
    ensures |r| >= 2
  {
    var h := HexDigits(n);
    if |h| < 2 then "0" + h else h
  }

  /** The value of a string of upper-case hexadecimal digits, read most significant first. */
  function HexValue(s: string): Option<nat> {
    if s == [] then Some(0)
    else
      match (HexValue(s[..|s| - 1]), HexDigitValue(s[|s| - 1]))
      case (Some(hi), Some(d)) => Some(hi * 16 + d)
      case _ => None
  }

  /** The framed sentence: `$body*HH` followed by the terminator. */
  function Framed(body: string, term: string): string {
    "$" + body + "*" + Hex02(XorOf(body) as nat) + term
  }

  /** `_with_checksum`: one pass over the body accumulating the exclusive-or, then the framing. */
  method WithChecksum(body: string, term: string) returns (s: string)
    ensures s == Framed(body, term)
  {
    var cs: bv32 := 0;
    for i := 0 to |body|
      invariant cs == XorOf(body[..i])
    {
      assert body[..i + 1][..i] == body[..i];
      cs := cs ^ Code(body[i]);
    }
    assert body[..|body|] == body;
    s := "$" + body + "*" + Hex02(cs as nat) + term;
  }

  /** A framed sentence starts with '$' and the body. */
  lemma FramedPrefix(body: string, term: string)
    ensures var f := Framed(body, term); |f| > |body| && f[1..|body| + 1] == body && f[0] == '$'
  {
    var f := Framed(body, term);
    assert f == "$" + body + ("*" + Hex02(XorOf(body) as nat) + term);
  }

  lemma HexCharValue(d: nat)
    requires d < 16
    ensures HexDigitValue(HexChar(d)) == Some(d)
  {
  }

  /** Reading the digits back gives the number. */
  lemma {:induction false} HexDigitsRoundTrip(n: nat)
    ensures HexValue(HexDigits(n)) == Some(n)
    decreases n
  {
    var h := HexDigits(n);
    if n < 16 {
      HexCharValue(n);
      assert h[..0] == [];
    } else {
      HexDigitsRoundTrip(n / 16);
      HexCharValue(n % 16);
      assert h[..|h| - 1] == HexDigits(n / 16);
    }
  }

  /** The two-digit form reads back as the number too: a leading zero adds nothing. */
  lemma Hex02RoundTrip(n: nat)
    ensures HexValue(Hex02(n)) == Some(n)
  {
    HexDigitsRoundTrip(n);
    var h := HexDigits(n);
    if |h| < 2 {
      var p := "0" + h;
      assert p[..1] == "0" && p[1] == h[0] && h[..0] == [];
      assert HexValue(p[..1]) == Some(0);
      assert HexValue(h) == Some(HexDigitValue(h[0]).value);
    }
  }

  /** The exclusive-or of 7-bit codes is a 7-bit code. */
  lemma {:induction false} AsciiXor(s: string)
    requires IsAscii(s)
    ensures XorOf(s) < 128
  {
    if s != [] {
      AsciiXor(s[..|s| - 1]);
      var a, b := XorOf(s[..|s| - 1]), Code(s[|s| - 1]);
      AsciiCode(s[|s| - 1]);
      assert a ^ b < 128 by { SevenBits(a, b); }
    }
  }

  lemma AsciiCode(c: char)
    requires c as int < 128
    ensures Code(c) < 128
  {
  }

  lemma SevenBits(a: bv32, b: bv32)
    requires a < 128 && b < 128
    ensures a ^ b < 128
  {
  }

  /** An ASCII body has a checksum of exactly two hexadecimal digits. */
  lemma AsciiChecksumWidth(body: string)
    requires IsAscii(body)
    ensures |Hex02(XorOf(body) as nat)| == 2
  {
    AsciiXor(body);
  }

  /**
   * What the tests recompute: when the body holds no '*', the text between
   * '$' and the first '*' is the body, and for an ASCII body the two
   * characters after that '*' are the checksum of that text, which reads
   * back as its value.
   */
  lemma ChecksumRecomputed(body: string, term: string)
    requires '*' !in body && IsAscii(body)
    ensures var s := Framed(body, term); var star := FirstIndexOf(s, '*');
      s[0] == '$' && star == |body| + 1 && s[1..star] == body &&
      star + 3 <= |s| && s[star + 1..star + 3] == Hex02(XorOf(s[1..star]) as nat) &&
      HexValue(s[star + 1..star + 3]) == Some(XorOf(s[1..star]) as nat)
  {
    var s := Framed(body, term);
    var hex := Hex02(XorOf(body) as nat);
    AsciiChecksumWidth(body);
    assert forall i :: 0 <= i < |body| ==> s[i + 1] == body[i];
    assert s[|body| + 1] == '*';
    var star := FirstIndexOf(s, '*');
    assert s[0] == '$';
    assert star == |body| + 1;
    assert s[1..star] == body;
    assert s[star + 1..star + 3] == hex;
    Hex02RoundTrip(XorOf(body) as nat);
  }

  /** The checksum of the total message in the tests' own terms, on a concrete body. */
  lemma FramedExample()
    ensures Framed("GPGGA", "\r\n") == "$GPGGA*56\r\n"
  {
    XorGpgga();
    Hex56();
    assert Framed("GPGGA", "\r\n") == "$" + "GPGGA" + "*" + "56" + "\r\n";
  }

  lemma Hex56()
    ensures Hex02(0x56) == "56"
  {
    assert HexDigits(5) == "5" && HexChar(6) == '6';
  }

  lemma XorGpgga()
    ensures XorOf("GPGGA") == 0x56
  {
    XorGp();
    var g, a: bv32 := Code('G'), Code('A');
    assert g == 0x47 && a == 0x41;
    assert XorOf("GPG") == 0x50 by { assert "GPG"[..2] == "GP"; }
    assert XorOf("GPGG") == 0x17 by { assert "GPGG"[..3] == "GPG"; }
    assert "GPGGA"[..4] == "GPGG";
  }

  lemma XorGp()
    ensures XorOf("GP") == 0x17
  {
    var g, p: bv32 := Code('G'), Code('P');
    assert g == 0x47 && p == 0x50;
    assert "GP"[..1] == "G" && "G"[..0] == [];
  }
}
