// The standard base64 encoding of section 4 of RFC 4648: every three bytes
// become four characters of the 64-letter alphabet, and a final group of one
// or two bytes is completed with '=' padding.

module Base64 {
  import opened Wrappers

  type byte = b: int | 0 <= b < 256

  type sextet = v: int | 0 <= v < 64

  /** Letter `v` of the alphabet of Table 1 in RFC 4648. */
  function EncodeSextet(v: sextet): char {
    if v < 26 then ('A' as int + v) as char
    else if v < 52 then ('a' as int + (v - 26)) as char
    else if v < 62 then ('0' as int + (v - 52)) as char
    else if v == 62 then '+'
    else '/'
  }

  predicate IsBase64Char(c: char) {
    ('A' <= c <= 'Z') || ('a' <= c <= 'z') || ('0' <= c <= '9') || c == '+' || c == '/'
  }

  /** The value of an alphabet letter. */
  function DecodeSextet(c: char): sextet
    requires IsBase64Char(c)
  {
    if 'A' <= c <= 'Z' then c as int - 'A' as int
    else if 'a' <= c <= 'z' then c as int - 'a' as int + 26
    else if '0' <= c <= '9' then c as int - '0' as int + 52
    else if c == '+' then 62
    else 63
  }

  lemma SextetRoundTrip(v: sextet)
    ensures IsBase64Char(EncodeSextet(v)) && DecodeSextet(EncodeSextet(v)) == v
  {
  }

  lemma SextetInverse(c: char)
    requires IsBase64Char(c)
    ensures EncodeSextet(DecodeSextet(c)) == c
  {
  }

  function EncodeGroup(b0: byte, b1: byte, b2: byte): string {
    [EncodeSextet(b0 / 4), EncodeSextet((b0 % 4) * 16 + b1 / 16),
     EncodeSextet((b1 % 16) * 4 + b2 / 64), EncodeSextet(b2 % 64)]
  }

  /** `base64.b64encode(b)`, as the text of the encoded bytes. */
  function Encode(b: seq<byte>): (s: string)
    ensures |s| == 4 * ((|b| + 2) / 3)
  {
    if |b| == 0 then ""
    else if |b| == 1 then
      [EncodeSextet(b[0] / 4), EncodeSextet((b[0] % 4) * 16), '=', '=']
    else if |b| == 2 then
      [EncodeSextet(b[0] / 4), EncodeSextet((b[0] % 4) * 16 + b[1] / 16),
       EncodeSextet((b[1] % 16) * 4), '=']
    else EncodeGroup(b[0], b[1], b[2]) + Encode(b[3..])
  }

  function Byte0(v0: sextet, v1: sextet): byte { v0 * 4 + v1 / 16 }

  function Byte1(v1: sextet, v2: sextet): byte { (v1 % 16) * 16 + v2 / 4 }

  function Byte2(v2: sextet, v3: sextet): byte { (v2 % 4) * 64 + v3 }

  /** One four-character quantum; '=' may only pad the last one. */
  function DecodeQuantum(q: string, last: bool): Option<seq<byte>>
    requires |q| == 4
  {
    if !IsBase64Char(q[0]) || !IsBase64Char(q[1]) then None
    else
      var v0, v1 := DecodeSextet(q[0]), DecodeSextet(q[1]);
      if last && q[2] == '=' && q[3] == '=' then Some([Byte0(v0, v1)])
      else if !IsBase64Char(q[2]) then None
      else
        var v2 := DecodeSextet(q[2]);
        if last && q[3] == '=' then Some([Byte0(v0, v1), Byte1(v1, v2)])
        else if !IsBase64Char(q[3]) then None
        else Some([Byte0(v0, v1), Byte1(v1, v2), Byte2(v2, DecodeSextet(q[3]))])
  }

  /**
   * `base64.b64decode(s)` on text made only of alphabet letters and final
   * padding; None where Python raises `binascii.Error`.
   */
  function Decode(s: string): (r: Option<seq<byte>>)
    decreases |s|
  {
    if |s| == 0 then Some([])
    else if |s| < 4 then None
    else
      match DecodeQuantum(s[..4], |s| == 4)
      case None => None
      case Some(head) =>
        match Decode(s[4..])
        case None => None
        case Some(tail) => Some(head + tail)
  }

  lemma GroupBytes(b0: byte, b1: byte, b2: byte)
    ensures Byte0(b0 / 4, (b0 % 4) * 16 + b1 / 16) == b0
    ensures Byte1((b0 % 4) * 16 + b1 / 16, (b1 % 16) * 4 + b2 / 64) == b1
    ensures Byte2((b1 % 16) * 4 + b2 / 64, b2 % 64) == b2
  {
  }

  lemma QuantumOne(b0: byte)
    ensures DecodeQuantum(Encode([b0]), true) == Some([b0])
  {
    SextetRoundTrip(b0 / 4);
    SextetRoundTrip((b0 % 4) * 16);
    GroupBytes(b0, 0, 0);
  }

  lemma QuantumTwo(b0: byte, b1: byte)
    ensures DecodeQuantum(Encode([b0, b1]), true) == Some([b0, b1])
  {
    SextetRoundTrip(b0 / 4);
    SextetRoundTrip((b0 % 4) * 16 + b1 / 16);
    SextetRoundTrip((b1 % 16) * 4);
    GroupBytes(b0, b1, 0);
  }

  lemma QuantumThree(b0: byte, b1: byte, b2: byte, last: bool)
    ensures DecodeQuantum(EncodeGroup(b0, b1, b2), last) == Some([b0, b1, b2])
  {
    var v0, v1, v2, v3 := b0 / 4, (b0 % 4) * 16 + b1 / 16, (b1 % 16) * 4 + b2 / 64, b2 % 64;
    var q := EncodeGroup(b0, b1, b2);
    SextetRoundTrip(v0);
    SextetRoundTrip(v1);
    SextetRoundTrip(v2);
    SextetRoundTrip(v3);
    assert q[2] != '=' && q[3] != '=';
    assert DecodeQuantum(q, last) == Some([Byte0(v0, v1), Byte1(v1, v2), Byte2(v2, v3)]);
    GroupBytes(b0, b1, b2);
  }

  lemma DecodeCons(g: string, rest: string, head: seq<byte>, tail: seq<byte>)
    requires |g| == 4 && DecodeQuantum(g, rest == []) == Some(head) && Decode(rest) == Some(tail)
    ensures Decode(g + rest) == Some(head + tail)
  {
    var s := g + rest;
    assert s[..4] == g && s[4..] == rest;
  }

  lemma DecodeLast(g: string, head: seq<byte>)
    requires |g| == 4 && DecodeQuantum(g, true) == Some(head)
    ensures Decode(g) == Some(head)
  {
    assert g[..4] == g && g[4..] == [];
    assert head + [] == head;
  }

  lemma RoundTripOne(b: seq<byte>)
    requires |b| == 1
    ensures Decode(Encode(b)) == Some(b)
  {
    QuantumOne(b[0]);
    assert [b[0]] == b;
    DecodeLast(Encode(b), b);
  }

  lemma RoundTripTwo(b: seq<byte>)
    requires |b| == 2
    ensures Decode(Encode(b)) == Some(b)
  {
    QuantumTwo(b[0], b[1]);
    assert [b[0], b[1]] == b;
    DecodeLast(Encode(b), b);
  }

  lemma GroupThenRest(b: seq<byte>)
    requires |b| >= 3
    ensures Encode(b) == EncodeGroup(b[0], b[1], b[2]) + Encode(b[3..])
  {
  }

  lemma RoundTripStep(b: seq<byte>, g: string, rest: string)
    requires |b| >= 3 && g == EncodeGroup(b[0], b[1], b[2]) && rest == Encode(b[3..])
    requires Decode(rest) == Some(b[3..])
    ensures Decode(g + rest) == Some(b)
  {
    var head := [b[0], b[1], b[2]];
    QuantumThree(b[0], b[1], b[2], rest == []);
    DecodeCons(g, rest, head, b[3..]);
    HeadThenRest(b);
  }

  lemma HeadThenRest(b: seq<byte>)
    requires |b| >= 3
    ensures [b[0], b[1], b[2]] + b[3..] == b
  {
  }

  /** Decoding the encoding of any byte string gives the bytes back. */
  lemma {:induction false} RoundTrip(b: seq<byte>)
    ensures Decode(Encode(b)) == Some(b)
  {
    if |b| == 1 {
      RoundTripOne(b);
    } else if |b| == 2 {
      RoundTripTwo(b);
    } else if |b| >= 3 {
      RoundTrip(b[3..]);
      RoundTripStep(b, EncodeGroup(b[0], b[1], b[2]), Encode(b[3..]));
      GroupThenRest(b);
    }
  }

  /** Every encoded character is an alphabet letter or padding. */
  lemma {:induction false} EncodedAlphabet(b: seq<byte>)
    ensures forall i :: 0 <= i < |Encode(b)| ==> IsBase64Char(Encode(b)[i]) || Encode(b)[i] == '='
  {
    if |b| >= 3 {
      EncodedAlphabet(b[3..]);
      var g := EncodeGroup(b[0], b[1], b[2]);
      assert Encode(b) == g + Encode(b[3..]);
    }
  }

  /** Encoding is injective, because it has a left inverse. */
  lemma EncodeInjective(a: seq<byte>, b: seq<byte>)
    requires Encode(a) == Encode(b)
    ensures a == b
  {
    RoundTrip(a);
    RoundTrip(b);
  }
}
