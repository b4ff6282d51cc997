// Shared vocabulary: optional values, results carrying the Python exception
// an operation raises, a model of decoded JSON values, and the small pieces of
// Python's string and number semantics that the modelled code relies on.

module Wrappers {
  datatype Option<T> = None | Some(value: T)

  datatype Result<T> = Success(value: T) | Failure(error: PyError)

  /** The Python exception classes raised by the modelled code. */
  datatype PyError =
    | TypeError
    | ValueError
    | RuntimeError
    | ZeroDivisionError
    | FileNotFoundError
    | AttributeError
    | IndexError
    | KeyError

  /** The outcome of a state-changing call that returns nothing on success. */
  datatype Outcome = Pass | Fail(error: PyError)
}

module Text {
  /** Python's `str.isspace` on the ASCII and Latin-1 range. */
  predicate IsSpace(c: char) {
    c == ' ' || c == '\t' || c == '\n' || c == '\r' || c == '\U{0B}' || c == '\U{0C}'
    || ('\U{1C}' <= c <= '\U{1F}') || c == '\U{85}' || c == '\U{A0}'
  }

  predicate IsAsciiLetter(c: char) {
    ('a' <= c <= 'z') || ('A' <= c <= 'Z')
  }

  predicate IsDigit(c: char) {
    '0' <= c <= '9'
  }

  /** Python's `str.isalnum` restricted to ASCII. */
  predicate IsAlnum(c: char) {
    IsAsciiLetter(c) || IsDigit(c)
  }

  function TrimLeft(s: string): string {
    if |s| > 0 && IsSpace(s[0]) then TrimLeft(s[1..]) else s
  }

  function TrimRight(s: string): string {
    if |s| > 0 && IsSpace(s[|s| - 1]) then TrimRight(s[..|s| - 1]) else s
  }

  /** Python's `str.strip()`: drop leading and trailing whitespace. */
  function Strip(s: string): string {
    TrimRight(TrimLeft(s))
  }

  /** What `TrimLeft` drops are spaces, and what it keeps is a suffix that does not start with one. */
  lemma {:induction false} TrimLeftShape(s: string)
    ensures var r := TrimLeft(s);
      |r| <= |s| && r == s[|s| - |r|..] && (|r| > 0 ==> !IsSpace(r[0])) &&
      forall i :: 0 <= i < |s| - |r| ==> IsSpace(s[i])
  {
    if |s| > 0 && IsSpace(s[0]) {
      TrimLeftShape(s[1..]);
    }
  }

  /** What `TrimRight` drops are spaces, and what it keeps is a prefix that does not end with one. */
  lemma {:induction false} TrimRightShape(s: string)
    ensures var r := TrimRight(s);
      |r| <= |s| && r == s[..|r|] && (|r| > 0 ==> !IsSpace(r[|r| - 1])) &&
      forall i :: |r| <= i < |s| ==> IsSpace(s[i])
  {
    if |s| > 0 && IsSpace(s[|s| - 1]) {
      TrimRightShape(s[..|s| - 1]);
    }
  }

  /** The stripped text neither starts nor ends with a space, and it is empty exactly when `s` is all spaces. */
  lemma StripShape(s: string)
    ensures var r := Strip(s);
      (|r| > 0 ==> !IsSpace(r[0]) && !IsSpace(r[|r| - 1])) &&
      (r == [] <==> forall i :: 0 <= i < |s| ==> IsSpace(s[i]))
  {
    var l := TrimLeft(s);
    TrimLeftShape(s);
    TrimRightShape(l);
    var r := TrimRight(l);
    if |r| > 0 {
      assert r[0] == l[0];
    }
    if |l| > 0 {
      assert l[0] == s[|s| - |l|];
    }
  }

  /** Stripping text that neither starts nor ends with a space changes nothing. */
  lemma StripUnspaced(s: string)
    requires |s| > 0 && !IsSpace(s[0]) && !IsSpace(s[|s| - 1])
    ensures Strip(s) == s
  {
    assert TrimLeft(s) == s;
    assert TrimRight(s) == s;
  }

  function UpperChar(c: char): char {
    if 'a' <= c <= 'z' then (c as int - 32) as char else c
  }

  function LowerChar(c: char): char {
    if 'A' <= c <= 'Z' then (c as int + 32) as char else c
  }

  /** Python's `str.upper()` on ASCII letters. */
  function Upper(s: string): (r: string)
    ensures |r| == |s|
    ensures forall i :: 0 <= i < |s| ==> r[i] == UpperChar(s[i])
  {
    if s == [] then [] else [UpperChar(s[0])] + Upper(s[1..])
  }

  /** Upper-casing leaves a string without lower-case ASCII letters as it is. */
  lemma {:induction false} UpperFixed(s: string)
    requires forall i :: 0 <= i < |s| ==> !('a' <= s[i] <= 'z')
    ensures Upper(s) == s
  {
    if s != [] {
      UpperFixed(s[1..]);
    }
  }

  /** Python's `str.lower()` on ASCII letters. */
  function Lower(s: string): (r: string)
    ensures |r| == |s|
    ensures forall i :: 0 <= i < |s| ==> r[i] == LowerChar(s[i])
  {
    if s == [] then [] else [LowerChar(s[0])] + Lower(s[1..])
  }

  predicate EndsWith(s: string, suffix: string) {
    |suffix| <= |s| && s[|s| - |suffix|..] == suffix
  }

  predicate StartsWith(s: string, prefix: string) {
    |prefix| <= |s| && s[..|prefix|] == prefix
  }

  /** Python's `str.split(sep)`: always at least one piece, none containing `sep`. */
  function Split(s: string, sep: char): (r: seq<string>)
    ensures |r| >= 1
    ensures forall k :: 0 <= k < |r| ==> sep !in r[k]
  {
    if s == [] then [""]
    else
      var rest := Split(s[1..], sep);
      if s[0] == sep then [""] + rest
      else [[s[0]] + rest[0]] + rest[1..]
  }

  function DigitValue(c: char): int
    requires IsDigit(c)
  {
    c as int - '0' as int
  }

  /** The value of a non-empty run of decimal digits. */
  function DigitsValue(s: string): nat
    requires forall i :: 0 <= i < |s| ==> IsDigit(s[i])
  {
    if s == [] then 0 else DigitsValue(s[..|s| - 1]) * 10 + DigitValue(s[|s| - 1])
  }

  function FractionValue(s: string): real
    requires forall i :: 0 <= i < |s| ==> IsDigit(s[i])
  {
    if s == [] then 0.0 else (DigitValue(s[0]) as real + FractionValue(s[1..])) / 10.0
  }

  predicate AllDigits(s: string) {
    forall i :: 0 <= i < |s| ==> IsDigit(s[i])
  }
}

module PyMath {
  /** Python's `x % m` on floats for a positive modulus: the floored remainder. */
  function FloorMod(x: real, m: real): (r: real)
    requires m > 0.0
    ensures 0.0 <= r < m
    ensures 0.0 <= x < m ==> r == x
    ensures m <= x < 2.0 * m ==> r == x - m
  {
    var k := (x / m).Floor;
    FloorDivBounds(x, m);
    assert 0.0 <= x < m ==> k == 0 by {
      if 0.0 <= x < m { DivBounds(x, m); }
    }
    assert m <= x < 2.0 * m ==> k == 1 by {
      if m <= x < 2.0 * m { SecondPeriod(x, m); }
    }
    x - k as real * m
  }

  /** The floored quotient `k` of `x / m` puts `x` in `[k * m, k * m + m)`. */
  lemma FloorDivBounds(x: real, m: real)
    requires m > 0.0
    ensures var k := (x / m).Floor; k as real * m <= x < k as real * m + m
  {
    var q := x / m;
    var k := q.Floor;
    assert x == q * m;
    assert k as real <= q < k as real + 1.0;
    ScaleBounds(k as real, q, k as real + 1.0, m);
    assert q * m < (k as real + 1.0) * m;
    assert (k as real + 1.0) * m == k as real * m + m;
    assert x < k as real * m + m;
  }

  lemma DivBounds(x: real, m: real)
    requires 0.0 <= x < m
    ensures 0.0 <= x / m < 1.0
  {
  }

  lemma SecondPeriod(x: real, m: real)
    requires m > 0.0 && m <= x < 2.0 * m
    ensures 1.0 <= x / m < 2.0
  {
    var y := x / m;
    assert y * m == x;
    if y < 1.0 {
      ScaleBounds(y, y, 1.0, m);
    } else if y >= 2.0 {
      ScaleBounds(2.0, y, y + 1.0, m);
    }
  }

  lemma ScaleBounds(lo: real, q: real, hi: real, m: real)
    requires lo <= q < hi && m > 0.0
    ensures lo * m <= q * m < hi * m
  {
  }

  /** Python's `int(x)` on a float: truncation toward zero. */
  function Trunc(x: real): (r: int)
    ensures x >= 0.0 ==> r as real <= x < r as real + 1.0
    ensures x < 0.0 ==> r as real - 1.0 < x <= r as real
  {
    if x >= 0.0 then x.Floor else -((-x).Floor)
  }

  function Max(a: real, b: real): real { if a >= b then a else b }

  function Min(a: real, b: real): real { if a <= b then a else b }

  /** `numpy.clip(x, lo, hi)`, which is `minimum(maximum(x, lo), hi)`. */
  function Clip(x: real, lo: real, hi: real): (r: real)
    ensures lo <= hi ==> lo <= r <= hi
    ensures lo <= x <= hi ==> r == x
  {
    Min(Max(x, lo), hi)
  }

  function ClipInt(x: int, lo: int, hi: int): (r: int)
    ensures lo <= hi ==> lo <= r <= hi
    ensures lo <= x <= hi ==> r == x
  {
    if x < lo then (if lo <= hi then lo else hi) else if x > hi then hi else x
  }

  /** `numpy.rint`: round to the nearest integer, halves to the even neighbour. */
  function RoundHalfEven(x: real): (r: int)
    ensures -0.5 <= x - r as real <= 0.5
    ensures x - r as real == 0.5 || x - r as real == -0.5 ==> r % 2 == 0
  {
    var f := x.Floor;
    var d := x - f as real;
    if d < 0.5 then f
    else if d > 0.5 then f + 1
    else if f % 2 == 0 then f
    else f + 1
  }

  const MinInt16: int := -32768
  const MaxInt16: int := 32767

  /** The value of pi that Python's `math.pi` holds. */
  const Pi: real := 3.141592653589793
}

module Json {
  import opened Wrappers
  import opened Text
  import PyMath

  /**
   * A decoded JSON value as Python's `json.loads` yields it. Integers and
   * floats stay distinct, as in Python; `JNonFinite` is one of the NaN or
   * infinity literals that Python's decoder also accepts.
   */
  datatype Json =
    | JNull
    | JBool(b: bool)
    | JInt(i: int)
    | JFloat(r: real)
    | JNonFinite
    | JStr(s: string)
    | JArr(items: seq<Json>)
    | JObj(fields: map<string, Json>)

  /** `isinstance(v, (int, float))`; a Python bool is an int. */
  predicate IsNumber(v: Json) {
    v.JBool? || v.JInt? || v.JFloat? || v.JNonFinite?
  }

  /** `isinstance(v, int)`. */
  predicate IsInt(v: Json) {
    v.JBool? || v.JInt?
  }

  /** The value of a Python int (a bool counts as 0 or 1). */
  function IntOf(v: Json): int
    requires IsInt(v)
  {
    if v.JBool? then (if v.b then 1 else 0) else v.i
  }

  /**
   * `isinstance(v, (int, float)) and math.isfinite(float(v))`, except that an
   * int of any size counts as finite: the model does not bound ints, where
   * `float(v)` raises OverflowError from magnitude 2^1024 on.
   */
  predicate IsFiniteNumber(v: Json) {
    v.JBool? || v.JInt? || v.JFloat?
  }

  /** The numeric value of a finite number. */
  function NumValue(v: Json): real
    requires IsFiniteNumber(v)
  {
    match v
    case JBool(b) => if b then 1.0 else 0.0
    case JInt(i) => i as real
    case JFloat(r) => r
  }

  /** `d.get(key, default)` on an object. */
  function GetOr(m: map<string, Json>, key: string, default: Json): (r: Json)
    ensures key in m ==> r == m[key]
    ensures key !in m ==> r == default
  {
    if key in m then m[key] else default
  }

  /** `d.get(key)`: an absent key reads as None. */
  function Get(m: map<string, Json>, key: string): Json {
    GetOr(m, key, JNull)
  }

  /** A plain decimal literal with an optional sign: the one string form of `float()` modelled. */
  function ParseDecimal(s: string): Option<real> {
    var t := Strip(s);
    var neg := |t| > 0 && t[0] == '-';
    var u := if |t| > 0 && (t[0] == '-' || t[0] == '+') then t[1..] else t;
    var dot := FirstIndexOf(u, '.');
    var whole := u[..dot];
    var frac := if dot < |u| then u[dot + 1..] else "";
    if AllDigits(whole) && AllDigits(frac) && |whole| + |frac| > 0 then
      var v := DigitsValue(whole) as real + FractionValue(frac);
      Some(if neg then -v else v)
    else None
  }

  /** A plain decimal integer literal with an optional sign: the string form of `int()` modelled. */
  function ParseInteger(s: string): Option<int> {
    var t := Strip(s);
    var neg := |t| > 0 && t[0] == '-';
    var u := if |t| > 0 && (t[0] == '-' || t[0] == '+') then t[1..] else t;
    if |u| > 0 && AllDigits(u) then Some(if neg then -(DigitsValue(u) as int) else DigitsValue(u)) else None
  }

  function FirstIndexOf(s: string, c: char): (k: nat)
    ensures k <= |s|
    ensures k < |s| ==> s[k] == c
    ensures forall i :: 0 <= i < k ==> s[i] != c
  {
    if s == [] then 0 else if s[0] == c then 0 else 1 + FirstIndexOf(s[1..], c)
  }

  /**
   * Python's `float(v)` when it yields a finite value; None where it raises
   * (None, containers, unparsable strings) and for non-finite values. An int
   * of any size converts, although Python raises OverflowError from
   * magnitude 2^1024 on.
   */
  function ToFloat(v: Json): (r: Option<real>)
    ensures IsFiniteNumber(v) ==> r == Some(NumValue(v))
    ensures v.JNull? || v.JArr? || v.JObj? || v.JNonFinite? ==> r.None?
  {
    match v
    case JBool(b) => Some(if b then 1.0 else 0.0)
    case JInt(i) => Some(i as real)
    case JFloat(x) => Some(x)
    case JStr(s) => ParseDecimal(s)
    case _ => None
  }

  /**
   * Python's `str(v)`: a string is itself; the text of any other value is
   * Python's rendering of it, which the caller supplies as `repr`.
   */
  function PyStr(v: Json, repr: Json -> string): (r: string)
    ensures v.JStr? ==> r == v.s
  {
    if v.JStr? then v.s else repr(v)
  }

  /** Python's `int(v)`: floats truncate toward zero; None where it raises. */
  function ToInt(v: Json): (r: Option<int>)
    ensures v.JInt? ==> r == Some(v.i)
    ensures v.JNull? || v.JArr? || v.JObj? || v.JNonFinite? ==> r.None?
  {
    match v
    case JBool(b) => Some(if b then 1 else 0)
    case JInt(i) => Some(i)
    case JFloat(x) => Some(PyMath.Trunc(x))
    case JStr(s) => ParseInteger(s)
    case _ => None
  }
}
