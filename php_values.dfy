/** PHP values as the response builders and the request translator handle them. */
module PhpValues {

  datatype Option<+T> = None | Some(value: T)
  {
    function GetOr(default: T): T
    {
      match this
      case Some(v) => v
      case None => default
    }
  }

  /** A PHP array key. Integer keys and string keys are distinct. */
  datatype Key = IntKey(i: int) | StrKey(s: string)

  /** A PHP value. `Arr` is a PHP array, an ordered map with unique keys;
      `EmptyObject` is `new \stdClass()`, which encodes as `{}`. */
  datatype Value =
    | Null
    | Bool(b: bool)
    | Int(i: int)
    | Str(s: string)
    | Arr(entries: seq<Entry>)
    | EmptyObject

  datatype Entry = Entry(key: Key, val: Value)

  /** PHP truthiness: null, false, 0, "", "0" and the empty array are falsy. */
  predicate Truthy(v: Value)
  {
    match v
    case Null => false
    case Bool(b) => b
    case Int(i) => i != 0
    case Str(s) => s != "" && s != "0"
    case Arr(a) => |a| > 0
    case EmptyObject => true
  }

  /** `$x ?? false` followed by a truth test. */
  predicate TruthyAt(o: Option<Value>)
  {
    o.Some? && Truthy(o.value)
  }

  function DigitChar(d: nat): char
    requires d < 10
  {
    ('0' as int + d) as char
  }

  /** Decimal rendering of a natural number. */
  function NatToString(n: nat): (s: string)
    ensures |s| > 0
    ensures forall i :: 0 <= i < |s| ==> '0' <= s[i] <= '9'
  {
    if n < 10 then [DigitChar(n)] else NatToString(n / 10) + [DigitChar(n % 10)]
  }

  /** Decimal rendering of an integer, as `(string)$i` gives it. */
  function IntToString(i: int): (s: string)
    ensures |s| > 0
    ensures i >= 0 ==> s[0] != '-'
    ensures i < 0 ==> s[0] == '-'
  {
    if i < 0 then "-" + NatToString(-i) else NatToString(i)
  }

  /** The `(string)` cast and the string conversion done by `.` concatenation.
      Arrays become "Array"; an object without __toString is not convertible and
      is rendered as the empty string here. */
  function ToPhpString(v: Value): string
  {
    match v
    case Null => ""
    case Bool(b) => if b then "1" else ""
    case Int(i) => IntToString(i)
    case Str(s) => s
    case Arr(_) => "Array"
    case EmptyObject => ""
  }

  /** The text of an array key, as `Str::contains($key, ...)` sees it. */
  function KeyText(k: Key): string
  {
    match k
    case IntKey(i) => IntToString(i)
    case StrKey(s) => s
  }

  /** The array key a value becomes when used as `$a[$v]`. */
  function KeyOf(v: Value): Key
  {
    match v
    case Int(i) => IntKey(i)
    case Bool(b) => IntKey(if b then 1 else 0)
    case Str(s) => StrKey(s)
    case _ => StrKey(ToPhpString(v))
  }

  /** The bounds of PHP's 64-bit integers. */
  const MaxInt: int := 0x7FFF_FFFF_FFFF_FFFF
  const MinInt: int := -0x8000_0000_0000_0000

  /** `(int)$v`. A string goes through `StringToInt`; an array gives 1 when
      non-empty and an object 1. */
  function ToInt(v: Value): int
  {
    match v
    case Null => 0
    case Bool(b) => if b then 1 else 0
    case Int(i) => i
    case Str(s) => StringToInt(s)
    case Arr(a) => if |a| == 0 then 0 else 1
    case EmptyObject => 1
  }

  /** The white space PHP skips before a number: space, tab, newline,
      carriage return, vertical tab and form feed. */
  predicate IsSpace(c: char)
  {
    c == ' ' || c == '\t' || c == '\n' || c == '\r' || c == '\U{B}' || c == '\U{C}'
  }

  predicate IsDigit(c: char)
  {
    '0' <= c <= '9'
  }

  predicate AllDigits(s: string)
  {
    forall i :: 0 <= i < |s| ==> IsDigit(s[i])
  }

  function SkipSpace(s: string): (t: string)
    ensures |t| <= |s| && t == s[|s| - |t|..]
    ensures t != [] ==> !IsSpace(t[0])
  {
    if s != [] && IsSpace(s[0]) then SkipSpace(s[1..]) else s
  }

  /** The length of the run of digits `s` starts with. */
  function DigitCount(s: string): (n: nat)
    ensures n <= |s| && AllDigits(s[..n])
    ensures n < |s| ==> !IsDigit(s[n])
  {
    if s != [] && IsDigit(s[0]) then 1 + DigitCount(s[1..]) else 0
  }

  /** The number a string of decimal digits denotes; it is only applied to
      digits, and reads anything else as 0. */
  function DigitsValue(s: string): nat
  {
    if s == [] then 0
    else
      var c := s[|s| - 1];
      DigitsValue(s[..|s| - 1]) * 10 + (if IsDigit(c) then c as int - '0' as int else 0)
  }

  function Pow10(k: nat): (p: nat)
    ensures p >= 1
  {
    if k == 0 then 1 else 10 * Pow10(k - 1)
  }

  /** The least magnitude of a decimal numeral that rounds to an infinite
      double: `DBL_MAX` plus half a unit in its last place, 2^1024 - 2^970. */
  const DoubleOverflow: nat :=
    0xFFFFFFFFFFFFFC00_0000000000000000_0000000000000000_0000000000000000_0000000000000000_0000000000000000_0000000000000000_0000000000000000_0000000000000000_0000000000000000_0000000000000000_0000000000000000_0000000000000000_0000000000000000_0000000000000000_0000000000000000

  /** An exponent part: `e` or `E`, an optional sign and at least one digit. */
  function Exponent(s: string): Option<int>
  {
    if |s| >= 2 && (s[0] == 'e' || s[0] == 'E') then
      var t := if s[1] == '-' || s[1] == '+' then s[2..] else s[1..];
      var n := DigitCount(t);
      if n == 0 then None
      else if s[1] == '-' then Some(0 - DigitsValue(t[..n]))
      else Some(DigitsValue(t[..n]))
    else None
  }

  /** `(int)` of the numeral `mantissa * 10^scale`, negated when `negative`:
      the value truncated toward zero when it fits in 64 bits; otherwise 0 when
      the numeral overflows a double, and the nearest bound when it does not. */
  function NumeralToInt(negative: bool, mantissa: nat, scale: int): (r: int)
    ensures MinInt <= r <= MaxInt
  {
    var whole := if scale >= 0 then mantissa * Pow10(scale) else mantissa / Pow10(-scale);
    var signed := if negative then -whole else whole;
    var infinite := if scale >= 0 then mantissa * Pow10(scale) >= DoubleOverflow
                    else mantissa >= DoubleOverflow * Pow10(-scale);
    if MinInt <= signed <= MaxInt then signed
    else if infinite then 0
    else if negative then MinInt
    else MaxInt
  }

  /** `(int)$s` for a string: white space skipped, then an optional sign and
      an unsigned numeral. */
  function StringToInt(s: string): (r: int)
    ensures MinInt <= r <= MaxInt
  {
    var t := SkipSpace(s);
    if t != [] && t[0] == '-' then UnsignedToInt(true, t[1..])
    else if t != [] && t[0] == '+' then UnsignedToInt(false, t[1..])
    else UnsignedToInt(false, t)
  }

  /** An unsigned numeral, negated when `negative`, cast by `NumeralToInt`. */
  function UnsignedToInt(negative: bool, u: string): (r: int)
    ensures MinInt <= r <= MaxInt
  {
    var (mantissa, scale) := Scan(u);
    NumeralToInt(negative, mantissa, scale)
  }

  /** The numeral `u` starts with, as its digits and a decimal scale: digits
      with an optional fraction and exponent, the rest of the string ignored;
      the numeral 0 when no digit starts it (a lone `.` included). */
  function Scan(u: string): (nat, int)
  {
    var n := DigitCount(u);
    if n < |u| && u[n] == '.' then ScanFraction(u[..n], u[n + 1..])
    else if n == 0 then (0, 0)
    else (DigitsValue(u[..n]), Exponent(u[n..]).GetOr(0))
  }

  /** The part of a numeral after its point: fraction digits, then an
      optional exponent, which counts from the end of the fraction. */
  function ScanFraction(whole: string, after: string): (nat, int)
  {
    var f := DigitCount(after);
    if |whole| == 0 && f == 0 then (0, 0)
    else (DigitsValue(whole + after[..f]), Exponent(after[f..]).GetOr(0) - f)
  }

  /** The digits of `NatToString(n)` denote `n`. */
  lemma {:induction false} NatStringValue(n: nat)
    ensures AllDigits(NatToString(n)) && DigitsValue(NatToString(n)) == n
  {
    var s := NatToString(n);
    if n >= 10 {
      NatStringValue(n / 10);
      assert s[..|s| - 1] == NatToString(n / 10);
    }
  }

  /** What may follow the digits of a whole number without extending it:
      nothing, or a character that starts neither a fraction nor an exponent. */
  predicate EndsNumeral(rest: string)
  {
    rest == [] || !(IsDigit(rest[0]) || rest[0] == '.' || rest[0] == 'e' || rest[0] == 'E')
  }

  lemma {:induction false} DigitCountAppend(u: string, rest: string)
    requires AllDigits(u)
    ensures DigitCount(u + rest) == |u| + DigitCount(rest)
  {
    if u == [] {
      assert u + rest == rest;
    } else {
      assert IsDigit(u[0]) && (u + rest)[0] == u[0];
      assert (u + rest)[1..] == u[1..] + rest;
      DigitCountAppend(u[1..], rest);
    }
  }

  /** Digits, then an optional exponent: the digits scaled by the exponent.
      Whatever follows is ignored. */
  lemma WholeNumeral(whole: string, rest: string)
    requires whole != [] && AllDigits(whole)
    requires rest == [] || !(IsDigit(rest[0]) || rest[0] == '.')
    ensures Scan(whole + rest) == (DigitsValue(whole), Exponent(rest).GetOr(0))
  {
    var w := whole + rest;
    DigitCountAppend(whole, rest);
    var n := |whole|;
    assert w[..n] == whole && w[n..] == rest;
  }

  /** A numeral with a point is read by `ScanFraction`. */
  lemma PointNumeral(whole: string, after: string)
    requires AllDigits(whole)
    ensures Scan(whole + "." + after) == ScanFraction(whole, after)
  {
    var w := whole + ("." + after);
    assert w == whole + "." + after;
    DigitCountAppend(whole, "." + after);
    var n := |whole|;
    assert w[..n] == whole && w[n] == '.' && w[n + 1..] == after;
  }

  /** Digits, a point, digits, then an optional exponent: the digits run
      together, scaled by the exponent less the number of fraction digits. */
  lemma FractionNumeral(whole: string, frac: string, rest: string)
    requires AllDigits(whole) && AllDigits(frac) && whole + frac != []
    requires rest == [] || !IsDigit(rest[0])
    ensures Scan(whole + "." + frac + rest) == (DigitsValue(whole + frac), Exponent(rest).GetOr(0) - |frac|)
  {
    var after := frac + rest;
    assert whole + "." + frac + rest == whole + "." + after;
    PointNumeral(whole, after);
    FractionDigits(whole, frac, rest);
  }

  lemma FractionDigits(whole: string, frac: string, rest: string)
    requires AllDigits(whole) && AllDigits(frac) && whole + frac != []
    requires rest == [] || !IsDigit(rest[0])
    ensures ScanFraction(whole, frac + rest) == (DigitsValue(whole + frac), Exponent(rest).GetOr(0) - |frac|)
  {
    var after := frac + rest;
    DigitCountAppend(frac, rest);
    var f := DigitCount(after);
    assert f == |frac| by {
      assert DigitCount(rest) == 0;
    }
    assert after[..f] == frac && after[f..] == rest;
    assert |whole| + f > 0;
  }

  /** A whole numeral within the 64-bit range is read exactly. */
  lemma NumeralWhole(negative: bool, m: nat)
    requires MinInt <= (if negative then -(m as int) else m) <= MaxInt
    ensures NumeralToInt(negative, m, 0) == if negative then -(m as int) else m
  {
    assert Pow10(0) == 1;
  }

  /** A string that starts with a minus sign is read as a negated numeral. */
  lemma StringToIntMinus(u: string)
    ensures StringToInt("-" + u) == UnsignedToInt(true, u)
  {
    var s := "-" + u;
    assert SkipSpace(s) == s;
    assert s[1..] == u;
  }

  /** A string that starts with a digit is read as it stands. */
  lemma StringToIntDigit(s: string)
    requires s != [] && IsDigit(s[0])
    ensures StringToInt(s) == UnsignedToInt(false, s)
  {
    assert SkipSpace(s) == s;
  }

  /** The decimal rendering of `n`, negated or not, followed by `rest`, is read
      as the numeral `n`. */
  lemma RenderedNumeral(negative: bool, n: nat, rest: string)
    requires EndsNumeral(rest)
    ensures StringToInt((if negative then "-" else "") + NatToString(n) + rest) == NumeralToInt(negative, n, 0)
  {
    var u := NatToString(n);
    NatStringValue(n);
    if negative {
      StringToIntMinus(u + rest);
      WholeNumeral(u, rest);
      assert "-" + u + rest == "-" + (u + rest);
    } else {
      var s := u + rest;
      assert s[0] == u[0];
      StringToIntDigit(s);
      WholeNumeral(u, rest);
      assert "" + u + rest == s;
    }
  }

  /** `(int)` undoes `(string)` on every 64-bit integer, and ignores what
      follows the number. */
  lemma IntStringRoundTrip(i: int, rest: string)
    requires MinInt <= i <= MaxInt && EndsNumeral(rest)
    ensures StringToInt(IntToString(i) + rest) == i
  {
    var m := if i < 0 then -i else i;
    RenderedNumeral(i < 0, m, rest);
    assert IntToString(i) == (if i < 0 then "-" else "") + NatToString(m);
    NumeralWhole(i < 0, m);
  }

  /** Beyond the 64-bit range `(int)` saturates, and past the largest double
      it gives 0. */
  lemma IntStringSaturates(negative: bool, n: nat)
    requires if negative then n > -MinInt else n > MaxInt
    ensures StringToInt((if negative then "-" else "") + NatToString(n)) ==
      if n >= DoubleOverflow then 0 else if negative then MinInt else MaxInt
  {
    RenderedNumeral(negative, n, "");
    assert (if negative then "-" else "") + NatToString(n) + "" == (if negative then "-" else "") + NatToString(n);
    assert Pow10(0) == 1;
  }

  /** White space before a number is skipped. */
  lemma LeadingSpace(c: char, s: string)
    requires IsSpace(c)
    ensures StringToInt([c] + s) == StringToInt(s)
  {
    assert ([c] + s)[1..] == s;
  }

  /** `json_encode` and `json_decode`, left abstract: the model never looks at JSON text. */
  datatype JsonCodec = JsonCodec(encode: Value -> Value, decode: Value -> Value)

  /** The one law the model requires of the codec: decoding undoes encoding. */
  ghost predicate RoundTrips(c: JsonCodec)
  {
    forall v :: c.decode(c.encode(v)) == v
  }
}
