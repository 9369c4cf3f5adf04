/**
 * The slice of JavaScript value semantics the request handlers and helpers rely on:
 * truthiness, `Number(...)`, `parseInt(...)`, `Math.max`/`Math.min` with NaN,
 * `Math.ceil` of a quotient and the text of a number in a template string.
 * Numbers are integers, NaN or an infinity; fractions are not modelled.
 */
module JsValues {

  /** A JavaScript number as far as the handlers use it. */
  datatype Num = Fin(v: int) | NaN | Inf(positive: bool)

  /** A value read from a JSON request body. */
  datatype Value = Undefined | Null | Bool(b: bool) | Number(n: Num) | Str(s: string)

  /** `if (n)`: 0 and NaN are falsy. */
  predicate NumTruthy(n: Num) {
    !(n == Fin(0) || n.NaN?)
  }

  /** `if (v)`: undefined, null, false, 0, NaN and "" are falsy, everything else truthy. */
  predicate Truthy(v: Value) {
    match v
    case Undefined => false
    case Null => false
    case Bool(b) => b
    case Number(n) => NumTruthy(n)
    case Str(s) => s != ""
  }

  /** Strict order on non-NaN numbers: -Infinity < every integer < Infinity. */
  predicate Less(a: Num, b: Num)
    requires !a.NaN? && !b.NaN?
  {
    match (a, b)
    case (Fin(x), Fin(y)) => x < y
    case (Inf(p), Fin(_)) => !p
    case (Fin(_), Inf(q)) => q
    case (Inf(p), Inf(q)) => !p && q
  }

  /** `Math.max(a, b)`: NaN if either is NaN, otherwise the larger. */
  function Max(a: Num, b: Num): (r: Num)
    ensures r.NaN? <==> a.NaN? || b.NaN?
    ensures !r.NaN? ==> (r == a || r == b) && !Less(r, a) && !Less(r, b)
  {
    if a.NaN? || b.NaN? then NaN
    else if Less(a, b) then b
    else a
  }

  /** `Math.min(a, b)`: NaN if either is NaN, otherwise the smaller. */
  function Min(a: Num, b: Num): (r: Num)
    ensures r.NaN? <==> a.NaN? || b.NaN?
    ensures !r.NaN? ==> (r == a || r == b) && !Less(a, r) && !Less(b, r)
  {
    if a.NaN? || b.NaN? then NaN
    else if Less(b, a) then b
    else a
  }

  /** `Math.min(hi, Math.max(lo, n))` with lo <= hi: within [lo, hi], or NaN. */
  lemma ClampBounds(lo: int, hi: int, n: Num)
    requires lo <= hi
    ensures var r := Min(Fin(hi), Max(Fin(lo), n));
            (r.NaN? <==> n.NaN?) && (!r.NaN? ==> r.Fin? && lo <= r.v <= hi)
            && (n.Fin? && lo <= n.v <= hi ==> r == n)
  {
  }

  /** `Math.ceil(a / b)` for integers; NaN or an infinity when b is 0. */
  function CeilDiv(a: int, b: int): (r: Num)
    ensures b == 0 ==> r == (if a == 0 then NaN else Inf(a > 0))
    ensures b > 0 ==> r.Fin? && (r.v - 1) * b < a <= r.v * b
  {
    if b == 0 then (if a == 0 then NaN else Inf(a > 0))
    else if b > 0 then Fin(-((-a) / b))
    else Fin(a / b)
  }

  /** `Math.ceil(a / b)` where the divisor is itself a number (NaN propagates). */
  function CeilDivNum(a: int, b: Num): (r: Num)
    ensures b.NaN? ==> r.NaN?
    ensures b.Fin? && b.v > 0 ==> r.Fin? && (r.v - 1) * b.v < a <= r.v * b.v
    ensures b.Inf? ==> r == Fin(0)
  {
    match b
    case NaN => NaN
    case Fin(d) => CeilDiv(a, d)
    case Inf(_) => Fin(0)
  }

  /** `a - b` on numbers. */
  function Sub(a: Num, b: int): (r: Num)
    ensures a.Fin? <==> r.Fin?
    ensures a.Fin? ==> r.v + b == a.v
  {
    match a
    case Fin(x) => Fin(x - b)
    case NaN => NaN
    case Inf(p) => Inf(p)
  }

  /** `a * b` on numbers (0 times an infinity is NaN). */
  function Mul(a: Num, b: Num): (r: Num)
    ensures a.NaN? || b.NaN? ==> r.NaN?
    ensures a.Fin? && b.Fin? ==> r == Fin(a.v * b.v)
  {
    match (a, b)
    case (Fin(x), Fin(y)) => Fin(x * y)
    case (NaN, _) => NaN
    case (_, NaN) => NaN
    case (Inf(p), Fin(y)) => if y == 0 then NaN else Inf(p == (y > 0))
    case (Fin(x), Inf(q)) => if x == 0 then NaN else Inf(q == (x > 0))
    case (Inf(p), Inf(q)) => Inf(p == q)
  }

  predicate IsDigit(c: char) {
    '0' <= c <= '9'
  }

  predicate AllDigits(s: string) {
    forall i :: 0 <= i < |s| ==> IsDigit(s[i])
  }

  function DigitValue(c: char): (d: nat)
    requires IsDigit(c)
    ensures d < 10
  {
    (c as int) - ('0' as int)
  }

  function DigitChar(d: nat): (c: char)
    requires d < 10
    ensures IsDigit(c) && DigitValue(c) == d
  {
    (('0' as int) + d) as char
  }

  /** The value of a run of decimal digits, most significant first. */
  function DigitsValue(s: string): nat
    requires AllDigits(s)
  {
    if s == [] then 0 else 10 * DigitsValue(s[..|s| - 1]) + DigitValue(s[|s| - 1])
  }

  /** Length of the longest prefix made of decimal digits. */
  function DigitPrefixLen(s: string): (n: nat)
    ensures n <= |s| && AllDigits(s[..n])
    ensures n < |s| ==> !IsDigit(s[n])
  {
    if s == [] || !IsDigit(s[0]) then 0
    else
      var k := DigitPrefixLen(s[1..]);
      assert s[..k + 1] == [s[0]] + s[1..][..k];
      k + 1
  }

  /** Decimal text of a natural number, no leading zeros. */
  function NatToString(n: nat): (s: string)
    ensures s != [] && AllDigits(s)
    decreases n
  {
    if n < 10 then [DigitChar(n)] else NatToString(n / 10) + [DigitChar(n % 10)]
  }

  /** Decimal text of an integer, as a template literal writes it. */
  function IntToString(i: int): (s: string)
    ensures s != []
  {
    if i < 0 then "-" + NatToString(-i) else NatToString(i)
  }

  /** `${n}` for a number. */
  function NumToString(n: Num): (s: string)
    ensures s != []
  {
    match n
    case Fin(i) => IntToString(i)
    case NaN => "NaN"
    case Inf(p) => if p then "Infinity" else "-Infinity"
  }

  /** A leading `+` or `-` and the rest of the text. */
  function SplitSign(s: string): (bool, string)
  {
    if s != [] && (s[0] == '-' || s[0] == '+') then (s[0] == '-', s[1..]) else (false, s)
  }

  /**
   * `parseInt(s)`, read in base 10: an optional sign, then the longest run of digits;
   * the rest of the text is ignored; NaN when there is no digit.
   */
  function ParseInt(s: string): (r: Num)
    ensures r.Fin? || r.NaN?
    ensures r.Fin? <==> DigitPrefixLen(SplitSign(s).1) > 0
  {
    var (neg, rest) := SplitSign(s);
    var k := DigitPrefixLen(rest);
    if k == 0 then NaN
    else
      var m: int := DigitsValue(rest[..k]);
      Fin(if neg then -m else m)
  }

  /**
   * `Number(s)`: the empty text is 0, an optionally signed run of digits is its
   * value, anything else is NaN.
   */
  function ToNumber(s: string): (r: Num)
    ensures r.Fin? || r.NaN?
    ensures s == "" ==> r == Fin(0)
    ensures r.Fin? <==> s == "" || (SplitSign(s).1 != [] && AllDigits(SplitSign(s).1))
  {
    if s == "" then Fin(0)
    else
      var (neg, rest) := SplitSign(s);
      if rest != [] && AllDigits(rest) then
        var m: int := DigitsValue(rest);
        Fin(if neg then -m else m)
      else NaN
  }

  lemma {:induction false} DigitsValueAppend(s: string, c: char)
    requires AllDigits(s) && IsDigit(c)
    ensures AllDigits(s + [c]) && DigitsValue(s + [c]) == 10 * DigitsValue(s) + DigitValue(c)
  {
    var t := s + [c];
    assert t[..|t| - 1] == s;
  }

  /** Reading back the decimal text of a natural number gives the number. */
  lemma {:induction false} NatToStringValue(n: nat)
    ensures DigitsValue(NatToString(n)) == n
    decreases n
  {
    if n < 10 {
      assert NatToString(n) == [DigitChar(n)];
      assert [DigitChar(n)][..0] == [];
    } else {
      NatToStringValue(n / 10);
      DigitsValueAppend(NatToString(n / 10), DigitChar(n % 10));
    }
  }

  lemma NatToStringUnsigned(n: nat)
    ensures NatToString(n)[0] != '-' && NatToString(n)[0] != '+'
  {
  }

  /** `Number(String(i)) === i`. */
  lemma ToNumberRoundTrip(i: int)
    ensures ToNumber(IntToString(i)) == Fin(i)
  {
    var s := IntToString(i);
    if i < 0 {
      NatToStringValue(-i);
      assert SplitSign(s).1 == NatToString(-i);
    } else {
      NatToStringValue(i);
      NatToStringUnsigned(i);
      assert SplitSign(s).1 == NatToString(i);
    }
  }

  lemma AllDigitsPrefixLen(s: string)
    requires AllDigits(s)
    ensures DigitPrefixLen(s) == |s|
  {
    var k := DigitPrefixLen(s);
    if k < |s| {
      assert false;
    }
  }

  /** `parseInt(String(i)) === i`. */
  lemma ParseIntRoundTrip(i: int)
    ensures ParseInt(IntToString(i)) == Fin(i)
  {
    var s := IntToString(i);
    var m: nat := if i < 0 then -i else i;
    NatToStringValue(m);
    NatToStringUnsigned(m);
    assert SplitSign(s).1 == NatToString(m);
    AllDigitsPrefixLen(NatToString(m));
    assert NatToString(m)[..|NatToString(m)|] == NatToString(m);
  }

  /** On text that is entirely an optionally signed run of digits, `parseInt` and `Number` agree. */
  lemma ParseIntAgreesWithToNumber(s: string)
    requires SplitSign(s).1 != [] && AllDigits(SplitSign(s).1)
    ensures ParseInt(s) == ToNumber(s)
  {
    var rest := SplitSign(s).1;
    AllDigitsPrefixLen(rest);
    assert rest[..|rest|] == rest;
  }
}
