/** The dynamically typed values a configuration form hands over, and the
    conversions `int(...)` and `float(...)` that the integration applies to them
    and to sensor state strings. */
module PyValue {
  import opened Text

  /** A value of a submitted form or of a stored configuration entry. */
  datatype Value = NoneV | BoolV(b: bool) | IntV(i: int) | FloatV(r: real) | StrV(s: string)

  predicate IsDigit(c: char) {
    '0' <= c <= '9'
  }

  predicate AllDigits(s: string) {
    forall i :: 0 <= i < |s| ==> IsDigit(s[i])
  }

  function DigitValue(c: char): nat
    requires IsDigit(c)
  {
    c as int - '0' as int
  }

  /** The number a string of decimal digits denotes. */
  function DigitsValue(s: string): nat
    requires AllDigits(s)
    decreases |s|
  {
    if s == [] then 0 else DigitsValue(s[..|s| - 1]) * 10 + DigitValue(s[|s| - 1])
  }

  /** The value of the digits after a decimal point: "25" stands for 0.25. */
  function FractionValue(s: string): (r: real)
    requires AllDigits(s)
    ensures 0.0 <= r <= 1.0
    decreases |s|
  {
    if s == [] then 0.0 else (DigitValue(s[0]) as real + FractionValue(s[1..])) / 10.0
  }

  /** Splits an optional leading sign off: (is it negative, the rest). */
  function SplitSign(t: string): (bool, string) {
    if t != [] && (t[0] == '+' || t[0] == '-') then (t[0] == '-', t[1..]) else (false, t)
  }

  /** `int(s)` for a string: surrounding white space, an optional sign and at
      least one decimal digit. */
  function ParseInt(s: string): Option<int> {
    var (negative, body) := SplitSign(Strip(s));
    if body != [] && AllDigits(body) then
      Some(if negative then -(DigitsValue(body) as int) else DigitsValue(body) as int)
    else
      None
  }

  /** Index of the first '.' in `s`, if any. */
  function DotIndex(s: string): (k: Option<nat>)
    ensures k.Some? ==> k.value < |s| && s[k.value] == '.'
    ensures k.None? ==> forall i :: 0 <= i < |s| ==> s[i] != '.'
    ensures k.Some? ==> forall i :: 0 <= i < k.value ==> s[i] != '.'
    decreases |s|
  {
    if s == [] then None
    else if s[0] == '.' then Some(0)
    else match DotIndex(s[1..])
      case None => None
      case Some(k) => Some(k + 1)
  }

  /** Value of "digits[.digits]" with at least one digit on either side of the point. */
  function DecimalValue(body: string): Option<real> {
    match DotIndex(body)
    case None =>
      if body != [] && AllDigits(body) then Some(DigitsValue(body) as real) else None
    case Some(k) =>
      var whole, frac := body[..k], body[k + 1..];
      if AllDigits(whole) && AllDigits(frac) && |whole| + |frac| > 0 then
        Some(DigitsValue(whole) as real + FractionValue(frac))
      else
        None
  }

  /** `float(s)` for a string in plain decimal notation. */
  function ParseFloat(s: string): Option<real> {
    var (negative, body) := SplitSign(Strip(s));
    match DecimalValue(body)
    case None => None
    case Some(v) => Some(if negative then -v else v)
  }

  /** A word that starts with neither a digit, a point nor a sign is no number. */
  lemma NotNumeric(s: string)
    requires s != [] && !IsSpace(s[0]) && !IsSpace(s[|s| - 1])
    requires !IsDigit(s[0]) && s[0] !in ".+-"
    ensures ParseFloat(s).None?
  {
    StripUnchanged(s);
    assert SplitSign(s) == (false, s);
  }

  function DigitChar(d: nat): (c: char)
    requires d < 10
    ensures IsDigit(c) && DigitValue(c) == d
  {
    ('0' as int + d) as char
  }

  /** Decimal digits of a natural number, most significant first. */
  function NatToString(n: nat): (s: string)
    ensures s != [] && AllDigits(s)
    decreases n
  {
    if n < 10 then [DigitChar(n)] else NatToString(n / 10) + [DigitChar(n % 10)]
  }

  /** `str(n)` for an integer. */
  function IntToString(n: int): string {
    if n < 0 then "-" + NatToString(-n) else NatToString(n)
  }

  lemma {:induction false} DigitsOfNat(n: nat)
    ensures DigitsValue(NatToString(n)) == n
    decreases n
  {
    if n >= 10 {
      var s := NatToString(n / 10);
      DigitsOfNat(n / 10);
      var t := s + [DigitChar(n % 10)];
      assert t[..|t| - 1] == s;
    }
  }

  /** `int(str(n)) == n`: the integer parser reads back what `str` writes. */
  lemma {:induction false} ParseIntOfIntToString(n: int)
    ensures ParseInt(IntToString(n)) == Some(n)
  {
    var s := IntToString(n);
    StripUnchanged(s);
    if n < 0 {
      DigitsOfNat(-n);
      assert SplitSign(s) == (true, NatToString(-n));
    } else {
      DigitsOfNat(n);
      assert SplitSign(s) == (false, NatToString(n));
    }
  }

  /** `int(r)` for a float: truncation toward zero. */
  function TruncToInt(r: real): (n: int)
    ensures r >= 0.0 ==> n as real <= r < n as real + 1.0
    ensures r < 0.0 ==> n as real - 1.0 < r <= n as real
  {
    if r >= 0.0 then r.Floor else -((-r).Floor)
  }

  /** Python's `int(v)`; `None` where it raises `ValueError` or `TypeError`. */
  function PyInt(v: Value): Option<int> {
    match v
    case NoneV => None
    case BoolV(b) => Some(if b then 1 else 0)
    case IntV(i) => Some(i)
    case FloatV(r) => Some(TruncToInt(r))
    case StrV(s) => ParseInt(s)
  }

  /** Python's `float(v)`; `None` where it raises. */
  function PyFloat(v: Value): Option<real> {
    match v
    case NoneV => None
    case BoolV(b) => Some(if b then 1.0 else 0.0)
    case IntV(i) => Some(i as real)
    case FloatV(r) => Some(r)
    case StrV(s) => ParseFloat(s)
  }

  /** `v is None or v == "" or str(v).strip() == ""`: only `None` and strings
      of white space are blank, since `str` of a number or a boolean never is. */
  predicate IsBlank(v: Value) {
    v.NoneV? || (v.StrV? && Strip(v.s) == "")
  }

  /** `d.get(k)`: `None` for a missing key. */
  function DictGet(d: map<string, Value>, k: string): (v: Value)
    ensures k !in d ==> v == NoneV
  {
    if k in d then d[k] else NoneV
  }

  /** `{**a, **b}`: every key of either dictionary, the value of `b` winning. */
  function MergeDicts(a: map<string, Value>, b: map<string, Value>): (m: map<string, Value>)
    ensures m.Keys == a.Keys + b.Keys
    ensures forall k :: k in b ==> m[k] == b[k]
    ensures forall k :: k in a && k !in b ==> m[k] == a[k]
  {
    a + b
  }
}
