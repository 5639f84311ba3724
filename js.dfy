/** The JavaScript conversions the handlers apply to request values:
    truthiness, `x || null`, `parseInt`, `Number`/`isNaN`, and the way the
    database driver binds a number to an integer parameter. */
module Js {
  import opened Wrappers
  import opened Text

  /** Truthiness of an optional string field: present and not empty. */
  predicate Truthy(o: Option<string>)
  {
    o.Some? && o.value != []
  }

  /** `x || null` on a string: truthiness is kept, nothing is invented and
      no empty string survives. */
  function OrNull(o: Option<string>): (r: Option<string>)
    ensures Truthy(r) <==> Truthy(o)
    ensures r.None? || r == o
    ensures r != Some([])
  {
    if Truthy(o) then o else None
  }

  /** `x ? f(x) : null`, the optional-field pattern of the handlers: null
      exactly where `x || null` is, `f` applied to what `x || null` keeps,
      and with `f` the identity it is `x || null` itself. */
  function MapTruthy(o: Option<string>, f: string -> string): (r: Option<string>)
    ensures r.None? <==> OrNull(o).None?
    ensures r.Some? ==> r.value == f(OrNull(o).value)
    ensures (forall s :: f(s) == s) ==> r == OrNull(o)
  {
    if Truthy(o) then Some(f(o.value)) else None
  }

  /** A JSON body value whose type the handler does not fix. */
  datatype Value = Undefined | NullValue | Bool(b: bool) | Number(n: int) | Str(s: string)

  /** `v ? true : false`: false, 0, '', null and undefined are falsy. */
  predicate TruthyValue(v: Value)
  {
    match v
    case Undefined => false
    case NullValue => false
    case Bool(b) => b
    case Number(n) => n != 0
    case Str(s) => s != []
  }

  /** A number as the handlers hold it: `null`, `NaN`, or an integer. */
  datatype Num = Null | NaN | Int(value: int)

  /** `n || null` on a number: 0 and NaN are falsy, so 0 never survives,
      nothing is invented and every other integer is kept. */
  function IntOrNull(n: Num): (r: Option<int>)
    ensures r != Some(0)
    ensures r.Some? ==> n == Int(r.value)
    ensures n.Int? && n.value != 0 ==> r.Some?
  {
    if n.Int? && n.value != 0 then Some(n.value) else None
  }

  /** The number a nullable integer column reads back as. */
  function Lido(o: Option<int>): Num
  {
    if o.Some? then Int(o.value) else Null
  }

  /** Binding a number to an integer parameter: `NaN` makes the driver
      reject the request; anything else is stored so that it reads back
      as the number that was bound. */
  function SqlInt(n: Num): (r: Result<Option<int>, string>)
    ensures r.Failure? <==> n.NaN?
    ensures r.Success? ==> Lido(r.value) == n
  {
    match n
      case Null => Success(None)
      case NaN => Failure("Invalid number.")
      case Int(v) => Success(Some(v))
  }

  function DigitValue(c: char): nat
    requires IsDigit(c)
  {
    c as int - '0' as int
  }

  function DigitChar(d: nat): (c: char)
    requires d < 10
    ensures IsDigit(c) && DigitValue(c) == d
  {
    (d + '0' as int) as char
  }

  /** The value of a string of decimal digits, read left to right. */
  function DecimalValue(ds: string): nat
    requires AllDigits(ds)
  {
    if ds == [] then 0 else DecimalValue(ds[..|ds| - 1]) * 10 + DigitValue(ds[|ds| - 1])
  }

  /** The canonical decimal text of a natural number. */
  function Decimal(n: nat): (s: string)
    ensures s != [] && AllDigits(s)
  {
    if n < 10 then [DigitChar(n)] else Decimal(n / 10) + [DigitChar(n % 10)]
  }

  lemma {:induction false} DecimalRoundTrip(n: nat)
    ensures DecimalValue(Decimal(n)) == n
  {
    if n >= 10 {
      DecimalRoundTrip(n / 10);
      var s := Decimal(n);
      assert s[..|s| - 1] == Decimal(n / 10);
    }
  }

  /** The longest prefix of digits. */
  function LeadingDigits(s: string): (r: string)
    ensures AllDigits(r) && StartsWith(s, r)
    ensures |r| == |s| || !IsDigit(s[|r|])
  {
    if s != [] && IsDigit(s[0]) then [s[0]] + LeadingDigits(s[1..]) else []
  }

  lemma {:induction false} LeadingDigitsOfDigits(ds: string, rest: string)
    requires AllDigits(ds)
    requires rest == [] || !IsDigit(rest[0])
    ensures LeadingDigits(ds + rest) == ds
  {
    if ds != [] {
      assert (ds + rest)[1..] == ds[1..] + rest;
      LeadingDigitsOfDigits(ds[1..], rest);
    }
  }

  /** `parseInt(s)` in base 10: leading whitespace skipped, then the sign
      and the digits are read. */
  function ParseInt(s: string): (r: Num)
    ensures r != Null
  {
    ParseSigned(TrimStart(s))
  }

  /** An optional sign, then as many digits as there are; no digit at all
      is `NaN`. */
  function ParseSigned(t: string): (r: Num)
    ensures r != Null
  {
    var neg := t != [] && t[0] == '-';
    var u := if t != [] && (t[0] == '-' || t[0] == '+') then t[1..] else t;
    var ds := LeadingDigits(u);
    if ds == [] then NaN
    else
      var v: int := DecimalValue(ds);
      Int(if neg then -v else v)
  }

  /** `parseInt` of a field: an absent field is converted to the text
      "undefined" first. */
  function ParseIntField(o: Option<string>): (r: Num)
    ensures r == ParseInt(if o.None? then "undefined" else o.value)
  {
    if o.None? then NaN else ParseInt(o.value)
  }

  /** `parseInt` stops at the first non-digit: a number's text followed by
      anything that does not start with a digit reads as that number. */
  lemma ParseIntDecimal(n: nat, rest: string)
    requires rest == [] || !IsDigit(rest[0])
    ensures ParseInt(Decimal(n) + rest) == Int(n)
    ensures ParseInt("-" + Decimal(n) + rest) == Int(-(n as int))
  {
    var d := Decimal(n);
    DecimalRoundTrip(n);
    LeadingDigitsOfDigits(d, rest);
    var t := d + rest;
    assert t[0] == d[0];
    DigitNotSpace(t[0]);
    assert TrimStart(t) == t;
    var m := "-" + d + rest;
    assert m[0] == '-';
    DigitNotSpace(m[0]);
    assert TrimStart(m) == m;
    assert m[1..] == t;
  }

  /** `Number(s)` for the integer forms: surrounding whitespace ignored,
      the empty string is 0, otherwise an optional sign and digits only;
      anything else is `NaN` (`None`). */
  function NumberOf(s: string): (r: Option<int>)
  {
    var t := Trim(s);
    if t == [] then Some(0)
    else
      var neg := t[0] == '-';
      var u := if t[0] == '-' || t[0] == '+' then t[1..] else t;
      if u != [] && AllDigits(u) then
        var v: int := DecimalValue(u);
        Some(if neg then -v else v)
      else None
  }

  /** `isNaN(s)` on a path parameter. */
  predicate IsNaN(s: string)
  {
    NumberOf(s).None?
  }

  lemma NumberOfDecimal(n: nat)
    ensures NumberOf(Decimal(n)) == Some(n)
    ensures NumberOf("-" + Decimal(n)) == Some(-(n as int))
  {
    var d := Decimal(n);
    DecimalRoundTrip(n);
    DigitNotSpace(d[0]);
    DigitNotSpace(d[|d| - 1]);
    TrimNoop(d);
    var m := "-" + d;
    assert m[0] == '-' && m[|m| - 1] == d[|d| - 1];
    DigitNotSpace(m[0]);
    TrimNoop(m);
    assert m[1..] == d;
  }

  /** The signed integer that an optional sign and the digits `u` after it
      denote. */
  function SignedValue(t: string, u: string): int
    requires t != [] && AllDigits(u)
  {
    var v: int := DecimalValue(u);
    if t[0] == '-' then -v else v
  }

  /** What `Number` accepts, in terms of the trimmed text. */
  lemma NumberOfTrimmed(s: string) returns (t: string, u: string)
    requires NumberOf(s).Some? && !Blank(s)
    ensures t == Trim(s) && t != [] && u == (if t[0] == '-' || t[0] == '+' then t[1..] else t)
    ensures u != [] && AllDigits(u) && NumberOf(s).value == SignedValue(t, u)
  {
    t := Trim(s);
    u := if t[0] == '-' || t[0] == '+' then t[1..] else t;
  }

  /** `parseInt` of a text whose trimmed form is a sign and digits. */
  lemma ParseIntOfTrimmed(s: string, t: string, u: string)
    requires t == Trim(s) && t != [] && u == (if t[0] == '-' || t[0] == '+' then t[1..] else t)
    requires u != [] && AllDigits(u)
    ensures ParseInt(s) == Int(SignedValue(t, u))
  {
    var ts := TrimStart(s);
    var b := TrimEndShape(ts);
    assert ts == t + b;
    SignedDigitsWithTail(t, u, b);
  }

  /** `Number` is stricter than `parseInt`: text `Number` accepts is read
      to the same value by `parseInt`, unless it is blank. */
  lemma NumberAgreesWithParseInt(s: string)
    requires NumberOf(s).Some? && !Blank(s)
    ensures ParseInt(s) == Int(NumberOf(s).value)
  {
    var t, u := NumberOfTrimmed(s);
    ParseIntOfTrimmed(s, t, u);
  }

  /** Whitespace after the digits does not change what is read. */
  lemma SignedDigitsWithTail(t: string, u: string, b: string)
    requires t != [] && u == (if t[0] == '-' || t[0] == '+' then t[1..] else t)
    requires u != [] && AllDigits(u) && AllSpace(b)
    ensures ParseSigned(t + b) == Int(SignedValue(t, u))
  {
    assert (t + b)[0] == t[0];
    if t[0] == '-' || t[0] == '+' {
      assert (t + b)[1..] == u + b;
    }
    assert b == [] || !IsDigit(b[0]) by {
      if b != [] {
        assert IsSpace(b[0]);
      }
    }
    LeadingDigitsOfDigits(u, b);
  }
}
