/** The values and exceptions of the host language that the casting layer
    handles: the raw values an attribute holds, the values converters build,
    and the few core methods converters call on them (`to_s`, `to_sym`,
    `String#reverse`). */
module RubyValues {

  /** An attribute name or error-map key (a Ruby symbol, named by its text). */
  type Name = string

  datatype Option<+T> = None | Some(value: T)

  /** A raw or cast attribute value. `Obj` stands for an object built by a
      standard-library parser (a Date, a BigDecimal, a Time, a Float): `cls`
      is its class and `text` is what its `to_s` returns. */
  datatype Value =
    | Nil
    | Bool(b: bool)
    | Int(i: int)
    | Str(s: string)
    | Sym(name: string)
    | Obj(cls: string, text: string)

  /** The exception classes a converter can raise. `DateError` is
      `Date::Error`, which `Date.parse` raises on malformed text and which is
      a subclass of `ArgumentError`. `OtherError` is any class not related
      to `TypeError` or `ArgumentError`. `FloatDomainError` is what
      `Integer()` raises on a NaN or infinite Float or BigDecimal; it is a `RangeError`,
      not a `TypeError` or `ArgumentError`. */
  datatype ErrorClass =
    | TypeError
    | ArgumentError
    | DateError
    | NoMethodError
    | FloatDomainError
    | OtherError(cls: string)

  /** `e` is an instance of class `k`: the test a `rescue k` clause makes. */
  predicate IsA(e: ErrorClass, k: ErrorClass) {
    e == k || (e == DateError && k == ArgumentError)
  }

  /** A Float or BigDecimal that is NaN or infinite, known by its `to_s`
      text. */
  predicate NonFiniteNumeric(v: Value) {
    v.Obj? && (v.cls == "Float" || v.cls == "BigDecimal") && (v.text == "NaN" || v.text == "Infinity" || v.text == "-Infinity")
  }

  /** What calling a method produces: a value, or a raised exception. */
  datatype Outcome = Ok(value: Value) | Raise(error: ErrorClass)

  /** Ruby truthiness: `nil` and `false` are the only false values. */
  predicate Truthy(v: Value) {
    !(v.Nil? || v == Bool(false))
  }

  predicate IsDigit(c: char) {
    '0' <= c <= '9'
  }

  predicate AllDigits(s: string) {
    forall i :: 0 <= i < |s| ==> IsDigit(s[i])
  }

  function DigitChar(d: nat): (c: char)
    requires d < 10
    ensures IsDigit(c) && (c - '0') as nat == d
  {
    "0123456789"[d]
  }

  /** The decimal digits of `n`, most significant first, with no leading
      zero. */
  function DigitsOf(n: nat): (r: string)
    ensures |r| > 0 && AllDigits(r)
    ensures r[0] == '0' ==> r == "0"
    decreases n
  {
    if n < 10 then [DigitChar(n)] else DigitsOf(n / 10) + [DigitChar(n % 10)]
  }

  /** The number a string of decimal digits denotes (the reading of
      `DigitsOf` in reverse). */
  function DigitsValue(s: string): nat
    requires AllDigits(s)
  {
    if s == [] then 0 else 10 * DigitsValue(s[..|s| - 1]) + (s[|s| - 1] - '0') as nat
  }

  lemma {:induction false} DigitsRoundTrip(n: nat)
    ensures DigitsValue(DigitsOf(n)) == n
  {
    if n >= 10 {
      DigitsRoundTrip(n / 10);
      var r := DigitsOf(n);
      assert r[..|r| - 1] == DigitsOf(n / 10);
    }
  }

  /** `Integer#to_s`: an optional minus sign followed by the digits. */
  function IntToS(i: int): string {
    if i < 0 then "-" + DigitsOf(-i) else DigitsOf(i)
  }

  /** Reads back what `IntToS` writes: an optional minus sign followed by
      one or more digits. */
  function IntOfS(s: string): Option<int> {
    if |s| > 1 && s[0] == '-' && AllDigits(s[1..]) then Some(-(DigitsValue(s[1..]) as int))
    else if |s| > 0 && AllDigits(s) then Some(DigitsValue(s))
    else None
  }

  lemma {:induction false} IntToSRoundTrip(i: int)
    ensures IntOfS(IntToS(i)) == Some(i)
  {
    if i < 0 {
      var d := DigitsOf(-i);
      var r := "-" + d;
      assert r[1..] == d;
      assert |r| > 1 && r[0] == '-' && AllDigits(r[1..]);
      DigitsRoundTrip(-i);
    } else {
      var d := DigitsOf(i);
      assert d[0] != '-' by { assert IsDigit(d[0]); }
      DigitsRoundTrip(i);
    }
  }

  /** `to_s`, which every value answers and which is the identity on
      strings. */
  function ToS(v: Value): (r: string)
    ensures v.Str? ==> r == v.s
    ensures v.Sym? ==> r == v.name
    ensures v.Int? ==> IntOfS(r) == Some(v.i)
  {
    match v
    case Nil => ""
    case Bool(b) => if b then "true" else "false"
    case Int(i) => IntToSRoundTrip(i); IntToS(i)
    case Str(s) => s
    case Sym(name) => name
    case Obj(_, text) => text
  }

  /** `to_sym`: strings and symbols answer it; nil, booleans, integers and
      parsed objects do not, so the call raises `NoMethodError`. */
  function ToSym(v: Value): (r: Outcome)
    ensures r.Ok? <==> v.Str? || v.Sym?
    ensures r.Ok? ==> r.value == Sym(ToS(v))
    ensures r.Raise? ==> r.error == NoMethodError
  {
    match v
    case Str(s) => Ok(Sym(s))
    case Sym(_) => Ok(v)
    case _ => Raise(NoMethodError)
  }

  /** `String#reverse`. */
  function Reverse(s: string): (r: string)
    ensures |r| == |s|
    ensures forall i :: 0 <= i < |s| ==> r[i] == s[|s| - 1 - i]
  {
    if s == [] then [] else Reverse(s[1..]) + [s[0]]
  }

  lemma ReverseInvolutive(s: string)
    ensures Reverse(Reverse(s)) == s
  {
  }
}
