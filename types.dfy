/** The converters an attribute can be declared with (`Scrivener::Types`):
    each is a function from a raw value to a cast value or a raised
    exception. */
module Types {
  import opened RubyValues

  /** The exceptions the attribute reader rescues: `TypeError`,
      `ArgumentError`, and their subclasses. Any other exception a converter
      raises is not a cast failure and reaches the reader's caller. */
  predicate IsCastFailure(e: ErrorClass)
    ensures IsCastFailure(e) <==> e == TypeError || e == ArgumentError || e == DateError
  {
    IsA(e, TypeError) || IsA(e, ArgumentError)
  }

  /** The converters whose parsing is done by the standard library. */
  datatype StdlibKind = IntegerKind | FloatKind | DecimalKind | DateKind | DateTimeKind | TimeKind

  /** A converter: a built-in one, a standard-library parser, or any
      callable the declaring class supplies. For `Stdlib`, `parse` is the
      library parser (`Kernel#Integer`, `Float`, `BigDecimal`, `Date.parse`,
      `DateTime.parse`, `Time.parse`): the value it builds, or `None` when it
      rejects its input. */
  datatype Converter =
    | SymbolType
    | StringType
    | BooleanType
    | Stdlib(kind: StdlibKind, parse: Value -> Option<Value>)
    | Custom(call: Value -> Outcome)

  /** `Types::Symbol`: `value.to_sym`. Its failure on a value without
      `to_sym` is a `NoMethodError`, which is not a cast failure. */
  function SymbolCast(v: Value): (r: Outcome)
    ensures r.Ok? <==> v.Str? || v.Sym?
    ensures r.Raise? ==> !IsCastFailure(r.error)
  {
    ToSym(v)
  }

  /** `Types::String`, the default type: `value.to_s`. It never fails, is
      the identity on strings, and casting its own result changes nothing. */
  function StringCast(v: Value): (r: Outcome)
    ensures r.Ok? && r.value.Str?
    ensures v.Str? ==> r == Ok(v)
  {
    Ok(Str(ToS(v)))
  }

  /** Casting to String twice is the same as casting once. */
  lemma StringCastIdempotent(v: Value)
    ensures StringCast(StringCast(v).value) == StringCast(v)
  {
  }

  const FalseStrings: set<string> := {"f", "false", "0"}
  const TrueStrings: set<string> := {"t", "true", "1"}

  /** `Types::Boolean`: a `case` on the three false spellings and the three
      true spellings (compared with `String#===`, so only strings match),
      and the truthiness of the value otherwise. It never fails. */
  function BooleanCast(v: Value): (r: Outcome)
    ensures r.Ok? && r.value.Bool?
    ensures r.value.b <==> Truthy(v) && !(v.Str? && v.s in FalseStrings)
    ensures v.Str? && v.s in TrueStrings ==> r.value.b
  {
    if v == Str("f") || v == Str("false") || v == Str("0") then Ok(Bool(false))
    else if v == Str("t") || v == Str("true") || v == Str("1") then Ok(Bool(true))
    else Ok(Bool(Truthy(v)))
  }

  /** The exception a standard-library parser raises on text it rejects:
      `Date.parse` and `DateTime.parse` raise `Date::Error`, the others
      `ArgumentError`. */
  function MalformedError(kind: StdlibKind): (e: ErrorClass)
    ensures IsA(e, ArgumentError)
  {
    if kind == DateKind || kind == DateTimeKind then DateError else ArgumentError
  }

  /** A standard-library parser used as a converter. When it rejects a
      string it raises the malformed-text error of its kind; when it rejects
      any other value it raises `TypeError`. Either way the failure is a
      cast failure. The one exception is `Integer()` on a NaN or infinite
      Float or BigDecimal, which raises `FloatDomainError` whatever the parser would do. */
  function StdlibCast(kind: StdlibKind, parse: Value -> Option<Value>, v: Value): (r: Outcome)
    ensures kind == IntegerKind && NonFiniteNumeric(v) ==> r == Raise(FloatDomainError)
    ensures r.Ok? <==> parse(v).Some? && !(kind == IntegerKind && NonFiniteNumeric(v))
    ensures r.Ok? ==> r.value == parse(v).value
    ensures r.Raise? ==> (IsCastFailure(r.error) <==> !(kind == IntegerKind && NonFiniteNumeric(v)))
    ensures r.Raise? && v.Str? ==> IsA(r.error, ArgumentError)
  {
    if kind == IntegerKind && NonFiniteNumeric(v) then Raise(FloatDomainError)
    else match parse(v)
      case Some(x) => Ok(x)
      case None => Raise(if v.Str? then MalformedError(kind) else TypeError)
  }

  /** The custom converter the test suite declares, `val.to_s.reverse`:
      it never fails, and reversing its result gives back `val.to_s`. */
  function ReverseToS(v: Value): (r: Outcome)
    ensures r.Ok? && r.value.Str?
    ensures Reverse(r.value.s) == ToS(v)
  {
    ReverseInvolutive(ToS(v));
    Ok(Str(Reverse(ToS(v))))
  }

  /** `type.call(val)`. */
  function Apply(c: Converter, v: Value): (r: Outcome)
    ensures c.StringType? || c.BooleanType? ==> r.Ok?
    ensures c.Stdlib? && r.Raise? ==> (IsCastFailure(r.error) <==> !(c.kind == IntegerKind && NonFiniteNumeric(v)))
    ensures c.SymbolType? && r.Raise? ==> !IsCastFailure(r.error)
  {
    match c
    case SymbolType => SymbolCast(v)
    case StringType => StringCast(v)
    case BooleanType => BooleanCast(v)
    case Stdlib(kind, parse) => StdlibCast(kind, parse, v)
    case Custom(call) => call(v)
  }

  /** The Boolean table on concrete inputs, including values that are not
      among the six spellings: an unknown string, the integer 0 and the
      symbol `:f` are all true, and none of them is an error. */
  lemma BooleanExamples()
    ensures BooleanCast(Str("f")) == Ok(Bool(false))
    ensures BooleanCast(Str("false")) == Ok(Bool(false))
    ensures BooleanCast(Str("0")) == Ok(Bool(false))
    ensures BooleanCast(Str("t")) == Ok(Bool(true))
    ensures BooleanCast(Str("true")) == Ok(Bool(true))
    ensures BooleanCast(Str("1")) == Ok(Bool(true))
    ensures BooleanCast(Str("yes")) == Ok(Bool(true))
    ensures BooleanCast(Int(0)) == Ok(Bool(true))
    ensures BooleanCast(Sym("f")) == Ok(Bool(true))
  {
  }
}
