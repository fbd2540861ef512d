/** `Scrivener::Types#attribute`: declaring an attribute installs a writer
    for its raw value and a reader that casts the raw value on every call,
    records `:typecast` when the cast fails, and then returns the raw value.

    The class-level table of declared converters is `Schema`; an instance,
    with its raw values and its error map, is `Record`. The functions first
    below say what one read does, and the classes' contracts are stated with
    them; the lemmas at the end say what a sequence of reads does. */
module Attributes {
  import opened RubyValues
  import opened Types
  import opened ErrorMap

  /** What one call of an attribute reader does: the value it returns or
      the exception it lets through, and whether it recorded `:typecast`. */
  datatype Reading = Reading(result: Outcome, typecast: bool)

  /** The body of the reader for an attribute declared with converter `c`,
      when the raw value is `raw`: `val && type.call(val)`, with `TypeError`
      and `ArgumentError` rescued. */
  function CastOnRead(c: Converter, raw: Value): (rd: Reading)
    ensures rd.typecast ==> rd.result == Ok(raw)
    ensures rd.result.Raise? ==> !IsCastFailure(rd.result.error) && !rd.typecast
    ensures rd.typecast <==> Truthy(raw) && Apply(c, raw).Raise? && IsCastFailure(Apply(c, raw).error)
  {
    if !Truthy(raw) then Reading(Ok(raw), false)
    else match Apply(c, raw)
      case Ok(v) => Reading(Ok(v), false)
      case Raise(e) => if IsCastFailure(e) then Reading(Ok(raw), true) else Reading(Raise(e), false)
  }

  /** `instance_variable_get`: the value last assigned, and nil for an
      instance variable never assigned. */
  function IvarGet(ivars: map<Name, Value>, name: Name): (v: Value)
    ensures name in ivars ==> v == ivars[name]
    ensures name !in ivars ==> v == Nil
  {
    if name in ivars then ivars[name] else Nil
  }

  /** Calling the reader `name` on an instance whose class declared `types`
      and whose raw values are `ivars`. A name that was never declared has
      no reader, so the call raises `NoMethodError`. */
  function ReadingOf(types: map<Name, Converter>, ivars: map<Name, Value>, name: Name): (rd: Reading)
    ensures name !in types ==> rd == Reading(Raise(NoMethodError), false)
    ensures rd.typecast ==> name in types && rd.result == Ok(IvarGet(ivars, name))
    ensures name in types && rd.result.Raise? ==> !IsCastFailure(rd.result.error)
  {
    if name !in types then Reading(Raise(NoMethodError), false)
    else CastOnRead(types[name], IvarGet(ivars, name))
  }

  /** The error map after one call of reader `name`: one `:typecast` more
      for `name` when its cast fails, and every other name untouched. */
  function AfterRead(errs: Errors, types: map<Name, Converter>, ivars: map<Name, Value>, name: Name): (r: Errors)
    ensures Lookup(r, name) == Lookup(errs, name) + (if ReadingOf(types, ivars, name).typecast then [Typecast] else [])
    ensures forall n :: n != name ==> Lookup(r, n) == Lookup(errs, n)
  {
    if ReadingOf(types, ivars, name).typecast then Push(errs, name, Typecast) else errs
  }

  /** The error map after calling the readers `names`, in order, with no
      write in between. Reads only append: every name's earlier tokens stay
      a prefix of its later ones, and a name not read keeps its tokens. */
  function Replay(errs: Errors, types: map<Name, Converter>, ivars: map<Name, Value>, names: seq<Name>): (r: Errors)
    ensures forall n :: Lookup(errs, n) <= Lookup(r, n)
    ensures forall n :: n !in names ==> Lookup(r, n) == Lookup(errs, n)
    decreases |names|
  {
    if names == [] then errs else Replay(AfterRead(errs, types, ivars, names[0]), types, ivars, names[1..])
  }

  /** How many times `a` occurs in `names`. */
  function Count(names: seq<Name>, a: Name): nat {
    if names == [] then 0 else (if names[0] == a then 1 else 0) + Count(names[1..], a)
  }

  /** The class-level table of declared attributes and their converters. */
  class Schema {
    var types: map<Name, Converter>

    constructor ()
      ensures types == map[]
    {
      types := map[];
    }

    /** `attribute(name, type = String)`: declares `name` with converter
        `c`; declaring a name again replaces its converter. */
    method Attribute(name: Name, c: Converter := StringType)
      modifies this
      ensures types == old(types)[name := c]
    {
      types := types[name := c];
    }
  }

  /** An instance of a class that declared attributes: its instance
      variables (the raw values) and its error map. */
  class Record {
    const schema: Schema
    var ivars: map<Name, Value>
    var errors: Errors

    constructor (schema: Schema)
      ensures this.schema == schema && ivars == map[] && errors == map[]
    {
      this.schema := schema;
      ivars := map[];
      errors := map[];
    }

    /** `errors[name]`: the tokens recorded against `name`, empty if none. */
    function ErrorsOn(name: Name): (r: seq<Token>)
      reads this
      ensures name in errors ==> r == errors[name]
      ensures name !in errors ==> r == []
    {
      Lookup(errors, name)
    }

    /** The writer `name=` installed by `attr_writer`: stores the raw value
        and returns it. It exists only for declared names. */
    method Write(name: Name, v: Value) returns (r: Outcome)
      modifies this`ivars
      ensures name in schema.types ==> r == Ok(v) && ivars == old(ivars)[name := v]
      ensures name !in schema.types ==> r == Raise(NoMethodError) && ivars == old(ivars)
    {
      if name !in schema.types {
        return Raise(NoMethodError);
      }
      ivars := ivars[name := v];
      r := Ok(v);
    }

    /** The reader `name`. It never changes the raw values; it changes the
        error map only by appending one `:typecast` to `name`'s tokens when
        the cast fails. */
    method Read(name: Name) returns (r: Outcome)
      modifies this`errors
      ensures r == ReadingOf(schema.types, ivars, name).result
      ensures errors == AfterRead(old(errors), schema.types, ivars, name)
      ensures ReadingOf(schema.types, ivars, name).typecast ==> ErrorsOn(name) == old(ErrorsOn(name)) + [Typecast]
      ensures forall n :: n != name ==> ErrorsOn(n) == old(ErrorsOn(n))
    {
      if name !in schema.types {
        return Raise(NoMethodError);
      }
      var val := IvarGet(ivars, name);
      if !Truthy(val) {
        return Ok(val);
      }
      var cast := Apply(schema.types[name], val);
      match cast {
        case Ok(_) =>
          r := cast;
        case Raise(e) =>
          if IsCastFailure(e) {
            errors := Push(errors, name, Typecast);
            r := Ok(val);
          } else {
            r := cast;
          }
      }
    }
  }

  /** A nil or false raw value is returned as it is, whatever the converter:
      the converter is not consulted, and nothing is recorded. */
  lemma FalsyShortCircuit(c1: Converter, c2: Converter, raw: Value)
    requires !Truthy(raw)
    ensures CastOnRead(c1, raw) == CastOnRead(c2, raw) == Reading(Ok(raw), false)
  {
  }

  /** A converter that returns a value makes the reader return that value
      and record nothing. */
  lemma SuccessfulCast(c: Converter, raw: Value)
    requires Truthy(raw) && Apply(c, raw).Ok?
    ensures CastOnRead(c, raw) == Reading(Apply(c, raw), false)
  {
  }

  /** A `TypeError` or `ArgumentError` (or subclass) from the converter
      makes the reader return the raw value and record one `:typecast`. */
  lemma FailedCast(c: Converter, raw: Value)
    requires Truthy(raw) && Apply(c, raw).Raise? && IsCastFailure(Apply(c, raw).error)
    ensures CastOnRead(c, raw) == Reading(Ok(raw), true)
  {
  }

  /** Any other exception from the converter reaches the reader's caller,
      and nothing is recorded. */
  lemma OtherFailurePropagates(c: Converter, raw: Value)
    requires Truthy(raw) && Apply(c, raw).Raise? && !IsCastFailure(Apply(c, raw).error)
    ensures CastOnRead(c, raw) == Reading(Apply(c, raw), false)
  {
  }

  /** An `Integer` attribute holding a NaN or infinite Float or BigDecimal:
      the reader lets `FloatDomainError` through and records nothing,
      whatever the parser. */
  lemma NonFiniteIntegerEscapes(parse: Value -> Option<Value>, raw: Value)
    requires NonFiniteNumeric(raw)
    ensures CastOnRead(Stdlib(IntegerKind, parse), raw) == Reading(Raise(FloatDomainError), false)
  {
  }

  /** A read after writing `v` to `name` casts `v`. */
  lemma ReadAfterWrite(types: map<Name, Converter>, ivars: map<Name, Value>, name: Name, v: Value)
    requires name in types
    ensures ReadingOf(types, ivars[name := v], name) == CastOnRead(types[name], v)
  {
  }

  lemma {:induction false} CountAbsent(names: seq<Name>, a: Name)
    requires a !in names
    ensures Count(names, a) == 0
  {
    if names != [] {
      CountAbsent(names[1..], a);
    }
  }

  lemma {:induction false} CountCopies(a: Name, n: nat)
    ensures Count(seq(n, _ => a), a) == n
  {
    if n > 0 {
      assert seq(n, _ => a)[1..] == seq(n - 1, _ => a);
      CountCopies(a, n - 1);
    }
  }

  /** One read of `n`, seen from `a`'s tokens. */
  lemma AfterReadLookup(errs: Errors, types: map<Name, Converter>, ivars: map<Name, Value>, n: Name, a: Name)
    ensures Lookup(AfterRead(errs, types, ivars, n), a)
         == Lookup(errs, a) + Repeat(Typecast, if ReadingOf(types, ivars, a).typecast && n == a then 1 else 0)
  {
  }

  /** No caching: every read casts again. Calling the readers `names` in
      order appends to `a`'s tokens one `:typecast` for each call of reader
      `a` when casting `a` fails, and nothing otherwise; other readers never
      touch `a`'s tokens. */
  lemma {:induction false} ReplayLookup(errs: Errors, types: map<Name, Converter>, ivars: map<Name, Value>, names: seq<Name>, a: Name)
    ensures Lookup(Replay(errs, types, ivars, names), a)
         == Lookup(errs, a) + Repeat(Typecast, if ReadingOf(types, ivars, a).typecast then Count(names, a) else 0)
    decreases |names|
  {
    var fails := ReadingOf(types, ivars, a).typecast;
    if names == [] {
      assert Repeat(Typecast, 0) == [];
    } else {
      var e1 := AfterRead(errs, types, ivars, names[0]);
      var first := if fails && names[0] == a then 1 else 0;
      var rest := if fails then Count(names[1..], a) else 0;
      calc {
        Lookup(Replay(errs, types, ivars, names), a);
        { ReplayStep(errs, types, ivars, names); }
        Lookup(Replay(e1, types, ivars, names[1..]), a);
        { ReplayLookup(e1, types, ivars, names[1..], a); }
        Lookup(e1, a) + Repeat(Typecast, rest);
        { AfterReadLookup(errs, types, ivars, names[0], a); }
        (Lookup(errs, a) + Repeat(Typecast, first)) + Repeat(Typecast, rest);
        Lookup(errs, a) + (Repeat(Typecast, first) + Repeat(Typecast, rest));
        { RepeatAdd(Typecast, first, rest); CountStep(names, a); }
        Lookup(errs, a) + Repeat(Typecast, if fails then Count(names, a) else 0);
      }
    }
  }

  /** One step of `Replay`: the first read, then the rest. */
  lemma ReplayStep(errs: Errors, types: map<Name, Converter>, ivars: map<Name, Value>, names: seq<Name>)
    requires names != []
    ensures Replay(errs, types, ivars, names) == Replay(AfterRead(errs, types, ivars, names[0]), types, ivars, names[1..])
  {
  }

  /** One step of `Count`. */
  lemma CountStep(names: seq<Name>, a: Name)
    requires names != []
    ensures Count(names, a) == (if names[0] == a then 1 else 0) + Count(names[1..], a)
  {
  }

  /** `n` failing reads of the same attribute grow its tokens by exactly
      `n` copies of `:typecast`. */
  lemma RepeatedFailingReads(errs: Errors, types: map<Name, Converter>, ivars: map<Name, Value>, a: Name, n: nat)
    requires ReadingOf(types, ivars, a).typecast
    ensures Lookup(Replay(errs, types, ivars, seq(n, _ => a)), a) == Lookup(errs, a) + Repeat(Typecast, n)
  {
    ReplayLookup(errs, types, ivars, seq(n, _ => a), a);
    CountCopies(a, n);
  }

  /** Starting from an empty error map, an attribute whose reader was not
      called reads as the empty sequence, whatever other readers did. */
  lemma UntouchedReadsEmpty(types: map<Name, Converter>, ivars: map<Name, Value>, names: seq<Name>, a: Name)
    requires a !in names
    ensures Lookup(Replay(map[], types, ivars, names), a) == []
  {
    ReplayLookup(map[], types, ivars, names, a);
    CountAbsent(names, a);
  }
}
