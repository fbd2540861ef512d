/** The casting tests of the test suite, written as clients of `Schema` and
    `Record`: each builds the declaring class and an instance, writes and
    reads attributes, and states what the reads return and record. They are
    proved from the classes' contracts alone. */
module Scenarios {
  import opened RubyValues
  import opened Types
  import opened ErrorMap
  import opened Attributes

  /** The test suite's `Thing`: `attribute :name`, `attribute :ends_on,
      Date`, `attribute :price, Decimal`. */
  method ThingSchema(parseDate: Value -> Option<Value>, parseDecimal: Value -> Option<Value>) returns (s: Schema)
    ensures fresh(s)
    ensures s.types == map["name" := StringType, "ends_on" := Stdlib(DateKind, parseDate), "price" := Stdlib(DecimalKind, parseDecimal)]
  {
    s := new Schema();
    s.Attribute("name");
    s.Attribute("ends_on", Stdlib(DateKind, parseDate));
    s.Attribute("price", Stdlib(DecimalKind, parseDecimal));
  }

  /** Well-formed raw values read back as the values the parsers build, and
      the default String type returns the string itself; no read records
      an error under any name. */
  method CastingToTypes(parseDate: Value -> Option<Value>, parseDecimal: Value -> Option<Value>, date: Value, price: Value)
    returns (name: Outcome, endsOn: Outcome, priceRead: Outcome, errs: Errors)
    requires parseDate(Str("2012-07-31")) == Some(date)
    requires parseDecimal(Str("20.45")) == Some(price)
    ensures name == Ok(Str("Foo"))
    ensures endsOn == Ok(date)
    ensures priceRead == Ok(price)
    ensures errs == map[]
  {
    var schema := ThingSchema(parseDate, parseDecimal);
    var t := new Record(schema);
    var _ := t.Write("name", Str("Foo"));
    var _ := t.Write("ends_on", Str("2012-07-31"));
    var _ := t.Write("price", Str("20.45"));
    name := t.Read("name");
    assert t.errors == map[];
    endsOn := t.Read("ends_on");
    assert t.errors == map[];
    priceRead := t.Read("price");
    errs := t.errors;
  }

  /** A date the parser rejects is returned unchanged, with exactly one
      `:typecast` recorded against it; reading it again records a second
      one. */
  method CastingInvalidValues(parseDate: Value -> Option<Value>, parseDecimal: Value -> Option<Value>)
    returns (endsOn: Outcome, errs: seq<Token>, again: Outcome, errsAgain: seq<Token>, priceErrs: seq<Token>)
    requires parseDate(Str("this is not a date")) == None
    ensures endsOn == Ok(Str("this is not a date")) && errs == [Typecast]
    ensures again == endsOn && errsAgain == [Typecast, Typecast]
    ensures priceErrs == []
  {
    var schema := ThingSchema(parseDate, parseDecimal);
    var t := new Record(schema);
    var _ := t.Write("ends_on", Str("this is not a date"));
    endsOn := t.Read("ends_on");
    errs := t.ErrorsOn("ends_on");
    again := t.Read("ends_on");
    errsAgain := t.ErrorsOn("ends_on");
    priceErrs := t.ErrorsOn("price");
  }

  /** The test suite's `OtherThing`, `attribute :foo, ->(val) {
      val.to_s.reverse }`: "simple" reads as "elpmis", and nothing is
      recorded. */
  method CastingWithAProc() returns (foo: Outcome, errs: seq<Token>)
    ensures foo == Ok(Str("elpmis"))
    ensures errs == []
  {
    ReverseSimple();
    var schema := new Schema();
    schema.Attribute("foo", Custom(v => ReverseToS(v)));
    var t := new Record(schema);
    var _ := t.Write("foo", Str("simple"));
    foo := t.Read("foo");
    errs := t.ErrorsOn("foo");
  }

  lemma ReverseSimple()
    ensures Reverse("simple") == "elpmis"
  {
  }

  /** A declared attribute that was never written is nil, and the reader
      returns nil without calling the converter: even `Types::Symbol`, which
      would raise on nil, is not reached. Writing false behaves the same. */
  method UnsetAttributeReadsNil() returns (unset: Outcome, falsy: Outcome, errs: seq<Token>)
    ensures unset == Ok(Nil)
    ensures falsy == Ok(Bool(false))
    ensures errs == []
  {
    var schema := new Schema();
    schema.Attribute("kind", SymbolType);
    var r := new Record(schema);
    unset := r.Read("kind");
    var _ := r.Write("kind", Bool(false));
    falsy := r.Read("kind");
    errs := r.ErrorsOn("kind");
  }

  /** `Types::Symbol` on an integer raises `NoMethodError`, which the reader
      does not rescue: the exception reaches the caller and no `:typecast`
      is recorded. */
  method NonCastFailurePropagates() returns (read: Outcome, errs: seq<Token>)
    ensures read == Raise(NoMethodError)
    ensures errs == []
  {
    var schema := new Schema();
    schema.Attribute("kind", SymbolType);
    var r := new Record(schema);
    var _ := r.Write("kind", Int(1));
    read := r.Read("kind");
    errs := r.ErrorsOn("kind");
  }

  /** A Boolean attribute: "0" reads as false, and after writing "yes" the
      next read casts the new raw value to true; neither read records an
      error. */
  method BooleanAttribute() returns (off: Outcome, on: Outcome, errs: seq<Token>)
    ensures off == Ok(Bool(false))
    ensures on == Ok(Bool(true))
    ensures errs == []
  {
    var schema := new Schema();
    schema.Attribute("paid", BooleanType);
    var r := new Record(schema);
    var _ := r.Write("paid", Str("0"));
    off := r.Read("paid");
    var _ := r.Write("paid", Str("yes"));
    on := r.Read("paid");
    errs := r.ErrorsOn("paid");
  }

  /** A name that was never declared has neither a writer nor a reader. */
  method UndeclaredAttribute() returns (write: Outcome, read: Outcome)
    ensures write == Raise(NoMethodError)
    ensures read == Raise(NoMethodError)
  {
    var schema := new Schema();
    schema.Attribute("name");
    var r := new Record(schema);
    write := r.Write("c", Int(3));
    read := r.Read("c");
  }
}
