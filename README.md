# Scrivener typed attributes, modelled in Dafny

Scrivener lets a class declare typed attributes: `attribute :price, Decimal`.
The declaration installs two methods. The writer `price=` stores the raw
value, usually a string from a form. The reader `price` casts the raw value
each time it is called. A nil or false raw value is returned as it is. When
the converter raises `TypeError` or `ArgumentError`, the reader appends
`:typecast` to `errors[:price]` and returns the raw value unchanged. Any
other exception reaches the caller.

This project models that casting layer and the error map it writes into:

- `ruby_values.dfy` (`RubyValues`): the host values a reader sees. It covers
  nil, booleans, integers, strings, symbols and parsed objects, plus the
  exception classes. It also holds the core methods the converters call:
  `to_s` (with a decimal round trip for integers), `to_sym` and
  `String#reverse`.
- `types.dfy` (`Types`): the converters of `Scrivener::Types`. `Symbol`,
  `String` and `Boolean` are modelled exactly. The standard-library parsers
  are one `Stdlib` converter whose parser is a parameter. `Custom` holds any
  callable. `IsCastFailure` is the reader's rescue list.
- `error_map.dfy` (`ErrorMap`): the error map. It maps a name to a sequence
  of tokens, and a missing key reads as the empty sequence.
- `attributes.dfy` (`Attributes`): what one read does (`CastOnRead`,
  `ReadingOf`, `AfterRead`) and what a sequence of reads does (`Replay`).
  `Schema` is the class-level table of declared converters. `Record` is an
  instance, with its raw values and its error map. `Record.Read` and
  `Record.Write` are proved against the functions, and the lemmas prove the
  properties of repeated reads.
- `scenarios.dfy` (`Scenarios`): the casting tests of
  `test/scrivener_test.rb`, written as client methods of `Schema` and
  `Record`. Each is proved from the classes' contracts alone.

`val && type.call(val)` (lib/scrivener/types.rb:74) returns both nil and
false without calling the converter. The doc comment's `cleaned_price` readers do not exist: the
reader has the attribute's own name.

## Model

| member | source | states |
|---|---|---|
| `RubyValues.ToS` | lib/scrivener/types.rb:39 | `to_s` is the identity on strings, gives a symbol's name, and writes an integer as text that reads back as the same integer |
| `RubyValues.IntToSRoundTrip` | lib/scrivener/types.rb:39 | reading back the text `to_s` writes for any integer gives that integer |
| `RubyValues.DigitsRoundTrip` | lib/scrivener/types.rb:39 | the digits written for a natural number read back as that number |
| `RubyValues.DigitsOf` | lib/scrivener/types.rb:39 | the digits of a number are non-empty, all decimal digits, and have no leading zero |
| `RubyValues.ToSym` | lib/scrivener/types.rb:38 | `to_sym` succeeds exactly on strings and symbols, giving the symbol of the text; on any other value it raises `NoMethodError` |
| `RubyValues.Reverse` | test/scrivener_test.rb:206 | `String#reverse` keeps the length and puts character `i` at position `len - 1 - i` |
| `RubyValues.ReverseInvolutive` | test/scrivener_test.rb:206 | reversing twice gives back the string |
| `Types.SymbolCast` | lib/scrivener/types.rb:38 | `Types::Symbol` succeeds exactly on strings and symbols; its failure is not a cast failure, so the reader lets it through |
| `Types.StringCast` | lib/scrivener/types.rb:39 | `Types::String` never fails, always gives a string, and is the identity on strings |
| `Types.StringCastIdempotent` | lib/scrivener/types.rb:39 | casting the result of a String cast again changes nothing |
| `Types.BooleanCast` | lib/scrivener/types.rb:46-52 | `Types::Boolean` never fails and gives false exactly when the value is falsy or one of the strings "f", "false", "0"; "t", "true" and "1" give true |
| `Types.BooleanExamples` | lib/scrivener/types.rb:46-52 | the six spellings map as the table says; "yes", the integer 0 and the symbol `:f` are true and are not errors |
| `Types.MalformedError` | lib/scrivener/types.rb:40-45 | the error a parser raises on malformed text is an `ArgumentError` (`Date::Error` for Date and DateTime) |
| `Types.StdlibCast` | lib/scrivener/types.rb:40-45 | a standard-library converter succeeds exactly when its parser accepts the value, and returns the parsed value; every failure is a cast failure (an `ArgumentError` on strings) except `Integer` on a NaN or infinite Float or BigDecimal, which raises `FloatDomainError` whatever the parser does |
| `Types.ReverseToS` | test/scrivener_test.rb:206 | the test's lambda `val.to_s.reverse` never fails, and reversing its result gives back `val.to_s` |
| `Types.IsCastFailure` | lib/scrivener/types.rb:75 | the rescue list catches exactly `TypeError`, `ArgumentError` and `Date::Error` (a subclass of `ArgumentError`); `NoMethodError` and every other class pass through |
| `Types.Apply` | lib/scrivener/types.rb:74 | `type.call(val)`: String and Boolean never fail, standard-library parsers raise only cast failures apart from `Integer`'s `FloatDomainError` on a NaN or infinite Float or BigDecimal, and Symbol's failures are never cast failures |
| `ErrorMap.Lookup` | lib/scrivener/types.rb:76 | `errors[name]` gives the stored tokens of a name that was written, and the empty sequence (the hash's default) for one that was not |
| `ErrorMap.Push` | lib/scrivener/types.rb:76 | `errors[name].push(t)` adds exactly `t` at the end of `name`'s tokens (empty if absent) and leaves every other name's tokens unchanged |
| `Attributes.CastOnRead` | lib/scrivener/types.rb:71-79 | a read records `:typecast` exactly when the raw value is truthy and the converter raises a cast failure, and then returns the raw value; an exception that escapes is never a cast failure |
| `Attributes.IvarGet` | lib/scrivener/types.rb:73 | `instance_variable_get` gives the value last assigned, and nil for an instance variable never assigned |
| `Attributes.ReadingOf` | lib/scrivener/types.rb:69-79 | calling an undeclared reader raises `NoMethodError` and records nothing; a read that records `:typecast` is of a declared name and returns its raw value; an exception a declared reader lets through is never a cast failure |
| `Attributes.AfterRead` | lib/scrivener/types.rb:76 | one read appends `:typecast` to its own name's tokens exactly when its cast fails, and leaves every other name's tokens unchanged |
| `Attributes.Replay` | lib/scrivener/types.rb:71-79 | a sequence of reads only appends: every name's earlier tokens remain a prefix of its later ones, and a name not read keeps its tokens |
| `Attributes.FalsyShortCircuit` | lib/scrivener/types.rb:73-74 | a nil or false raw value is returned unchanged, whatever the converter, with nothing recorded |
| `Attributes.SuccessfulCast` | lib/scrivener/types.rb:74 | when the converter returns a value, the read returns it and records nothing |
| `Attributes.FailedCast` | lib/scrivener/types.rb:75-77 | when the converter raises `TypeError`, `ArgumentError` or a subclass, the read returns the raw value and records `:typecast` |
| `Attributes.OtherFailurePropagates` | lib/scrivener/types.rb:75 | any other exception from the converter reaches the caller, and nothing is recorded |
| `Attributes.NonFiniteIntegerEscapes` | lib/scrivener/types.rb:40-79 | an `Integer` attribute holding a NaN or infinite Float or BigDecimal makes the reader raise `FloatDomainError`, which the rescue does not catch, and nothing is recorded |
| `Attributes.ReadAfterWrite` | lib/scrivener/types.rb:69-74 | after writing `v`, the next read casts `v` |
| `Attributes.ReplayLookup` | lib/scrivener/types.rb:71-79 | over any sequence of reads with no write between them, `a`'s tokens grow by one `:typecast` per read of `a` when casting `a` fails, and not at all otherwise; reads of other names never touch `a`'s tokens |
| `Attributes.RepeatedFailingReads` | lib/scrivener/types.rb:71-79 | `n` failing reads of the same attribute append exactly `n` copies of `:typecast` |
| `Attributes.UntouchedReadsEmpty` | lib/scrivener/types.rb:76 | starting from an empty map, a name whose reader was never called reads as the empty sequence, whatever other reads did |
| `Attributes.Schema.Attribute` | lib/scrivener/types.rb:68 | declaring `name` with a converter (String by default) sets that name's converter and replaces any earlier one |
| `Attributes.Record.ErrorsOn` | lib/scrivener/types.rb:76 | an instance's `errors[name]` is the stored tokens of a name with errors, and the empty sequence for any other name |
| `Attributes.Record.Write` | lib/scrivener/types.rb:69 | the writer of a declared name stores the raw value and returns it; an undeclared name has no writer and raises `NoMethodError` |
| `Attributes.Record.Read` | lib/scrivener/types.rb:71-79 | the reader returns what `ReadingOf` gives for the current raw values; it appends one `:typecast` to its own name's tokens on a cast failure, changes no other name's tokens, and never changes a raw value |
| `Scenarios.ThingSchema` | test/scrivener_test.rb:195-199 | the test's `Thing` declares `name` as String, `ends_on` as Date and `price` as Decimal |
| `Scenarios.CastingToTypes` | test/scrivener_test.rb:210-216 | `"Foo"` reads as `"Foo"`, and well-formed date and decimal text reads as the parsed values, and the error map is still empty afterwards: no read recorded an error under any name |
| `Scenarios.CastingWithAProc` | test/scrivener_test.rb:226-229 | with the reverse lambda, `"simple"` reads as `"elpmis"` |
| `Scenarios.CastingInvalidValues` | test/scrivener_test.rb:231-237 | `"this is not a date"` reads back unchanged with `errors[:ends_on] == [:typecast]`; a second read returns it again and makes the tokens `[:typecast, :typecast]`; `errors[:price]` stays empty |
| `Scenarios.UnsetAttributeReadsNil` | lib/scrivener/types.rb:73-74 | an unwritten attribute reads as nil and a false one as false, even with a converter that would raise on them, and nothing is recorded |
| `Scenarios.NonCastFailurePropagates` | lib/scrivener/types.rb:75 | `Types::Symbol` on an integer lets `NoMethodError` through to the caller and records nothing |
| `Scenarios.BooleanAttribute` | lib/scrivener/types.rb:46-52 | a Boolean attribute reads "0" as false, then reads "yes" as true after the write, and records nothing |
| `Scenarios.UndeclaredAttribute` | lib/scrivener/types.rb:69-71 | a name that was never declared has neither a writer nor a reader: both raise `NoMethodError` |

## Left out

- Parsing by `Integer`, `Float`, `Decimal`, `Date`, `DateTime` and `Time` (lib/scrivener/types.rb:40-45). These wrap standard-library parsers whose grammars are not part of this model. Each one is a `Stdlib` converter whose parser function is a parameter. Only the exception it raises when the parser rejects a value is modelled. That is `Date::Error` for Date and DateTime text, `ArgumentError` for other text, and `TypeError` for most non-strings. `Integer` on a NaN or infinite Float or BigDecimal raises `FloatDomainError` instead, which is not a cast failure; such a value is recognised by its class and its `to_s` text. Floating-point arithmetic is not modelled.
- The values these parsers build are opaque `Obj` values, carrying a class name and their `to_s` text.
- Ruby's exception hierarchy is modelled only as far as the rescue needs it: `TypeError`, `ArgumentError`, `Date::Error` as a subclass of `ArgumentError`, `NoMethodError`, `FloatDomainError`, and one case for every other class.
- Ruby metaprogramming (`attr_writer`, `define_method`, `instance_variable_get`, and accepting anything that responds to `call` as a type) is not modelled as such. It is replaced by an explicit name→converter table (`Schema`), a raw-value map (`Record.ivars`) and a `Converter` datatype.
- The validation engine (`valid?`, `validate`, the `assert_*` primitives and the resetting of `errors`), `attributes`, and construction from a hash are not part of this model. The error map's empty-array default is modelled by `ErrorMap.Lookup`.
- `Scenarios.CastingInvalidValues` reads the attribute directly. The test's `valid?` call, which resets the errors and then reaches the same reader through `assert_present`, is not modelled.
- `Attributes.Record.Read`: a converter, including a `Custom` callable, is assumed not to mutate its argument. A callable such as `->(v) { v.reverse! }` would change the stored raw value on every read, and the model cannot express that. Sharing between the raw value and the cast result (`String#to_s` returns the receiver itself) is not modelled either: values here are immutable.
- `Attributes.ReplayLookup`, `Attributes.RepeatedFailingReads`: converters are modelled as deterministic functions of the raw value, so repeated reads of the same raw value all succeed or all fail. In Ruby they need not: `Date.parse` and `DateTime.parse` take a missing year from today's date (so "Feb 29" parses only in a leap year), `Time.parse` takes missing date parts from the clock, and a callable type may be impure. The clock and such side effects are not modelled.
- Concurrency is not modelled: the casting layer is single-threaded.
