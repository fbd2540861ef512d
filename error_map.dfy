/** The per-attribute error map the reader writes into: attribute name to
    the ordered tokens recorded against it. A key never written reads as the
    empty sequence, as a Ruby hash with an empty-array default does. */
module ErrorMap {
  import opened RubyValues

  /** An error token. `Typecast` is the one the casting layer records;
      `Assertion` stands for the tokens the validation assertions record
      (`:not_present`, `:not_valid`, ...); the validation engine is not part
      of this model, so nothing here produces one, and it is there only so
      that an error map can hold tokens other than `:typecast`. */
  datatype Token = Typecast | Assertion(sym: string)

  type Errors = map<Name, seq<Token>>

  /** `errors[name]`: the stored tokens of a key that was written, and the
      empty sequence, not a missing-key failure, for one that was not. */
  function Lookup(errs: Errors, name: Name): (r: seq<Token>)
    ensures name in errs ==> r == errs[name]
    ensures name !in errs ==> r == []
  {
    if name in errs then errs[name] else []
  }

  /** `errors[name].push(t)`: one token more at the end of `name`'s
      sequence, every other name's sequence unchanged. */
  function Push(errs: Errors, name: Name, t: Token): (r: Errors)
    ensures Lookup(r, name) == Lookup(errs, name) + [t]
    ensures forall n :: n != name ==> Lookup(r, n) == Lookup(errs, n)
  {
    errs[name := Lookup(errs, name) + [t]]
  }

  /** `n` copies of token `t`. */
  function Repeat(t: Token, n: nat): (r: seq<Token>)
    ensures |r| == n
    ensures forall i :: 0 <= i < n ==> r[i] == t
  {
    if n == 0 then [] else Repeat(t, n - 1) + [t]
  }

  lemma RepeatAdd(t: Token, m: nat, n: nat)
    ensures Repeat(t, m) + Repeat(t, n) == Repeat(t, m + n)
  {
  }
}
