/**
 * The hand-written recursive-descent parser of src/expression.rs.  It reads
 * the same language as the combinator grammar: each method is proved to
 * return exactly what the corresponding grammar function returns, on every
 * input.  Its quantifier parser is the grammar's (`Quantifier::parse`).
 */
module Descent {
  import opened Wrappers
  import opened Numerals
  import opened Syntax
  import opened Combinators
  import opened Grammar

  /** `parsed` in front of the atoms of a parse result. */
  function Prepend(parsed: seq<Atom>, r: Option<(seq<Atom>, string)>): Option<(seq<Atom>, string)>
  {
    match r
    case None => None
    case Some((atoms, rest)) => Some((parsed + atoms, rest))
  }

  /** `IMExVal::parse`: a digit is a `Single`, `(` starts a group, anything else is an error. */
  method ParseValue(input: string) returns (r: Option<(Val, string)>)
    ensures r == ParseVal(input)
    decreases |input|, 1
  {
    if input != [] && input[0] == '(' {
      var inner := ParseInParens(input[1..]);
      match inner
      case None => r := None;
      case Some((atoms, rest)) => r := Some((Group(atoms), rest));
    } else if input != [] && IsDigit(input[0]) {
      r := Some((Single(DigitValue(input[0])), input[1..]));
    } else {
      r := None;
    }
  }

  /** `QuantifiedIMExVal::parse`: a value, then its quantifier. */
  method ParseQuantified(input: string) returns (r: Option<(Atom, string)>)
    ensures r == ParseQIV(input)
    decreases |input|, 2
  {
    var v := ParseValue(input);
    if v.None? {
      return None;
    }
    var q := ParseQuantifier(v.value.1);
    r := Some((Atom(v.value.0, q.value.0), q.value.1));
  }

  /** `IMEx::parse_in_parens`: atoms up to the first unmatched `)`, which is consumed. */
  method ParseInParens(input: string) returns (r: Option<(seq<Atom>, string)>)
    ensures r == ParseInner(input)
    decreases |input|, 3
  {
    var atoms: seq<Atom> := [];
    var rest := input;
    PrependNothing(ParseInner(input));
    while true
      invariant |rest| <= |input|
      invariant ParseInner(input) == Prepend(atoms, ManyTill(QIVUpTo(|input|), ')', rest))
      decreases |rest|
    {
      if rest != [] && rest[0] == ')' {
        assert atoms + [] == atoms;
        return Some((atoms, rest[1..]));
      }
      var a := ParseQuantified(rest);
      if a.None? {
        return None;
      }
      ManyTillUnfold(|input|, rest);
      PrependTwice(atoms, [a.value.0], ManyTill(QIVUpTo(|input|), ')', a.value.1));
      atoms, rest := atoms + [a.value.0], a.value.1;
    }
  }

  /** `IMEx::parse`: atoms until the input is exhausted; any failure, a stray `)` included, is an error. */
  method ParseAll(input: string) returns (r: Option<(seq<Atom>, string)>)
    ensures r == ParseImex(input)
  {
    var atoms: seq<Atom> := [];
    var rest := input;
    ImexUnfold(input);
    PrependNothing(ParseImex(input));
    while true
      invariant |rest| <= |input|
      invariant ParseImex(input) == Prepend(atoms, Complete(Many0(QIVUpTo(|input|), rest)))
      decreases |rest|
    {
      if rest == [] {
        assert QIVUpTo(|input|)(rest) == None;
        assert atoms + [] == atoms;
        return Some((atoms, rest));
      }
      var a := ParseQuantified(rest);
      if a.None? {
        assert QIVUpTo(|input|)(rest) == None;
        return None;
      }
      Many0Unfold(|input|, rest);
      PrependTwice(atoms, [a.value.0], Complete(Many0(QIVUpTo(|input|), a.value.1)));
      atoms, rest := atoms + [a.value.0], a.value.1;
    }
  }

  /** `IMEx::from`: the atoms of the whole input, or an error. */
  method From(input: string) returns (r: Option<seq<Atom>>)
    ensures r.Some? <==> ParseImex(input).Some?
    ensures r.Some? ==> r.value == ParseImex(input).value.0
  {
    var parsed := ParseAll(input);
    r := if parsed.Some? then Some(parsed.value.0) else None;
  }

  /** A parse result, kept only if it leaves no input (`all_consuming`). */
  function Complete(r: Option<(seq<Atom>, string)>): Option<(seq<Atom>, string)>
  {
    if r.Some? && r.value.1 == [] then r else None
  }

  lemma ImexUnfold(input: string)
    ensures ParseImex(input) == Complete(Many0(QIVUpTo(|input|), input))
  {
  }

  lemma PrependNothing(r: Option<(seq<Atom>, string)>)
    ensures Prepend([], r) == r
  {
    if r.Some? {
      assert [] + r.value.0 == r.value.0;
    }
  }

  lemma PrependTwice(a: seq<Atom>, b: seq<Atom>, r: Option<(seq<Atom>, string)>)
    ensures Prepend(a, Prepend(b, r)) == Prepend(a + b, r)
  {
    if r.Some? {
      assert a + (b + r.value.0) == (a + b) + r.value.0;
    }
  }

  /** One step of `many0` on a quantified value. */
  lemma Many0Unfold(bound: nat, rest: string)
    requires |rest| <= bound && ParseQIV(rest).Some?
    ensures var a := ParseQIV(rest).value;
            Complete(Many0(QIVUpTo(bound), rest)) == Prepend([a.0], Complete(Many0(QIVUpTo(bound), a.1)))
  {
  }

  /** One step of `many_till` before the closing parenthesis, on a quantified value. */
  lemma ManyTillUnfold(bound: nat, rest: string)
    requires |rest| <= bound
    requires !(rest != [] && rest[0] == ')') && ParseQIV(rest).Some?
    ensures var a := ParseQIV(rest).value;
            ManyTill(QIVUpTo(bound), ')', rest) == Prepend([a.0], ManyTill(QIVUpTo(bound), ')', a.1))
  {
  }
}
