/**
 * The pattern tree shared by every parser and evaluator of the crate: an
 * expression is a sequence of quantified atoms, an atom's value is either a
 * single source index or a parenthesised group (`IMEx`, `PasteX`, `ZPrEx`,
 * `Pattern` and the `expression` tree all have this shape).
 */
module Syntax {
  import opened Quantifiers
  import opened Numerals

  datatype Val = Single(idx: nat) | Group(atoms: seq<Atom>)
  datatype Atom = Atom(val: Val, q: Quantifier)

  /** Number of constructors in a value; used as a termination measure. */
  function ValSize(v: Val): nat
    decreases v
  {
    match v
    case Single(_) => 1
    case Group(atoms) => 1 + AtomsSize(atoms)
  }

  function AtomsSize(atoms: seq<Atom>): nat
    decreases atoms
  {
    if atoms == [] then 0 else AtomSize(atoms[0]) + AtomsSize(atoms[1..])
  }

  function AtomSize(a: Atom): nat
    decreases a
  {
    1 + ValSize(a.val)
  }

  /** Every source index in the tree is below `n`. */
  predicate ValInRange(v: Val, n: nat)
    decreases v
  {
    match v
    case Single(i) => i < n
    case Group(atoms) => AtomsInRange(atoms, n)
  }

  predicate AtomsInRange(atoms: seq<Atom>, n: nat)
    decreases atoms
  {
    atoms == [] || (AtomInRange(atoms[0], n) && AtomsInRange(atoms[1..], n))
  }

  predicate AtomInRange(a: Atom, n: nat)
    decreases a
  {
    ValInRange(a.val, n)
  }

  /** The characters a pattern may contain. */
  predicate InAlphabet(c: char)
  {
    IsDigit(c) || c == '(' || c == ')' || c == '{' || c == '}' || c == '*'
  }

  /** Every atom of the tree is expressible in the concrete syntax: indices are single digits. */
  predicate Printable(atoms: seq<Atom>)
  {
    AtomsInRange(atoms, 10)
  }

  /** The concrete syntax of a quantifier; `Finite(1)` is the default and is written as nothing. */
  function PrintQ(q: Quantifier): string
  {
    match q
    case Infinite => "*"
    case Finite(n) => if n == 1 then "" else "{" + Decimal(n) + "}"
  }

  function PrintVal(v: Val): string
    requires ValInRange(v, 10)
    decreases v
  {
    match v
    case Single(i) => [DigitChar(i)]
    case Group(atoms) => "(" + Print(atoms) + ")"
  }

  /** The canonical concrete syntax of an expression. */
  function Print(atoms: seq<Atom>): string
    requires Printable(atoms)
    decreases atoms
  {
    if atoms == [] then "" else PrintAtom(atoms[0]) + Print(atoms[1..])
  }

  function PrintAtom(a: Atom): string
    requires AtomInRange(a, 10)
    decreases a
  {
    PrintVal(a.val) + PrintQ(a.q)
  }

  /** A quantifier that is written with braces. */
  predicate Braced(q: Quantifier)
  {
    q.Finite? && q.n != 1
  }

  /**
   * At most one braced quantifier in every sequence of the tree: the
   * character scanner reads such text as intended (its brace digits are
   * never cleared within one sequence).
   */
  predicate OneBracePerLevel(atoms: seq<Atom>)
    decreases atoms
  {
    atoms != [] ==>
      && AtomOneBracePerLevel(atoms[0])
      && (Braced(atoms[0].q) ==> !HasBrace(atoms[1..]))
      && OneBracePerLevel(atoms[1..])
  }

  predicate HasBrace(atoms: seq<Atom>)
  {
    atoms != [] && (Braced(atoms[0].q) || HasBrace(atoms[1..]))
  }

  predicate AtomOneBracePerLevel(a: Atom)
    decreases a
  {
    a.val.Group? ==> OneBracePerLevel(a.val.atoms)
  }

  /** The first atom's value, its group contents and the remaining atoms are all smaller than the whole. */
  lemma SizeOfFirst(atoms: seq<Atom>)
    requires atoms != []
    ensures ValSize(atoms[0].val) < AtomsSize(atoms)
    ensures AtomsSize(atoms[1..]) < AtomsSize(atoms)
    ensures atoms[0].val.Group? ==> AtomsSize(atoms[0].val.atoms) < AtomsSize(atoms)
  {
    assert AtomsSize(atoms) == AtomSize(atoms[0]) + AtomsSize(atoms[1..]);
  }

  /** A single digit with the default count, as in `01`. */
  function Once(i: nat): Atom
  {
    Atom(Single(i), Finite(1))
  }
}
