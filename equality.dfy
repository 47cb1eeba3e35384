/**
 * The hand-written `PartialEq` of the lazy evaluator's nodes
 * (src/expression/imex_val.rs and src/expression/imex.rs): two `IMEx`
 * values are equal when the atoms they have not started yet are equal, and
 * on those, equality is equality of the parsed trees.
 */
module LazyEquality {
  import opened Wrappers
  import opened Syntax
  import opened Lazy

  /** `IMExVal::eq`: Singles by the index they still hold, groups by their `IMEx`, a Single never equals a group. */
  function EqVal(a: LVal, b: LVal): (r: bool)
    ensures r ==> (a.LSingle? <==> b.LSingle?)
    ensures r && a.LSingle? ==> a.once == b.once
    decreases HVal(a), 0
  {
    match (a, b)
    case (LSingle(x), LSingle(y)) => x == y
    case (LGroup(m), LGroup(n)) => EqImex(m, n)
    case _ => false
  }

  /** `IMEx::eq`: the atoms not yet started, compared in order; the active atom is not looked at. */
  function EqImex(a: LImex, b: LImex): (r: bool)
    ensures r ==> |a.vals| == |b.vals|
    decreases HImex(a), 3
  {
    EqAtoms(a.vals, b.vals)
  }

  /** Vector equality on not-yet-started `QuantifiedIMExVal`s. */
  function EqAtoms(xs: seq<Atom>, ys: seq<Atom>): (r: bool)
    ensures r ==> |xs| == |ys|
    ensures r && xs != [] ==> xs[0].q == ys[0].q
    decreases AtomsSize(xs), 2
  {
    if xs == [] || ys == [] then xs == [] && ys == []
    else
      SizeOfFirst(xs);
      EqAtom(xs[0], ys[0]) && EqAtoms(xs[1..], ys[1..])
  }

  /** The derived equality of a `QuantifiedIMExVal` that has not started: value and count (no repetition in progress on either side). */
  function EqAtom(x: Atom, y: Atom): (r: bool)
    ensures r ==> x.q == y.q && (x.val.Single? <==> y.val.Single?)
    decreases AtomSize(x), 1
  {
    EqVal(FreshVal(x.val), FreshVal(y.val)) && x.q == y.q
  }

  /** On parsed trees, the crate's equality is exactly equality of the trees. */
  lemma {:induction false} EqValIsIdentity(v: Val, w: Val)
    ensures EqVal(FreshVal(v), FreshVal(w)) <==> v == w
    decreases ValSize(v), 0
  {
    match v
    case Single(_) =>
    case Group(xs) =>
      if w.Group? {
        EqAtomsIsIdentity(xs, w.atoms);
      }
  }

  lemma {:induction false} EqAtomsIsIdentity(xs: seq<Atom>, ys: seq<Atom>)
    ensures EqAtoms(xs, ys) <==> xs == ys
    decreases AtomsSize(xs), 1
  {
    if xs != [] && ys != [] {
      SizeOfFirst(xs);
      EqValIsIdentity(xs[0].val, ys[0].val);
      EqAtomsIsIdentity(xs[1..], ys[1..]);
      if xs[0] == ys[0] && xs[1..] == ys[1..] {
        assert xs == [xs[0]] + xs[1..] && ys == [ys[0]] + ys[1..];
      }
    }
  }

  /** Two `IMEx` states are equal exactly when their unstarted atoms are the same, whatever their progress. */
  lemma EqImexIgnoresProgress(a: LImex, b: LImex)
    ensures EqImex(a, b) <==> a.vals == b.vals
  {
    EqAtomsIsIdentity(a.vals, b.vals);
  }

  /** The crate's equality on values is reflexive and symmetric. */
  lemma {:induction false} EqValReflexive(a: LVal)
    ensures EqVal(a, a)
  {
    if a.LGroup? {
      EqAtomsIsIdentity(a.imex.vals, a.imex.vals);
    }
  }

  lemma EqValSymmetric(a: LVal, b: LVal)
    ensures EqVal(a, b) <==> EqVal(b, a)
  {
    if a.LGroup? && b.LGroup? {
      EqAtomsIsIdentity(a.imex.vals, b.imex.vals);
      EqAtomsIsIdentity(b.imex.vals, a.imex.vals);
    }
  }
}
