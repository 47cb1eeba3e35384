/**
 * What a pattern outputs when it is evaluated against sources: the
 * reference against which every evaluator of the crate is proved.
 *
 * - A `Single(i)` repetition outputs the next item of source `i`. If source
 *   `i` is exhausted or does not exist, it outputs nothing; this is the
 *   skip policy of the lazy evaluators.
 * - A `Group` repetition runs its atoms left to right.
 * - An atom repeats its value while its quantifier grants another
 *   repetition. It stops for good as soon as one repetition outputs
 *   nothing (early termination).
 */
module Semantics {
  import opened Wrappers
  import opened Quantifiers
  import opened Syntax
  import opened Streams

  /** One repetition of a value. */
  function DenVal<T(==)>(v: Val, ss: Sources<T>): (r: (seq<T>, Sources<T>))
    ensures |r.1| == |ss| && Remaining(r.1) + |r.0| == Remaining(ss)
    decreases Remaining(ss), ValSize(v), 0
  {
    match v
    case Single(i) =>
      var (x, ss1) := Pull(ss, i);
      if x.Some? then ([x.value], ss1) else ([], ss1)
    case Group(atoms) => DenAtoms(atoms, ss)
  }

  /** Repetitions of `v` under quantifier `q`, stopping early at the first silent one. */
  function DenReps<T(==)>(v: Val, q: Quantifier, ss: Sources<T>): (r: (seq<T>, Sources<T>))
    ensures |r.1| == |ss| && Remaining(r.1) + |r.0| == Remaining(ss)
    decreases Remaining(ss), ValSize(v), 1
  {
    var (granted, q') := Next(q);
    if !granted then
      ([], ss)
    else
      var (o, ss1) := DenVal(v, ss);
      if o == [] then (o, ss1)
      else
        var (o', ss2) := DenReps(v, q', ss1);
        (o + o', ss2)
  }

  /** The atoms of a sequence, each in turn. */
  function DenAtoms<T(==)>(atoms: seq<Atom>, ss: Sources<T>): (r: (seq<T>, Sources<T>))
    ensures |r.1| == |ss| && Remaining(r.1) + |r.0| == Remaining(ss)
    decreases Remaining(ss), AtomsSize(atoms), 2
  {
    if atoms == [] then
      ([], ss)
    else
      SizeOfFirst(atoms);
      var (o, ss1) := DenReps(atoms[0].val, atoms[0].q, ss);
      var (o', ss2) := DenAtoms(atoms[1..], ss1);
      (o + o', ss2)
  }

  /** How many items `Single(i)` under `q` takes from a source with `left` items left. */
  function Take(q: Quantifier, left: nat): nat
  {
    if q.Infinite? || left <= q.n then left else q.n
  }

  /**
   * `Single(i)` takes successive items of source `i`, from its cursor on,
   * until the source is exhausted or the count is reached; no other source moves.
   */
  lemma {:induction false} SingleReps<T>(i: nat, q: Quantifier, ss: Sources<T>)
    requires i < |ss| && ss[i].cursor <= |ss[i].items|
    ensures DenReps(Single(i), q, ss) == TakeFrom(i, Take(q, Left(ss[i])), ss)
    decreases Left(ss[i])
  {
    if !Next(q).0 || !Available(ss, i) {
      SingleStop(i, q, ss);
    } else {
      var ss1 := ss[i := ss[i].(cursor := ss[i].cursor + 1)];
      var k := Take(q, Left(ss[i]));
      SingleStep(i, q, ss);
      assert Left(ss1[i]) < Left(ss[i]);
      SingleReps(i, Next(q).1, ss1);
      TakeFromStep(i, k, ss);
    }
  }

  /** The first `k` items from the cursor of source `i`, and the sources after taking them. */
  function TakeFrom<T>(i: nat, k: nat, ss: Sources<T>): (seq<T>, Sources<T>)
    requires i < |ss| && ss[i].cursor + k <= |ss[i].items|
  {
    var s := ss[i];
    (s.items[s.cursor..s.cursor + k], ss[i := s.(cursor := s.cursor + k)])
  }

  lemma TakeNothing<T>(i: nat, ss: Sources<T>)
    requires i < |ss| && ss[i].cursor <= |ss[i].items|
    ensures TakeFrom(i, 0, ss) == ([], ss)
  {
    var s := ss[i];
    assert s.(cursor := s.cursor + 0) == s;
    assert s.items[s.cursor..s.cursor + 0] == [];
    assert ss[i := s] == ss;
  }

  lemma TakeFromStep<T>(i: nat, k: nat, ss: Sources<T>)
    requires i < |ss| && 0 < k && ss[i].cursor + k <= |ss[i].items|
    ensures var ss1 := ss[i := ss[i].(cursor := ss[i].cursor + 1)];
            var r := TakeFrom(i, k - 1, ss1);
            TakeFrom(i, k, ss) == ([ss[i].items[ss[i].cursor]] + r.0, r.1)
  {
    var s := ss[i];
    var ss1 := ss[i := s.(cursor := s.cursor + 1)];
    assert ss1[i] == s.(cursor := s.cursor + 1);
    assert ss1[i := ss1[i].(cursor := ss1[i].cursor + (k - 1))] == ss[i := s.(cursor := s.cursor + k)];
    assert [s.items[s.cursor]] + s.items[s.cursor + 1..s.cursor + k] == s.items[s.cursor..s.cursor + k];
  }

  /** A `Single(i)` with no budget left or an exhausted source takes nothing. */
  lemma SingleStop<T>(i: nat, q: Quantifier, ss: Sources<T>)
    requires i < |ss| && ss[i].cursor <= |ss[i].items|
    requires !Next(q).0 || !Available(ss, i)
    ensures DenReps(Single(i), q, ss) == TakeFrom(i, Take(q, Left(ss[i])), ss)
  {
    TakeNothing(i, ss);
    assert Take(q, Left(ss[i])) == 0;
    assert DenReps(Single(i), q, ss) == ([], ss);
  }

  /** One granted repetition of an available `Single(i)`. */
  lemma SingleStep<T>(i: nat, q: Quantifier, ss: Sources<T>)
    requires Available(ss, i) && Next(q).0
    ensures var ss1 := ss[i := ss[i].(cursor := ss[i].cursor + 1)];
            var r := DenReps(Single(i), Next(q).1, ss1);
            && Pull(ss, i).1 == ss1
            && Take(Next(q).1, Left(ss1[i])) + 1 == Take(q, Left(ss[i]))
            && DenReps(Single(i), q, ss) == ([ss[i].items[ss[i].cursor]] + r.0, r.1)
  {
  }

  /** An index with no source behind it outputs nothing and moves nothing (the skip policy). */
  lemma OutOfRangeSkipped<T>(i: nat, q: Quantifier, ss: Sources<T>)
    requires i >= |ss|
    ensures DenReps(Single(i), q, ss) == ([], ss)
  {
  }

  /** With a zero count an atom is never evaluated. */
  lemma ZeroCountSilent<T>(v: Val, ss: Sources<T>)
    ensures DenReps(v, Finite(0), ss) == ([], ss)
  {
  }

  /**
   * Every output item is consumed from exactly one source, in that source's
   * order: the sources only move forward, and the items passed over are
   * exactly the output.
   */
  lemma {:induction false} ValConsumes<T>(v: Val, ss: Sources<T>)
    ensures Advances(ss, DenVal(v, ss).1) && Consumed(ss, DenVal(v, ss).1) == multiset(DenVal(v, ss).0)
    decreases Remaining(ss), ValSize(v), 0
  {
    match v
    case Single(i) =>
      if !Available(ss, i) {
        NothingConsumed(ss);
      }
    case Group(atoms) =>
      AtomsConsume(atoms, ss);
  }

  lemma {:induction false} RepsConsume<T>(v: Val, q: Quantifier, ss: Sources<T>)
    ensures Advances(ss, DenReps(v, q, ss).1) && Consumed(ss, DenReps(v, q, ss).1) == multiset(DenReps(v, q, ss).0)
    decreases Remaining(ss), ValSize(v), 1
  {
    var (granted, q') := Next(q);
    if !granted {
      NothingConsumed(ss);
    } else {
      var (o, ss1) := DenVal(v, ss);
      ValConsumes(v, ss);
      if o != [] {
        var (o', ss2) := DenReps(v, q', ss1);
        RepsConsume(v, q', ss1);
        AdvancesTrans(ss, ss1, ss2);
        ConsumedTrans(ss, ss1, ss2);
      }
    }
  }

  lemma {:induction false} AtomsConsume<T>(atoms: seq<Atom>, ss: Sources<T>)
    ensures Advances(ss, DenAtoms(atoms, ss).1) && Consumed(ss, DenAtoms(atoms, ss).1) == multiset(DenAtoms(atoms, ss).0)
    decreases Remaining(ss), AtomsSize(atoms), 2
  {
    if atoms == [] {
      NothingConsumed(ss);
    } else {
      SizeOfFirst(atoms);
      var (o, ss1) := DenReps(atoms[0].val, atoms[0].q, ss);
      RepsConsume(atoms[0].val, atoms[0].q, ss);
      var (o', ss2) := DenAtoms(atoms[1..], ss1);
      AtomsConsume(atoms[1..], ss1);
      AdvancesTrans(ss, ss1, ss2);
      ConsumedTrans(ss, ss1, ss2);
    }
  }

  /** Evaluating `xs + ys` is evaluating `xs`, then `ys` from where it left the sources. */
  lemma {:induction false} Split<T>(xs: seq<Atom>, ys: seq<Atom>, ss: Sources<T>)
    ensures var (o, ss1) := DenAtoms(xs, ss);
            var (o', ss2) := DenAtoms(ys, ss1);
            DenAtoms(xs + ys, ss) == (o + o', ss2)
    decreases xs
  {
    if xs == [] {
      assert xs + ys == ys;
      assert [] + DenAtoms(ys, ss).0 == DenAtoms(ys, ss).0;
    } else {
      assert (xs + ys)[0] == xs[0] && (xs + ys)[1..] == xs[1..] + ys;
      var (h, ss1) := DenReps(xs[0].val, xs[0].q, ss);
      Split(xs[1..], ys, ss1);
      var (o, ss2) := DenAtoms(xs[1..], ss1);
      var (o', ss3) := DenAtoms(ys, ss2);
      assert h + (o + o') == (h + o) + o';
    }
  }

  /** `Split` with the two halves' outcomes named. */
  lemma Concat<T>(xs: seq<Atom>, ys: seq<Atom>, ss: Sources<T>, o1: seq<T>, mid: Sources<T>, o2: seq<T>, end: Sources<T>)
    requires DenAtoms(xs, ss) == (o1, mid) && DenAtoms(ys, mid) == (o2, end)
    ensures DenAtoms(xs + ys, ss) == (o1 + o2, end)
  {
    Split(xs, ys, ss);
  }
}
