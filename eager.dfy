/**
 * The eager evaluator of src/pattern.rs (`Pattern::merge_streams`): a
 * pattern is evaluated all at once into a vector of lines.  Unlike the lazy
 * evaluators, an index with no source behind it is an error, raised as soon
 * as a repetition of that `Single` is attempted.
 */
module Eager {
  import opened Wrappers
  import opened Quantifiers
  import opened Syntax
  import opened Streams
  import opened Semantics

  /** The outcome of an evaluation: its output and the sources after it, or the offending index. */
  type Outcome<T> = Result<(seq<T>, Sources<T>), nat>

  /** `o` in front of the output of an outcome. */
  function Then<T>(o: seq<T>, r: Outcome<T>): Outcome<T>
  {
    match r
    case Err(i) => Err(i)
    case Ok((o', ss)) => Ok((o + o', ss))
  }

  /** One call of the repeated operation on a value: a line, or one pass over a group. */
  function EagerVal<T(==)>(v: Val, ss: Sources<T>): (r: Outcome<T>)
    ensures r.Ok? ==> |r.value.1| == |ss| && Remaining(r.value.1) + |r.value.0| == Remaining(ss)
    ensures r.Err? ==> r.error >= |ss|
    decreases Remaining(ss), ValSize(v), 0
  {
    match v
    case Single(i) =>
      if i >= |ss| then Err(i)
      else
        var (x, ss1) := Pull(ss, i);
        Ok((if x.Some? then [x.value] else [], ss1))
    case Group(atoms) => EagerAtoms(atoms, ss)
  }

  /** `Repeater::repeat` around that operation: it goes on while the count allows and the last call produced something. */
  function EagerReps<T(==)>(v: Val, q: Quantifier, ss: Sources<T>): (r: Outcome<T>)
    ensures r.Ok? ==> |r.value.1| == |ss| && Remaining(r.value.1) + |r.value.0| == Remaining(ss)
    ensures r.Err? ==> r.error >= |ss|
    decreases Remaining(ss), ValSize(v), 1
  {
    var (granted, q') := Next(q);
    if !granted then Ok(([], ss))
    else
      match EagerVal(v, ss)
      case Err(i) => Err(i)
      case Ok((o, ss1)) =>
        if o == [] then Ok((o, ss1))
        else Then(o, EagerReps(v, q', ss1))
  }

  /** The inner patterns of a group, each in turn; the first error ends the pass. */
  function EagerAtoms<T(==)>(atoms: seq<Atom>, ss: Sources<T>): (r: Outcome<T>)
    ensures r.Ok? ==> |r.value.1| == |ss| && Remaining(r.value.1) + |r.value.0| == Remaining(ss)
    ensures r.Err? ==> r.error >= |ss|
    decreases Remaining(ss), AtomsSize(atoms), 2
  {
    if atoms == [] then Ok(([], ss))
    else
      SizeOfFirst(atoms);
      match EagerReps(atoms[0].val, atoms[0].q, ss)
      case Err(i) => Err(i)
      case Ok((o, ss1)) => Then(o, EagerAtoms(atoms[1..], ss1))
  }

  /**
   * When every index names a source, the eager evaluator outputs exactly
   * what the reference semantics does and leaves the sources in the same state.
   */
  lemma {:induction false} ValAgrees<T>(v: Val, ss: Sources<T>)
    requires ValInRange(v, |ss|)
    ensures EagerVal(v, ss) == Ok(DenVal(v, ss))
    decreases Remaining(ss), ValSize(v), 0
  {
    match v
    case Single(i) =>
    case Group(atoms) => AtomsAgree(atoms, ss);
  }

  lemma {:induction false} RepsAgree<T>(v: Val, q: Quantifier, ss: Sources<T>)
    requires ValInRange(v, |ss|)
    ensures EagerReps(v, q, ss) == Ok(DenReps(v, q, ss))
    decreases Remaining(ss), ValSize(v), 1
  {
    if Next(q).0 {
      ValAgrees(v, ss);
      var (o, ss1) := DenVal(v, ss);
      if o != [] {
        RepsAgree(v, Next(q).1, ss1);
      }
    }
  }

  lemma {:induction false} AtomsAgree<T>(atoms: seq<Atom>, ss: Sources<T>)
    requires AtomsInRange(atoms, |ss|)
    ensures EagerAtoms(atoms, ss) == Ok(DenAtoms(atoms, ss))
    decreases Remaining(ss), AtomsSize(atoms), 2
  {
    if atoms != [] {
      SizeOfFirst(atoms);
      RepsAgree(atoms[0].val, atoms[0].q, ss);
      var (o, ss1) := DenReps(atoms[0].val, atoms[0].q, ss);
      AtomsAgree(atoms[1..], ss1);
    }
  }

  /** A `Single` naming a missing source fails as soon as its count lets it run, and only then. */
  lemma MissingSourceFails<T>(i: nat, q: Quantifier, ss: Sources<T>)
    requires i >= |ss|
    ensures EagerReps(Single(i), q, ss) == (if q == Finite(0) then Ok(([], ss)) else Err(i))
  {
  }

  /** The count a repeater has left after `count` calls. */
  function Budget(q: Quantifier, count: nat): (b: Quantifier)
    ensures q.Infinite? <==> b.Infinite?
  {
    if q.Infinite? then Infinite else Finite(if count <= q.n then q.n - count else 0)
  }

  /** One granted call of the repeated operation, whose outcome is `Ok((o, ss1))`. */
  lemma RepsStep<T>(v: Val, q: Quantifier, ss: Sources<T>, o: seq<T>, ss1: Sources<T>)
    requires Next(q).0 && EagerVal(v, ss) == Ok((o, ss1))
    ensures EagerReps(v, q, ss) == if o == [] then Ok(([], ss1)) else Then(o, EagerReps(v, Next(q).1, ss1))
  {
  }

  lemma ThenThen<T>(a: seq<T>, b: seq<T>, r: Outcome<T>)
    ensures Then(a, Then(b, r)) == Then(a + b, r)
  {
    if r.Ok? {
      assert a + (b + r.value.0) == (a + b) + r.value.0;
    }
  }

  lemma ThenNothing<T>(a: seq<T>, ss: Sources<T>)
    ensures Then(a, Ok(([], ss))) == Ok((a, ss))
  {
    assert a + [] == a;
  }

  /** The pass over `atoms[k..]`, by its first atom. */
  lemma AtomsFrom<T>(atoms: seq<Atom>, k: nat, ss: Sources<T>)
    requires k < |atoms|
    ensures EagerAtoms(atoms[k..], ss) ==
              match EagerReps(atoms[k].val, atoms[k].q, ss)
              case Err(i) => Err(i)
              case Ok((o, ss1)) => Then(o, EagerAtoms(atoms[k + 1..], ss1))
  {
    assert atoms[k..][0] == atoms[k];
    assert atoms[k..][1..] == atoms[k + 1..];
  }

  lemma MemberSmaller(atoms: seq<Atom>, k: nat)
    requires k < |atoms|
    ensures AtomSize(atoms[k]) <= AtomsSize(atoms)
  {
    if k > 0 {
      MemberSmaller(atoms[1..], k - 1);
    }
  }

  /** The loop of `Repeater::repeat` after one more call whose outcome is `Ok((out, after))`. */
  lemma RepeatedOnce<T>(v: Val, q: Quantifier, count: nat, ss0: Sources<T>, res: seq<T>,
                        before: Sources<T>, out: seq<T>, after: Sources<T>)
    requires q.Finite? ==> count < q.n
    requires EagerReps(v, q, ss0) == Then(res, EagerReps(v, Budget(q, count), before))
    requires EagerVal(v, before) == Ok((out, after))
    ensures out != [] ==> EagerReps(v, q, ss0) == Then(res + out, EagerReps(v, Budget(q, count + 1), after))
    ensures out == [] ==> EagerReps(v, q, ss0) == Ok((res + out, after))
  {
    var b := Budget(q, count);
    assert Next(b).0 && Next(b).1 == Budget(q, count + 1);
    RepsStep(v, b, before, out, after);
    ThenThen(res, out, EagerReps(v, Next(b).1, after));
    if out == [] {
      ThenNothing(res, after);
    }
  }

  lemma ThenEmpty<T>(r: Outcome<T>)
    ensures Then([], r) == r
  {
    if r.Ok? {
      assert [] + r.value.0 == r.value.0;
    }
  }

  /**
   * `Pattern::merge_streams`: repeats the pattern's operation as its
   * repeater says, reading the shared sources; returns the lines, or the
   * first index found to have no source.
   */
  method MergeStreams<T(==)>(p: Atom, iters: Iters<T>) returns (r: Result<seq<T>, nat>)
    modifies iters
    ensures r.Ok? ==> EagerReps(p.val, p.q, old(iters.sources)) == Ok((r.value, iters.sources))
    ensures r.Err? ==> EagerReps(p.val, p.q, old(iters.sources)) == Err(r.error)
    decreases Remaining(iters.sources), AtomSize(p), 2
  {
    ghost var ss0 := iters.sources;
    var res: seq<T> := [];
    var repeat := true;
    var count: nat := 0;
    ThenEmpty(EagerReps(p.val, p.q, ss0));
    while repeat
      invariant p.q.Finite? ==> count <= p.q.n
      invariant Remaining(iters.sources) <= Remaining(ss0)
      invariant repeat ==> EagerReps(p.val, p.q, ss0) == Then(res, EagerReps(p.val, Budget(p.q, count), iters.sources))
      invariant !repeat ==> EagerReps(p.val, p.q, ss0) == Ok((res, iters.sources))
      decreases Remaining(iters.sources) + (if repeat then 1 else 0)
    {
      if p.q.Finite? && count >= p.q.n {
        ThenNothing(res, iters.sources);
        break;
      }
      ghost var before := iters.sources;
      var once := MergeOnce(p.val, iters);
      if once.Err? {
        return Err(once.error);
      }
      var out := once.value;
      RepeatedOnce(p.val, p.q, count, ss0, res, before, out, iters.sources);
      res := res + out;
      repeat := out != [];
      count := count + 1;
    }
    r := Ok(res);
  }

  /**
   * The operation `merge_streams` repeats: for a `Single(i)`, the next line
   * of source `i` if there is one (an error if there is no source `i`); for
   * a group, one pass over its inner patterns.
   */
  method MergeOnce<T(==)>(v: Val, iters: Iters<T>) returns (r: Result<seq<T>, nat>)
    modifies iters
    ensures r.Ok? ==> EagerVal(v, old(iters.sources)) == Ok((r.value, iters.sources))
    ensures r.Err? ==> EagerVal(v, old(iters.sources)) == Err(r.error)
    decreases Remaining(iters.sources), ValSize(v), 1
  {
    match v
    case Single(i) =>
      if i >= |iters.sources| {
        return Err(i);
      }
      var x := iters.Next(i);
      r := Ok(if x.Some? then [x.value] else []);
    case Group(g) =>
      r := MergeGroupOnce(g, iters);
  }

  /**
   * The operation `merge_streams` repeats for a group: every inner pattern
   * merged in turn, their lines appended; an inner error is passed on.
   */
  method MergeGroupOnce<T(==)>(g: seq<Atom>, iters: Iters<T>) returns (r: Result<seq<T>, nat>)
    modifies iters
    ensures r.Ok? ==> EagerAtoms(g, old(iters.sources)) == Ok((r.value, iters.sources))
    ensures r.Err? ==> EagerAtoms(g, old(iters.sources)) == Err(r.error)
    decreases Remaining(iters.sources), AtomsSize(g), 3
  {
    ghost var before := iters.sources;
    var out: seq<T> := [];
    assert g[0..] == g;
    ThenEmpty(EagerAtoms(g, before));
    for k := 0 to |g|
      invariant Remaining(iters.sources) + |out| == Remaining(before)
      invariant EagerAtoms(g, before) == Then(out, EagerAtoms(g[k..], iters.sources))
    {
      AtomsFrom(g, k, iters.sources);
      MemberSmaller(g, k);
      var inner := MergeStreams(g[k], iters);
      if inner.Err? {
        return Err(inner.error);
      }
      ThenThen(out, inner.value, EagerAtoms(g[k + 1..], iters.sources));
      out := out + inner.value;
    }
    assert g[|g|..] == [];
    ThenNothing(out, iters.sources);
    r := Ok(out);
  }
}
