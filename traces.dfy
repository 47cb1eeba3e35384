/**
 * The error policy of src/pattern.rs and src/paste_iter.rs as a reference:
 * evaluation as in `Semantics`, except that the first repetition of a
 * `Single` naming a missing source stops everything with that index.  A
 * trace keeps the items produced before that point, which the lazy
 * `PasteIter` hands out before its error and the eager `merge_streams`
 * throws away.
 */
module Traces {
  import opened Wrappers
  import opened Quantifiers
  import opened Syntax
  import opened Streams
  import opened Semantics
  import opened Eager

  /** Items produced, the index that stopped evaluation if any, and the sources at that point. */
  datatype Trace<T> = Trace(out: seq<T>, err: Option<nat>, ss: Sources<T>)

  /** `t`, then `u` (evaluated from the sources `t` leaves), unless `t` stopped on an error. */
  function Seq<T>(t: Trace<T>, u: Trace<T>): Trace<T>
  {
    if t.err.Some? then t else Trace(t.out + u.out, u.err, u.ss)
  }

  /** Every trace is well formed: sources keep their number and lose exactly the items produced. */
  ghost predicate Accounts<T>(t: Trace<T>, ss: Sources<T>)
  {
    |t.ss| == |ss| && Remaining(t.ss) + |t.out| == Remaining(ss)
  }

  function TraceVal<T(==)>(v: Val, ss: Sources<T>): (t: Trace<T>)
    ensures Accounts(t, ss)
    ensures t.err.Some? ==> t.err.value >= |ss|
    decreases Remaining(ss), ValSize(v), 0
  {
    match v
    case Single(i) =>
      if i >= |ss| then Trace([], Some(i), ss)
      else
        var (x, ss1) := Pull(ss, i);
        Trace(if x.Some? then [x.value] else [], None, ss1)
    case Group(atoms) => TraceAtoms(atoms, ss)
  }

  function TraceReps<T(==)>(v: Val, q: Quantifier, ss: Sources<T>): (t: Trace<T>)
    ensures Accounts(t, ss)
    ensures t.err.Some? ==> t.err.value >= |ss|
    decreases Remaining(ss), ValSize(v), 1
  {
    var (granted, q') := Next(q);
    if !granted then Trace([], None, ss)
    else
      var t := TraceVal(v, ss);
      if t.err.Some? || t.out == [] then t
      else Seq(t, TraceReps(v, q', t.ss))
  }

  function TraceAtoms<T(==)>(atoms: seq<Atom>, ss: Sources<T>): (t: Trace<T>)
    ensures Accounts(t, ss)
    ensures t.err.Some? ==> t.err.value >= |ss|
    decreases Remaining(ss), AtomsSize(atoms), 2
  {
    if atoms == [] then Trace([], None, ss)
    else
      SizeOfFirst(atoms);
      var t := TraceReps(atoms[0].val, atoms[0].q, ss);
      if t.err.Some? then t else Seq(t, TraceAtoms(atoms[1..], t.ss))
  }

  /** A trace as the eager evaluator reports it: the error alone, or the output and the sources. */
  function Reported<T>(t: Trace<T>): Outcome<T>
  {
    if t.err.Some? then Err(t.err.value) else Ok((t.out, t.ss))
  }

  /** The eager evaluator reports the trace, on every input. */
  lemma {:induction false} EagerValReportsTrace<T>(v: Val, ss: Sources<T>)
    ensures EagerVal(v, ss) == Reported(TraceVal(v, ss))
    decreases Remaining(ss), ValSize(v), 0
  {
    if v.Group? {
      EagerAtomsReportsTrace(v.atoms, ss);
    }
  }

  lemma {:induction false} EagerRepsReportsTrace<T>(v: Val, q: Quantifier, ss: Sources<T>)
    ensures EagerReps(v, q, ss) == Reported(TraceReps(v, q, ss))
    decreases Remaining(ss), ValSize(v), 1
  {
    if Next(q).0 {
      EagerValReportsTrace(v, ss);
      var t := TraceVal(v, ss);
      if t.err.None? && t.out != [] {
        EagerRepsReportsTrace(v, Next(q).1, t.ss);
      }
    }
  }

  lemma {:induction false} EagerAtomsReportsTrace<T>(atoms: seq<Atom>, ss: Sources<T>)
    ensures EagerAtoms(atoms, ss) == Reported(TraceAtoms(atoms, ss))
    decreases Remaining(ss), AtomsSize(atoms), 2
  {
    if atoms != [] {
      SizeOfFirst(atoms);
      EagerRepsReportsTrace(atoms[0].val, atoms[0].q, ss);
      var t := TraceReps(atoms[0].val, atoms[0].q, ss);
      if t.err.None? {
        EagerAtomsReportsTrace(atoms[1..], t.ss);
      }
    }
  }

  /** With every index naming a source there is no error, and the trace is the reference output. */
  lemma {:induction false} ValTraceIsDen<T>(v: Val, ss: Sources<T>)
    requires ValInRange(v, |ss|)
    ensures TraceVal(v, ss) == Trace(DenVal(v, ss).0, None, DenVal(v, ss).1)
    decreases Remaining(ss), ValSize(v), 0
  {
    if v.Group? {
      AtomsTraceIsDen(v.atoms, ss);
    }
  }

  lemma {:induction false} RepsTraceIsDen<T>(v: Val, q: Quantifier, ss: Sources<T>)
    requires ValInRange(v, |ss|)
    ensures TraceReps(v, q, ss) == Trace(DenReps(v, q, ss).0, None, DenReps(v, q, ss).1)
    decreases Remaining(ss), ValSize(v), 1
  {
    if Next(q).0 {
      ValTraceIsDen(v, ss);
      var t := TraceVal(v, ss);
      if t.out != [] {
        RepsTraceIsDen(v, Next(q).1, t.ss);
      }
    }
  }

  lemma {:induction false} AtomsTraceIsDen<T>(atoms: seq<Atom>, ss: Sources<T>)
    requires AtomsInRange(atoms, |ss|)
    ensures TraceAtoms(atoms, ss) == Trace(DenAtoms(atoms, ss).0, None, DenAtoms(atoms, ss).1)
    decreases Remaining(ss), AtomsSize(atoms), 2
  {
    if atoms != [] {
      SizeOfFirst(atoms);
      RepsTraceIsDen(atoms[0].val, atoms[0].q, ss);
      var t := TraceReps(atoms[0].val, atoms[0].q, ss);
      AtomsTraceIsDen(atoms[1..], t.ss);
    }
  }
}
