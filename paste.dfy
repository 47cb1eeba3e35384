/**
 * `PasteIter` (src/paste_iter.rs): the lazy merge written as one explicit
 * state machine.  A state holds the atoms not yet loaded, the evaluator of
 * the group repetition in progress, the flag "the previous repetition
 * produced something", and the atom in progress with the count it has
 * left.  Sources are shared with every nested evaluator; here they are the
 * one `Iters` object handed down the recursion.
 */
module PasteIters {
  import opened Wrappers
  import opened Numerals
  import opened Quantifiers
  import opened Syntax
  import opened Streams
  import Scanner
  import opened Traces

  datatype PState = PState(pastex: seq<Atom>, inner: Option<PState>, flag: bool, current: Option<Atom>)

  /** A state that has loaded nothing yet: no inner evaluator, no atom, flag down. */
  function Start(atoms: seq<Atom>): PState
  {
    PState(atoms, None, false, None)
  }

  /** Height of a state: bounds the recursion of `Step` through inner evaluators. */
  function Height(p: PState): nat
    decreases p
  {
    AtomsSize(p.pastex)
    + Max(if p.current.Some? then AtomSize(p.current.value) else 0,
          if p.inner.Some? then Height(p.inner.value) + 1 else 0)
  }

  /** Progress inside one atom: every pass of the `next` loop that loads nothing lowers it. */
  function Phase(p: PState): nat
  {
    if p.current.None? then 0
    else if p.flag then (if p.inner.Some? then 4 else 3)
    else (if p.inner.Some? then 2 else 1)
  }

  /**
   * What `p` still yields from the sources `ss`: the rest of the inner
   * evaluator, then the rest of the atom in progress and the atoms not
   * loaded.
   */
  ghost function Pending<T>(p: PState, ss: Sources<T>): Trace<T>
    decreases p
  {
    var t1 := if p.inner.Some? then Pending(p.inner.value, ss) else Trace([], None, ss);
    Seq(t1, Rest(p, t1))
  }

  /** After the inner evaluator's trace `t1`: the atom in progress, then the atoms not loaded. */
  ghost function Rest<T>(p: PState, t1: Trace<T>): Trace<T>
  {
    var t2 := Active(p, t1);
    Seq(t2, TraceAtoms(p.pastex, t2.ss))
  }

  /**
   * The remaining repetitions of the atom in progress.  A group atom whose
   * last repetition produced nothing (flag down, inner evaluator silent)
   * has none.
   */
  ghost function Active<T>(p: PState, t1: Trace<T>): Trace<T>
  {
    match p.current
    case None => Trace([], None, t1.ss)
    case Some(a) =>
      if a.val.Single? || p.flag || |t1.out| > 0 then TraceReps(a.val, a.q, t1.ss)
      else Trace([], None, t1.ss)
  }

  /** One `next` result against what was pending before and after it. */
  ghost predicate Yields<T>(before: Trace<T>, x: Option<Result<T, nat>>, after: Trace<T>, ss: Sources<T>)
  {
    match x
    case Some(Ok(y)) => Emits(before, y, after)
    case Some(Err(i)) => before.out == [] && before.err == Some(i)
    case None => before == Trace([], None, ss) && after == Trace([], None, ss)
  }

  /** `before` is the item `y` followed by `after`. */
  ghost predicate Emits<T>(before: Trace<T>, y: T, after: Trace<T>)
  {
    before == Trace([y] + after.out, after.err, after.ss)
  }

  /** A `next` result is read off what was pending: its first item, else its error, else `None`. */
  lemma Handed<T>(before: Trace<T>, x: Option<Result<T, nat>>, after: Trace<T>, ss: Sources<T>)
    requires Yields(before, x, after, ss)
    ensures before.out != [] ==> x == Some(Ok(before.out[0])) && after.out == before.out[1..] && after.err == before.err
    ensures before.out == [] && before.err.Some? ==> x == Some(Err(before.err.value))
    ensures before.out == [] && before.err.None? ==> x.None?
  {
  }

  /** Traces compose associatively, and the empty trace is a left unit. */
  lemma SeqAssoc<T>(t: Trace<T>, u: Trace<T>, w: Trace<T>)
    ensures Seq(Seq(t, u), w) == Seq(t, Seq(u, w))
  {
    if t.err.None? && u.err.None? {
      assert (t.out + u.out) + w.out == t.out + (u.out + w.out);
    }
  }

  lemma SeqEmpty<T>(ss: Sources<T>, u: Trace<T>)
    ensures Seq(Trace([], None, ss), u) == u
  {
    assert [] + u.out == u.out;
  }

  /** With no inner evaluator, what is pending is the atom in progress and the atoms not loaded. */
  lemma Outer<T>(p: PState, ss: Sources<T>)
    requires p.inner.None?
    ensures Pending(p, ss) == Rest(p, Trace([], None, ss))
  {
    SeqEmpty(ss, Rest(p, Trace([], None, ss)));
  }

  /** A fresh evaluator over `atoms` has exactly their trace pending. */
  lemma StartPending<T>(atoms: seq<Atom>, ss: Sources<T>)
    ensures Pending(Start(atoms), ss) == TraceAtoms(atoms, ss)
  {
    Outer(Start(atoms), ss);
    SeqEmpty(ss, TraceAtoms(atoms, ss));
  }

  /** The inner evaluator handed out `y`: so does the whole, and the flag goes up. */
  lemma InnerEmits<T>(p: PState, inner': PState, ss: Sources<T>, ss': Sources<T>, y: T)
    requires p.inner.Some?
    requires Pending(p.inner.value, ss) == Seq(Trace([y], None, ss'), Pending(inner', ss'))
    ensures Emits(Pending(p, ss), y, Pending(p.(inner := Some(inner'), flag := true), ss'))
  {
    var p' := p.(inner := Some(inner'), flag := true);
    var a := Pending(inner', ss');
    var t1 := Pending(p.inner.value, ss);
    assert Active(p, t1) == Active(p', a);
    SeqAssoc(Trace([y], None, ss'), a, Rest(p', a));
  }

  /** The inner evaluator failed: so does the whole. */
  lemma InnerFails<T>(p: PState, ss: Sources<T>, i: nat)
    requires p.inner.Some?
    requires Pending(p.inner.value, ss).out == [] && Pending(p.inner.value, ss).err == Some(i)
    ensures Pending(p, ss).out == [] && Pending(p, ss).err == Some(i)
  {
  }

  /** The inner evaluator is finished: dropping it changes nothing pending. */
  lemma InnerDone<T>(p: PState, ss: Sources<T>, ss': Sources<T>)
    requires p.inner.Some?
    requires Pending(p.inner.value, ss) == Trace([], None, ss')
    ensures Pending(p, ss) == Pending(p.(inner := None), ss')
  {
    var p' := p.(inner := None);
    assert Rest(p, Trace([], None, ss')) == Rest(p', Trace([], None, ss'));
    Outer(p', ss');
    SeqEmpty(ss', Rest(p', Trace([], None, ss')));
  }

  /** A `Single(i)` with count left and an item in source `i`: that item, then the remaining count. */
  lemma SingleTrace<T>(i: nat, q: Quantifier, ss: Sources<T>)
    requires Next(q).0 && Pull(ss, i).0.Some?
    ensures var (y, ss1) := Pull(ss, i);
            TraceReps(Single(i), q, ss) == Seq(Trace([y.value], None, ss1), TraceReps(Single(i), Next(q).1, ss1))
  {
    var (y, ss1) := Pull(ss, i);
    assert TraceVal(Single(i), ss) == Trace([y.value], None, ss1);
  }

  /** The atom in progress hands out `y` and continues with count `q'`: so does the whole. */
  lemma AtomEmits<T>(p: PState, ss: Sources<T>, y: T, q': Quantifier, ss1: Sources<T>)
    requires p.inner.None? && p.current.Some? && p.current.value.val.Single?
    requires var a := p.current.value;
             TraceReps(a.val, a.q, ss) == Seq(Trace([y], None, ss1), TraceReps(a.val, q', ss1))
    ensures Emits(Pending(p, ss), y, Pending(p.(current := Some(Atom(p.current.value.val, q'))), ss1))
  {
    var a := p.current.value;
    var p' := p.(current := Some(Atom(a.val, q')));
    var head := Trace([y], None, ss1);
    var r := TraceReps(a.val, q', ss1);
    Outer(p, ss);
    Outer(p', ss1);
    assert Active(p, Trace([], None, ss)) == Seq(head, r);
    assert Active(p', Trace([], None, ss1)) == r;
    SeqAssoc(head, r, TraceAtoms(p.pastex, r.ss));
  }

  /** A `Single(i)` whose source `i` is exhausted: the atom is over. */
  lemma SingleExhausted<T>(p: PState, ss: Sources<T>)
    requires p.inner.None? && p.current.Some? && p.current.value.val.Single?
    requires Next(p.current.value.q).0 && p.current.value.val.idx < |ss|
    requires Pull(ss, p.current.value.val.idx).0.None?
    ensures Pending(p, ss) == Pending(p.(current := None), ss)
  {
    var a := p.current.value;
    assert TraceVal(a.val, ss) == Trace([], None, ss);
    assert TraceReps(a.val, a.q, ss) == Trace([], None, ss);
    Outer(p, ss);
    Outer(p.(current := None), ss);
    SeqEmpty(ss, TraceAtoms(p.pastex, ss));
  }

  /** A `Single(i)` with no source `i`: the error is all that is pending. */
  lemma SingleMissing<T>(p: PState, ss: Sources<T>)
    requires p.inner.None? && p.current.Some? && p.current.value.val.Single?
    requires Next(p.current.value.q).0 && p.current.value.val.idx >= |ss|
    ensures Pending(p, ss).out == [] && Pending(p, ss).err == Some(p.current.value.val.idx)
  {
    var a := p.current.value;
    assert TraceVal(a.val, ss) == Trace([], Some(a.val.idx), ss);
    assert TraceReps(a.val, a.q, ss) == Trace([], Some(a.val.idx), ss);
    Outer(p, ss);
  }

  /** A group with count left after a productive repetition: a fresh inner evaluator starts, flag down. */
  lemma GroupRepeats<T>(p: PState, ss: Sources<T>)
    requires p.inner.None? && p.current.Some? && p.current.value.val.Group?
    requires Next(p.current.value.q).0 && p.flag
    ensures var a := p.current.value;
            Pending(p, ss) == Pending(PState(p.pastex, Some(Start(a.val.atoms)), false, Some(Atom(a.val, Next(a.q).1))), ss)
  {
    var a := p.current.value;
    var p' := PState(p.pastex, Some(Start(a.val.atoms)), false, Some(Atom(a.val, Next(a.q).1)));
    var t := TraceAtoms(a.val.atoms, ss);
    StartPending(a.val.atoms, ss);
    assert TraceVal(a.val, ss) == t;
    Outer(p, ss);
    var r := TraceReps(a.val, Next(a.q).1, t.ss);
    if t.err.None? && t.out != [] {
      assert TraceReps(a.val, a.q, ss) == Seq(t, r);
      assert Active(p', t) == r;
      SeqAssoc(t, r, TraceAtoms(p.pastex, r.ss));
    } else if t.err.None? {
      assert TraceReps(a.val, a.q, ss) == t;
      assert Active(p', t) == Trace([], None, t.ss);
      SeqEmpty(t.ss, TraceAtoms(p.pastex, t.ss));
    }
  }

  /** A group whose last repetition produced nothing is over, whatever count it has left. */
  lemma GroupStops<T>(p: PState, ss: Sources<T>)
    requires p.inner.None? && p.current.Some? && p.current.value.val.Group? && !p.flag
    ensures Pending(p, ss) == Pending(p.(current := None), ss)
  {
    Outer(p, ss);
    Outer(p.(current := None), ss);
  }

  /** An atom with no count left is over. */
  lemma Exhausted<T>(p: PState, ss: Sources<T>)
    requires p.inner.None? && p.current.Some? && !Next(p.current.value.q).0
    ensures Pending(p, ss) == Pending(p.(current := None), ss)
  {
    Outer(p, ss);
    Outer(p.(current := None), ss);
  }

  /** The state once the next atom is loaded: a group primes the flag. */
  function Load(p: PState): PState
    requires p.pastex != []
  {
    var a := p.pastex[0];
    PState(p.pastex[1..], None, a.val.Group? || p.flag, Some(a))
  }

  /** Loading the next atom changes nothing pending, and does not make the state higher. */
  lemma Loads<T>(p: PState, ss: Sources<T>)
    requires p.inner.None? && p.current.None? && p.pastex != []
    ensures Pending(p, ss) == Pending(Load(p), ss)
    ensures Height(Load(p)) <= Height(p)
  {
    var a := p.pastex[0];
    var p' := Load(p);
    SizeOfFirst(p.pastex);
    var t := TraceReps(a.val, a.q, ss);
    Outer(p, ss);
    Outer(p', ss);
    assert Active(p', Trace([], None, ss)) == t;
    SeqEmpty(ss, TraceAtoms(p.pastex, ss));
    assert AtomsSize(p.pastex) == AtomSize(a) + AtomsSize(p.pastex[1..]);
  }

  /** Nothing active and nothing left to load: nothing is pending. */
  lemma Finished<T>(p: PState, ss: Sources<T>)
    requires p.inner.None? && p.current.None? && p.pastex == []
    ensures Pending(p, ss) == Trace([], None, ss)
  {
    Outer(p, ss);
    SeqEmpty(ss, TraceAtoms(p.pastex, ss));
  }

  /**
   * `PasteIter::next` on the state `p`: the first pending item, the pending
   * error, or `None` once nothing is pending; the new state yields the rest.
   */
  method Step<T(==)>(p: PState, iters: Iters<T>) returns (x: Option<Result<T, nat>>, p': PState)
    modifies iters
    ensures Yields(Pending(p, old(iters.sources)), x, Pending(p', iters.sources), iters.sources)
    ensures Height(p') <= Height(p)
    decreases Height(p), 1
  {
    p' := p;
    while true
      invariant Height(p') <= Height(p)
      invariant Pending(p', iters.sources) == Pending(p, old(iters.sources))
      decreases |p'.pastex|, Phase(p')
    {
      // the group repetition in progress
      if p'.inner.Some? {
        x, p' := Resume(p', iters);
        if x.Some? {
          return;
        }
      }
      // the atom in progress
      if p'.current.Some? {
        x, p' := Attempt(p', iters);
        if x.Some? {
          return;
        }
      }
      // load the next atom, or finish
      if p'.inner.None? && p'.current.None? {
        if p'.pastex == [] {
          Finished(p', iters.sources);
          return None, p';
        }
        Loads(p', iters.sources);
        p' := Load(p');
      }
    }
  }

  /**
   * Runs the inner evaluator: its item or error is handed out (and the flag
   * goes up); once it is finished it is dropped.
   */
  method Resume<T(==)>(p: PState, iters: Iters<T>) returns (x: Option<Result<T, nat>>, p': PState)
    requires p.inner.Some?
    modifies iters
    ensures x.Some? ==> Yields(Pending(p, old(iters.sources)), x, Pending(p', iters.sources), iters.sources)
    ensures x.None? ==> p' == p.(inner := None) && Pending(p', iters.sources) == Pending(p, old(iters.sources))
    ensures Height(p') <= Height(p)
    decreases Height(p), 0
  {
    ghost var ss := iters.sources;
    var r, inner' := Step(p.inner.value, iters);
    if r.Some? {
      if r.value.Ok? {
        assert Pending(p.inner.value, ss) == Seq(Trace([r.value.value], None, iters.sources), Pending(inner', iters.sources));
        InnerEmits(p, inner', ss, iters.sources, r.value.value);
      } else {
        InnerFails(p, ss, r.value.error);
      }
      return r, p.(inner := Some(inner'), flag := true);
    }
    InnerDone(p, ss, iters.sources);
    return None, p.(inner := None);
  }

  /**
   * One repetition attempt on the atom in progress: a `Single` hands out
   * its source's next item or its error, a group starts its next
   * repetition, and an atom with no count left, an exhausted source or an
   * unproductive group is dropped.
   */
  method Attempt<T(==)>(p: PState, iters: Iters<T>) returns (x: Option<Result<T, nat>>, p': PState)
    requires p.inner.None? && p.current.Some?
    modifies iters
    ensures x.Some? ==> Yields(Pending(p, old(iters.sources)), x, Pending(p', iters.sources), iters.sources)
    ensures x.None? ==> && Pending(p', iters.sources) == Pending(p, old(iters.sources))
                        && p'.pastex == p.pastex && Phase(p') < Phase(p)
                        && (p'.inner.None? ==> p'.current.None?)
    ensures Height(p') <= Height(p)
  {
    var a := p.current.value;
    var (granted, q') := Next(a.q);
    if !granted {
      Exhausted(p, iters.sources);
      return None, p.(current := None);
    }
    match a.val
    case Single(i) =>
      if i < |iters.sources| {
        ghost var ss := iters.sources;
        var e := iters.Next(i);
        if e.Some? {
          SingleTrace(i, a.q, ss);
          AtomEmits(p, ss, e.value, q', iters.sources);
          return Some(Ok(e.value)), p.(current := Some(Atom(a.val, q')));
        }
        SingleExhausted(p, ss);
        return None, p.(current := None);
      } else {
        SingleMissing(p, iters.sources);
        return Some(Err(i)), p.(current := Some(Atom(a.val, q')));
      }
    case Group(g) =>
      if p.flag {
        GroupRepeats(p, iters.sources);
        assert Height(Start(g)) == AtomsSize(g);
        assert AtomSize(Atom(a.val, q')) == AtomSize(a) == AtomsSize(g) + 2;
        return None, PState(p.pastex, Some(Start(g)), false, Some(Atom(a.val, q')));
      } else {
        GroupStops(p, iters.sources);
        return None, p.(current := None);
      }
  }

  class PasteIter<T(==)> {
    var iters: Iters<T>
    var state: PState

    /** What the iterator will still yield from its sources. */
    ghost function Unyielded(): Trace<T>
      reads this, iters
    {
      Pending(state, iters.sources)
    }

    /** An evaluator over `atoms` and fresh sources: their whole trace is pending. */
    constructor (data: seq<seq<T>>, atoms: seq<Atom>)
      ensures fresh(iters) && state == Start(atoms)
      ensures Unyielded() == TraceAtoms(atoms, Fresh(data))
    {
      iters := new Iters(data);
      state := Start(atoms);
      StartPending(atoms, Fresh(data));
    }

    /** `PasteIter::from`: fails exactly when the scanner rejects the pattern; starts with nothing active. */
    static method From(data: seq<seq<T>>, pattern: string) returns (r: Option<PasteIter<T>>)
      ensures r.Some? <==> Scanner.Scan(pattern).Ok?
      ensures r.Some? ==> && fresh(r.value) && fresh(r.value.iters)
                          && r.value.state == Start(Scanner.Scan(pattern).value)
                          && r.value.Unyielded() == TraceAtoms(Scanner.Scan(pattern).value, Fresh(data))
    {
      var atoms := Scanner.ScanPattern(pattern);
      if atoms.Err? {
        return None;
      }
      var it := new PasteIter(data, atoms.value);
      r := Some(it);
    }

    /** `Iterator::next`: the next item, the error that stops the merge, or `None` when done. */
    method Next() returns (x: Option<Result<T, nat>>)
      modifies this, iters
      ensures iters == old(iters)
      ensures Yields(old(Unyielded()), x, Unyielded(), iters.sources)
    {
      var y, s := Step(state, iters);
      x, state := y, s;
    }
  }
}

