/**
 * The lazy evaluator built from composed iterators (src/expression/imex.rs,
 * quantified_imex_val.rs, imex_val.rs and utils.rs).  Each `iterate` call
 * returns one item, or `None` once the node has nothing more to give.
 *
 * The iterator states are values here: a node's state is owned by its parent
 * (boxed in the crate), so a call takes the state and returns the next one.
 * The sources are the one object they all share.
 *
 * The pending output of a state, `Pend*`, is defined from the reference
 * semantics.  Each `iterate` method is proved to emit the first pending item
 * and leave the rest pending, or to emit nothing exactly when nothing is
 * pending.
 */
module Lazy {
  import opened Wrappers
  import opened Quantifiers
  import opened Syntax
  import opened Streams
  import opened Semantics

  /** `IMExVal`: a `Single` holds its index until it is used once (`Once<usize>`); a group holds its inner `IMEx`. */
  datatype LVal = LSingle(once: Option<nat>) | LGroup(imex: LImex)

  /** `IMExIterCounter<IMExVal>`: a value being iterated, and how many items it has given. */
  datatype LCounter = LCounter(iter: LVal, counter: nat)

  /** `QuantifiedIMExVal`: the parsed value, the count left, and the repetition in progress. */
  datatype LAtom = LAtom(val: Val, q: Quantifier, current: Option<LCounter>)

  /** `IMEx`: the atoms not yet started (an `IntoIter`), and the active one. */
  datatype LImex = LImex(vals: seq<Atom>, current: Option<LAtom>)

  /** A value as parsed, before any iteration (the clone `repeat` installs). */
  function FreshVal(v: Val): (r: LVal)
    ensures HVal(r) == ValSize(v)
  {
    match v
    case Single(i) => LSingle(Some(i))
    case Group(atoms) => LGroup(LImex(atoms, None))
  }

  /** `QuantifiedIMExVal::new`: no repetition in progress. */
  function NewAtom(v: Val, q: Quantifier): LAtom
  {
    LAtom(v, q, None)
  }

  /** `IMEx::new`: no active atom. */
  function NewImex(atoms: seq<Atom>): LImex
  {
    LImex(atoms, None)
  }

  /*
   * Heights: a bound on the syntax a state can still expand into.  They
   * never grow while iterating and give the termination measure of the
   * mutually recursive `iterate` methods.
   */

  function HVal(v: LVal): nat
    decreases v
  {
    match v
    case LSingle(_) => 1
    case LGroup(m) => 1 + HImex(m)
  }

  function HCounter(c: LCounter): nat
    decreases c
  {
    HVal(c.iter)
  }

  function HAtom(a: LAtom): nat
    decreases a
  {
    if a.current.Some? && HCounter(a.current.value) > ValSize(a.val) then HCounter(a.current.value) else ValSize(a.val)
  }

  function HImex(m: LImex): nat
    decreases m
  {
    AtomsSize(m.vals) + (if m.current.Some? then HAtom(m.current.value) else 0)
  }

  /*
   * Pending output: the items a state will still return, from sources `ss`,
   * before it first returns `None`, and the sources at that point.
   */

  function PendVal<T(==)>(v: LVal, ss: Sources<T>): (seq<T>, Sources<T>)
    decreases v
  {
    match v
    case LSingle(None) => ([], ss)
    case LSingle(Some(i)) => DenVal(Single(i), ss)
    case LGroup(m) => PendImex(m, ss)
  }

  /**
   * The repetition in progress runs out; another starts only if it gave
   * at least one item in total (early termination), under the count left.
   */
  function PendAtom<T(==)>(a: LAtom, ss: Sources<T>): (seq<T>, Sources<T>)
    decreases a
  {
    match a.current
    case None => DenReps(a.val, a.q, ss)
    case Some(c) =>
      var (o, ss1) := PendVal(c.iter, ss);
      if c.counter + |o| > 0 then
        var (o', ss2) := DenReps(a.val, a.q, ss1);
        (o + o', ss2)
      else (o, ss1)
  }

  function PendImex<T(==)>(m: LImex, ss: Sources<T>): (seq<T>, Sources<T>)
    decreases m
  {
    var (o, ss1) := if m.current.Some? then PendAtom(m.current.value, ss) else ([], ss);
    var (o', ss2) := DenAtoms(m.vals, ss1);
    (o + o', ss2)
  }

  /**
   * One `iterate` call that returned `x` and left the sources as `ss`:
   * `before` (pending before the call) is `x` followed by `after`
   * (pending after it); a `None` means nothing was pending, and nothing is.
   */
  ghost predicate Steps<T>(before: (seq<T>, Sources<T>), x: Option<T>, after: (seq<T>, Sources<T>), ss: Sources<T>)
  {
    match x
    case Some(y) => before == ([y] + after.0, after.1)
    case None => before == ([], ss) && after == ([], ss)
  }

  /** `QuantifiedIMExVal::repeat`: takes one repetition from the count and installs a fresh clone of the value. */
  function RepeatAtom(a: LAtom): (r: (bool, LAtom))
    ensures r.0 <==> a.q != Finite(0)
    ensures r.1.val == a.val && r.1.q == Next(a.q).1
    ensures r.0 ==> r.1.current == Some(LCounter(FreshVal(a.val), 0))
    ensures !r.0 ==> r.1 == a
  {
    var (granted, q') := Next(a.q);
    if granted then (true, LAtom(a.val, q', Some(LCounter(FreshVal(a.val), 0)))) else (false, a)
  }

  /**
   * `IMExVal::iterate`: a `Single` gives the next item of its source the
   * first time and nothing after that (nothing at all if there is no such
   * source); a group delegates to its inner `IMEx`.
   */
  method IterateVal<T(==)>(v: LVal, iters: Iters<T>) returns (x: Option<T>, v': LVal)
    modifies iters
    ensures Steps(PendVal(v, old(iters.sources)), x, PendVal(v', iters.sources), iters.sources)
    ensures HVal(v') <= HVal(v)
    decreases HVal(v), 0
  {
    match v
    case LSingle(once) =>
      if once.Some? {
        x := iters.Next(once.value);
        if x.Some? {
          assert [x.value] + [] == [x.value];
        }
      } else {
        x := None;
      }
      v' := LSingle(None);
    case LGroup(m) =>
      var m';
      x, m' := IterateImex(m, iters);
      v' := LGroup(m');
  }

  /** `IMExIterCounter::iterate`: passes the item on and counts it. */
  method IterateCounter<T(==)>(c: LCounter, iters: Iters<T>) returns (x: Option<T>, c': LCounter)
    modifies iters
    ensures Steps(PendVal(c.iter, old(iters.sources)), x, PendVal(c'.iter, iters.sources), iters.sources)
    ensures c'.counter == c.counter + (if x.Some? then 1 else 0)
    ensures HCounter(c') <= HCounter(c)
    decreases HCounter(c), 1
  {
    var v';
    x, v' := IterateVal(c.iter, iters);
    c' := LCounter(v', if x.Some? then c.counter + 1 else c.counter);
  }

  /**
   * `QuantifiedIMExVal::iterate`: the item of the repetition in progress;
   * when it runs out, a new repetition if it gave anything and the count
   * allows one, otherwise `None`.
   */
  method IterateAtom<T(==)>(a: LAtom, iters: Iters<T>) returns (x: Option<T>, a': LAtom)
    modifies iters
    ensures Steps(PendAtom(a, old(iters.sources)), x, PendAtom(a', iters.sources), iters.sources)
    ensures a'.val == a.val && HAtom(a') <= HAtom(a)
    decreases HAtom(a), 2
  {
    a' := a;
    while true
      invariant a'.val == a.val && HAtom(a') <= HAtom(a)
      invariant PendAtom(a', iters.sources) == PendAtom(a, old(iters.sources))
      decreases if a'.current.None? || a'.current.value.counter > 0 then 1 else 0
    {
      ghost var before := iters.sources;
      if a'.current.Some? {
        var c := a'.current.value;
        var y, c' := IterateCounter(c, iters);
        if y.Some? {
          CounterEmits(a', c', before, iters.sources, y.value);
          return y, a'.(current := Some(c'));
        }
        CounterSilent(a', c', before, iters.sources);
        a' := a'.(current := Some(c'));
        if c'.counter == 0 {
          return None, a';
        }
      }
      Repeated(a', iters.sources);
      var granted := RepeatAtom(a').0;
      a' := RepeatAtom(a').1;
      if !granted {
        return None, a';
      }
    }
  }

  /**
   * `IMEx::iterate`: the item of the active atom; when it runs out, the
   * next atom becomes active; `None` once every atom has run out.
   */
  method IterateImex<T(==)>(m: LImex, iters: Iters<T>) returns (x: Option<T>, m': LImex)
    modifies iters
    ensures Steps(PendImex(m, old(iters.sources)), x, PendImex(m', iters.sources), iters.sources)
    ensures HImex(m') <= HImex(m)
    ensures x.None? ==> m' == LImex([], None)
    decreases HImex(m), 3
  {
    m' := m;
    while true
      invariant HImex(m') <= HImex(m)
      invariant PendImex(m', iters.sources) == PendImex(m, old(iters.sources))
      decreases 2 * |m'.vals| + (if m'.current.Some? then 1 else 0)
    {
      ghost var before := iters.sources;
      if m'.current.Some? {
        var y, a' := IterateAtom(m'.current.value, iters);
        if y.Some? {
          ActiveEmits(m', a', before, iters.sources, y.value);
          return y, m'.(current := Some(a'));
        }
        ActiveSilent(m', before, iters.sources);
        m' := m'.(current := None);
      } else {
        if m'.vals == [] {
          Finished(iters.sources);
          return None, m';
        }
        Loaded(m'.vals, iters.sources);
        m' := LImex(m'.vals[1..], Some(NewAtom(m'.vals[0].val, m'.vals[0].q)));
      }
    }
  }

  /** A new `IMEx` has the whole output of its atoms pending. */
  lemma NewImexPending<T>(atoms: seq<Atom>, ss: Sources<T>)
    ensures PendImex(NewImex(atoms), ss) == DenAtoms(atoms, ss)
  {
    assert [] + DenAtoms(atoms, ss).0 == DenAtoms(atoms, ss).0;
  }

  /** A fresh clone of a value has the value's whole output pending. */
  lemma PendFresh<T>(v: Val, ss: Sources<T>)
    ensures PendVal(FreshVal(v), ss) == DenVal(v, ss)
  {
    if v.Group? {
      NewImexPending(v.atoms, ss);
    }
  }

  /**
   * After a repetition ran out (or before the first one), `repeat` leaves
   * the same output pending; when the count is used up, nothing is.
   */
  lemma Repeated<T>(a: LAtom, ss: Sources<T>)
    requires a.current.Some? ==> a.current.value.counter > 0 && PendVal(a.current.value.iter, ss) == ([], ss)
    ensures PendAtom(RepeatAtom(a).1, ss) == PendAtom(a, ss)
    ensures !RepeatAtom(a).0 ==> PendAtom(a, ss) == ([], ss)
  {
    var (granted, a') := RepeatAtom(a);
    if a.current.Some? {
      assert PendAtom(a, ss) == ([] + DenReps(a.val, a.q, ss).0, DenReps(a.val, a.q, ss).1);
      assert [] + DenReps(a.val, a.q, ss).0 == DenReps(a.val, a.q, ss).0;
    }
    if granted {
      PendFresh(a.val, ss);
    }
  }

  /** The repetition in progress gave `y`: so does the atom. */
  lemma CounterEmits<T>(a: LAtom, c': LCounter, ss: Sources<T>, ss': Sources<T>, y: T)
    requires a.current.Some? && c'.counter == a.current.value.counter + 1
    requires PendVal(a.current.value.iter, ss) == ([y] + PendVal(c'.iter, ss').0, PendVal(c'.iter, ss').1)
    ensures var after := PendAtom(a.(current := Some(c')), ss');
            PendAtom(a, ss) == ([y] + after.0, after.1)
  {
    var c := a.current.value;
    var (o, ss1) := PendVal(c'.iter, ss');
    var (o', ss2) := DenReps(a.val, a.q, ss1);
    assert c.counter + |[y] + o| > 0 && c'.counter + |o| > 0;
    assert PendAtom(a, ss) == (([y] + o) + o', ss2);
    assert PendAtom(a.(current := Some(c')), ss') == (o + o', ss2);
    assert [y] + o + o' == [y] + (o + o');
  }

  /** The repetition in progress ran out: the same output is pending, whether it continues or not. */
  lemma CounterSilent<T>(a: LAtom, c': LCounter, ss: Sources<T>, ss': Sources<T>)
    requires a.current.Some? && c'.counter == a.current.value.counter
    requires PendVal(a.current.value.iter, ss) == ([], ss') && PendVal(c'.iter, ss') == ([], ss')
    ensures PendAtom(a, ss) == PendAtom(a.(current := Some(c')), ss')
    ensures c'.counter == 0 ==> PendAtom(a, ss) == ([], ss')
  {
  }

  /** The active atom gave `y`: so does the `IMEx`. */
  lemma ActiveEmits<T>(m: LImex, a': LAtom, ss: Sources<T>, ss': Sources<T>, y: T)
    requires m.current.Some?
    requires PendAtom(m.current.value, ss) == ([y] + PendAtom(a', ss').0, PendAtom(a', ss').1)
    ensures var after := PendImex(m.(current := Some(a')), ss');
            PendImex(m, ss) == ([y] + after.0, after.1)
  {
    var (o, ss1) := PendAtom(a', ss');
    var (o', ss2) := DenAtoms(m.vals, ss1);
    assert [y] + o + o' == [y] + (o + o');
  }

  /** The active atom ran out: dropping it leaves the same output pending. */
  lemma ActiveSilent<T>(m: LImex, ss: Sources<T>, ss': Sources<T>)
    requires m.current.Some? && PendAtom(m.current.value, ss) == ([], ss')
    ensures PendImex(m, ss) == PendImex(m.(current := None), ss')
  {
  }

  /** With no atom left, nothing is pending. */
  lemma Finished<T>(ss: Sources<T>)
    ensures PendImex(LImex([], None), ss) == ([], ss)
  {
    var none: seq<T> := [];
    assert none + none == none;
  }

  /** Making the next atom active leaves the same output pending. */
  lemma Loaded<T>(vals: seq<Atom>, ss: Sources<T>)
    requires vals != []
    ensures PendImex(LImex(vals[1..], Some(NewAtom(vals[0].val, vals[0].q))), ss) == PendImex(LImex(vals, None), ss)
    ensures HImex(LImex(vals[1..], Some(NewAtom(vals[0].val, vals[0].q)))) <= HImex(LImex(vals, None))
  {
    var (o, ss1) := DenReps(vals[0].val, vals[0].q, ss);
    var (o', ss2) := DenAtoms(vals[1..], ss1);
    assert [] + (o + o') == o + o';
    assert AtomsSize(vals) == AtomSize(vals[0]) + AtomsSize(vals[1..]);
  }
}
