/**
 * `IMExIter` (src/iter.rs): the lazy merge as an iterator.  It owns the
 * sources and the `IMEx` state; each `next` is one `iterate` call.
 */
module Iter {
  import opened Wrappers
  import opened Syntax
  import opened Streams
  import opened Semantics
  import opened Grammar
  import opened Lazy

  class IMExIter<T(==)> {
    var iters: Iters<T>
    var imex: LImex

    /** What the iterator will still yield, and the sources once it has. */
    ghost function Pending(): (seq<T>, Sources<T>)
      reads this, iters
    {
      PendImex(imex, iters.sources)
    }

    /** An iterator over the parsed atoms `atoms` and fresh sources: all of their merge is pending. */
    constructor (data: seq<seq<T>>, atoms: seq<Atom>)
      ensures fresh(iters) && imex == NewImex(atoms)
      ensures Pending() == DenAtoms(atoms, Fresh(data))
    {
      iters := new Iters(data);
      imex := NewImex(atoms);
      NewImexPending(atoms, Fresh(data));
    }

    /** `IMExIter::new`: fails exactly when the pattern does not parse (`IMEx::try_from`). */
    static method New(data: seq<seq<T>>, pattern: string) returns (r: Option<IMExIter<T>>)
      ensures r.Some? <==> ParseImex(pattern).Some?
      ensures r.Some? ==> && fresh(r.value) && fresh(r.value.iters)
                          && r.value.Pending() == DenAtoms(ParseImex(pattern).value.0, Fresh(data))
    {
      var parsed := ParseImex(pattern);
      if parsed.None? {
        return None;
      }
      var it := new IMExIter(data, parsed.value.0);
      r := Some(it);
    }

    /** `Iterator::next`: the first pending item, or `None` (for good) when nothing is pending. */
    method Next() returns (x: Option<T>)
      modifies this, iters
      ensures iters == old(iters)
      ensures Steps(old(Pending()), x, Pending(), iters.sources)
    {
      var y, m := IterateImex(imex, iters);
      x, imex := y, m;
    }

    /** `collect()`: every item, in order, up to the first `None`. */
    method Collect() returns (out: seq<T>)
      modifies this, iters
      ensures iters == old(iters)
      ensures (out, iters.sources) == old(Pending())
    {
      out := [];
      assert [] + Pending().0 == Pending().0;
      while true
        invariant iters == old(iters)
        invariant old(Pending()) == (out + Pending().0, Pending().1)
        decreases |Pending().0|
      {
        var x := Next();
        if x.None? {
          assert out + [] == out;
          return;
        }
        assert out + ([x.value] + Pending().0) == (out + [x.value]) + Pending().0;
        out := out + [x.value];
      }
    }
  }

  /** With every source empty, or none at all, the merge is empty whatever the pattern. */
  lemma NothingToMerge<T>(atoms: seq<Atom>, ss: Sources<T>)
    requires forall i :: 0 <= i < |ss| ==> Left(ss[i]) == 0
    ensures DenAtoms(atoms, ss) == ([], ss)
  {
    NoneLeft(ss);
    AtomsConsume(atoms, ss);
    var (o, ss') := DenAtoms(atoms, ss);
    NothingMoved(ss, ss');
  }

  lemma {:induction false} NoneLeft<T>(ss: Sources<T>)
    requires forall i :: 0 <= i < |ss| ==> Left(ss[i]) == 0
    ensures Remaining(ss) == 0
  {
    if ss != [] {
      NoneLeft(ss[1..]);
    }
  }

  /** Sources with nothing left cannot advance. */
  lemma NothingMoved<T>(ss: Sources<T>, later: Sources<T>)
    requires forall i :: 0 <= i < |ss| ==> Left(ss[i]) == 0
    requires Advances(ss, later)
    ensures later == ss
  {
    forall i | 0 <= i < |ss|
      ensures later[i] == ss[i]
    {
      assert Forward(ss[i], later[i]);
    }
  }
}
