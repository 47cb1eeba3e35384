/**
 * The sources a pattern merges: finite sequences, each with a cursor
 * marking how much of it has been consumed (the `Vec<T>` of iterators the
 * evaluators of the crate receive by mutable reference).
 */
module Streams {
  import opened Wrappers

  datatype Source<T> = Source(items: seq<T>, cursor: nat)

  type Sources<T> = seq<Source<T>>

  /** Sources that have not been read from yet. */
  function Fresh<T>(data: seq<seq<T>>): (ss: Sources<T>)
    ensures |ss| == |data|
    ensures forall i :: 0 <= i < |ss| ==> ss[i] == Source(data[i], 0)
  {
    seq(|data|, i requires 0 <= i < |data| => Source(data[i], 0))
  }

  /** Number of items a source has left. */
  function Left<T>(s: Source<T>): nat
  {
    if s.cursor <= |s.items| then |s.items| - s.cursor else 0
  }

  /** Number of items all sources have left. */
  function Remaining<T>(ss: Sources<T>): nat
  {
    if ss == [] then 0 else Left(ss[0]) + Remaining(ss[1..])
  }

  /** Source `i` exists and still has an item. */
  predicate Available<T>(ss: Sources<T>, i: nat)
  {
    i < |ss| && ss[i].cursor < |ss[i].items|
  }

  /** `iters.get_mut(i)` followed by `next()`: the next item of source `i`, if there is one. */
  function Pull<T(==)>(ss: Sources<T>, i: nat): (r: (Option<T>, Sources<T>))
    ensures Available(ss, i) ==> r.0 == Some(ss[i].items[ss[i].cursor])
    ensures !Available(ss, i) ==> r.0 == None && r.1 == ss
    ensures Advances(ss, r.1) && Remaining(r.1) + (if r.0.Some? then 1 else 0) == Remaining(ss)
    ensures Consumed(ss, r.1) == (if r.0.Some? then multiset{r.0.value} else multiset{})
  {
    if Available(ss, i) then
      var s := ss[i];
      PullOne(ss, i);
      (Some(s.items[s.cursor]), ss[i := s.(cursor := s.cursor + 1)])
    else
      NothingConsumed(ss);
      (None, ss)
  }

  /**
   * `later` is `ss` with some cursors moved forward over items: same
   * sources, same items, nothing un-read.
   */
  predicate Advances<T(==)>(ss: Sources<T>, later: Sources<T>)
  {
    && |later| == |ss|
    && forall i :: 0 <= i < |ss| ==> Forward(ss[i], later[i])
  }

  predicate Forward<T(==)>(s: Source<T>, later: Source<T>)
  {
    && later.items == s.items
    && s.cursor <= later.cursor
    && (later.cursor == s.cursor || later.cursor <= |s.items|)
  }

  /** The items consumed from each source between `ss` and `later`, in source order. */
  function Consumed<T>(ss: Sources<T>, later: Sources<T>): multiset<T>
    requires |later| == |ss|
  {
    if ss == [] then multiset{}
    else multiset(Segment(ss[0], later[0])) + Consumed(ss[1..], later[1..])
  }

  /** The items of one source between two cursor positions. */
  function Segment<T>(s: Source<T>, later: Source<T>): seq<T>
  {
    if s.cursor <= later.cursor <= |s.items| then s.items[s.cursor..later.cursor] else []
  }

    lemma AdvancesTrans<T>(a: Sources<T>, b: Sources<T>, c: Sources<T>)
    requires Advances(a, b) && Advances(b, c)
    ensures Advances(a, c)
  {
    assert forall i :: 0 <= i < |a| ==> Forward(a[i], b[i]) && Forward(b[i], c[i]);
  }

  /** Moving one cursor by one consumes exactly one item. */
  lemma {:induction false} PullOne<T>(ss: Sources<T>, i: nat)
    requires Available(ss, i)
    ensures Remaining(ss[i := ss[i].(cursor := ss[i].cursor + 1)]) + 1 == Remaining(ss)
    ensures Consumed(ss, ss[i := ss[i].(cursor := ss[i].cursor + 1)]) == multiset{ss[i].items[ss[i].cursor]}
  {
    var later := ss[i := ss[i].(cursor := ss[i].cursor + 1)];
    if i == 0 {
      assert later[1..] == ss[1..];
      NothingConsumed(ss[1..]);
      var s := ss[0];
      assert Segment(s, later[0]) == [s.items[s.cursor]];
    } else {
      assert later[1..] == ss[1..][i - 1 := ss[i].(cursor := ss[i].cursor + 1)];
      PullOne(ss[1..], i - 1);
      assert Segment(ss[0], later[0]) == [];
    }
  }

  /** Nothing is consumed between a state and itself. */
  lemma {:induction false} NothingConsumed<T>(ss: Sources<T>)
    ensures Consumed(ss, ss) == multiset{}
  {
    if ss != [] {
      assert Segment(ss[0], ss[0]) == [];
      NothingConsumed(ss[1..]);
    }
  }

  lemma SegmentTrans<T>(x: Source<T>, y: Source<T>, z: Source<T>)
    requires Forward(x, y) && Forward(y, z)
    ensures multiset(Segment(x, z)) == multiset(Segment(x, y)) + multiset(Segment(y, z))
  {
    if y.cursor <= |x.items| && z.cursor <= |x.items| {
      assert x.items[x.cursor..z.cursor] == x.items[x.cursor..y.cursor] + x.items[y.cursor..z.cursor];
    }
  }

  /** What is consumed over two stretches of reading is what each consumed. */
  lemma {:induction false} ConsumedTrans<T>(a: Sources<T>, b: Sources<T>, c: Sources<T>)
    requires Advances(a, b) && Advances(b, c)
    ensures Consumed(a, c) == Consumed(a, b) + Consumed(b, c)
  {
    if a != [] {
      SegmentTrans(a[0], b[0], c[0]);
      ConsumedTrans(a[1..], b[1..], c[1..]);
    }
  }

  /**
   * The sources an evaluator reads, as one mutable object (`&mut Vec<T>` of
   * iterators in the crate, shared down the recursion).
   */
  class Iters<T(==)> {
    var sources: Sources<T>

    constructor (data: seq<seq<T>>)
      ensures sources == Fresh(data)
    {
      sources := Fresh(data);
    }

    /** `iters.get_mut(i)` and `next()`: `None`, and no change, if source `i` is missing or exhausted. */
    method Next(i: nat) returns (x: Option<T>)
      modifies this
      ensures (x, sources) == Pull(old(sources), i)
      ensures Available(old(sources), i) <==> x.Some?
      ensures x.Some? ==> x.value == old(sources)[i].items[old(sources)[i].cursor]
    {
      if i < |sources| && sources[i].cursor < |sources[i].items| {
        var s := sources[i];
        x := Some(s.items[s.cursor]);
        sources := sources[i := s.(cursor := s.cursor + 1)];
      } else {
        x := None;
      }
    }
  }
}
