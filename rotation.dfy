/**
 * What the rotating merge of src/merges.rs promises in its documentation:
 * one item from each source in turn, in index order, until they are all
 * exhausted; a source that runs dry is passed over.  Stated independently
 * as column-by-column interleaving and proved for the rotation pattern.
 */
module RoundRobin {
  import opened Wrappers
  import opened Numerals
  import opened Quantifiers
  import opened Syntax
  import opened Streams
  import opened Semantics
  import Merges

  /** The length of the longest of the first `k` sources. */
  function Longest<T>(data: seq<seq<T>>, k: nat): (n: nat)
    requires k <= |data|
    ensures forall i :: 0 <= i < k ==> |data[i]| <= n
    ensures k > 0 ==> exists i :: 0 <= i < k && |data[i]| == n
  {
    if k == 0 then 0 else Max(Longest(data, k - 1), |data[k - 1]|)
  }

  /** Item `r` of each of the first `k` sources that has one, in source order. */
  function Column<T>(data: seq<seq<T>>, r: nat, k: nat): seq<T>
    requires k <= |data|
  {
    if k == 0 then [] else Column(data, r, k - 1) + (if r < |data[k - 1]| then [data[k - 1][r]] else [])
  }

  /** Columns `r`, `r + 1`, … up to the end of the longest source: the round-robin interleaving. */
  function Interleave<T>(data: seq<seq<T>>, r: nat): seq<T>
    decreases Longest(data, |data|) - r
  {
    if r >= Longest(data, |data|) then [] else Column(data, r, |data|) + Interleave(data, r + 1)
  }

  /**
   * The sources once the first `k` have been read in round `r` and the
   * others not yet: every source has given its first `r` items (or all it
   * had), the first `k` one more.
   */
  function During<T>(data: seq<seq<T>>, r: nat, k: nat): (ss: Sources<T>)
    ensures |ss| == |data|
  {
    seq(|data|, i requires 0 <= i < |data| => Source(data[i], Min(if i < k then r + 1 else r, |data[i]|)))
  }

  /** The sources before round `r`. */
  function Before<T>(data: seq<seq<T>>, r: nat): Sources<T>
  {
    During(data, r, 0)
  }

  /** A column has an item exactly when some source is longer than its index. */
  lemma {:induction false} ColumnEmpty<T>(data: seq<seq<T>>, r: nat, k: nat)
    requires k <= |data|
    ensures Column(data, r, k) == [] <==> r >= Longest(data, k)
  {
    if k > 0 {
      ColumnEmpty(data, r, k - 1);
    }
  }

  /** Source `j`'s turn in round `r`: its item `r` if it has one, and it moves on. */
  lemma Turn<T>(data: seq<seq<T>>, r: nat, j: nat)
    requires j < |data|
    ensures DenAtoms([Once(j)], During(data, r, j))
         == ((if r < |data[j]| then [data[j][r]] else []), During(data, r, j + 1))
  {
    var ss := During(data, r, j);
    var (x, ss1) := Pull(ss, j);
    var later := During(data, r, j + 1);
    assert ss[j].cursor == Min(r, |data[j]|);
    if r < |data[j]| {
      assert Available(ss, j);
      forall i | 0 <= i < |data|
        ensures ss1[i] == later[i]
      {
      }
      assert ss1 == later;
      assert x == Some(data[j][r]);
      assert DenVal(Single(j), ss) == ([data[j][r]], ss1);
      assert DenReps(Single(j), Finite(0), ss1) == ([], ss1);
      assert [data[j][r]] + [] == [data[j][r]];
      assert DenReps(Single(j), Finite(1), ss) == ([data[j][r]], ss1);
    } else {
      forall i | 0 <= i < |data|
        ensures ss[i] == later[i]
      {
      }
      assert later == ss;
      assert DenReps(Single(j), Finite(1), ss) == ([], ss);
    }
    OneAtom(Once(j), ss);
  }

  /** A sequence of one atom is that atom. */
  lemma OneAtom<T>(a: Atom, ss: Sources<T>)
    ensures DenAtoms([a], ss) == DenReps(a.val, a.q, ss)
  {
    var (o, ss1) := DenReps(a.val, a.q, ss);
    assert [a][1..] == [];
    assert o + [] == o;
  }

  /** One round of the rotation over `k` sources gives column `r` of them. */
  lemma {:induction false} Round<T>(data: seq<seq<T>>, r: nat, k: nat)
    requires k <= |data|
    ensures DenAtoms(Merges.Rotation(k), Before(data, r)) == (Column(data, r, k), During(data, r, k))
  {
    if k == 0 {
      assert Merges.Rotation(0) == [];
    } else {
      Round(data, r, k - 1);
      assert Merges.Rotation(k) == Merges.Rotation(k - 1) + [Once(k - 1)];
      Turn(data, r, k - 1);
      Concat(Merges.Rotation(k - 1), [Once(k - 1)], Before(data, r),
             Column(data, r, k - 1), During(data, r, k - 1),
             if r < |data[k - 1]| then [data[k - 1][r]] else [], During(data, r, k));
    }
  }

  /** Every source read to its end. */
  function Drained<T>(data: seq<seq<T>>): (ss: Sources<T>)
    ensures |ss| == |data|
  {
    seq(|data|, i requires 0 <= i < |data| => Source(data[i], |data[i]|))
  }

  /** From the end of the longest source on, every source is drained, before and during a round. */
  lemma Settled<T>(data: seq<seq<T>>, r: nat, k: nat)
    requires r >= Longest(data, |data|)
    ensures During(data, r, k) == Drained(data)
  {
    forall i | 0 <= i < |data|
      ensures During(data, r, k)[i] == Drained(data)[i]
    {
      assert |data[i]| <= Longest(data, |data|);
    }
  }

  /**
   * The rotation repeated without bound from round `r` on: the remaining
   * columns, ending when a round finds every source exhausted.
   */
  lemma {:induction false} Rounds<T>(data: seq<seq<T>>, r: nat)
    ensures DenReps(Group(Merges.Rotation(|data|)), Infinite, Before(data, r))
         == (Interleave(data, r), Drained(data))
    decreases Longest(data, |data|) - r
  {
    var k := |data|;
    Round(data, r, k);
    ColumnEmpty(data, r, k);
    if r < Longest(data, k) {
      assert During(data, r, k) == Before(data, r + 1);
      Rounds(data, r + 1);
    } else {
      Settled(data, r, k);
    }
  }

  /**
   * The rotation of every source, repeated without bound, outputs the
   * round-robin interleaving of the sources.
   */
  lemma RotationInterleaves<T>(data: seq<seq<T>>)
    ensures DenAtoms([Atom(Group(Merges.Rotation(|data|)), Infinite)], Fresh(data)) == (Interleave(data, 0), Drained(data))
  {
    forall i | 0 <= i < |data|
      ensures Before(data, 0)[i] == Fresh(data)[i]
    {
    }
    assert Before(data, 0) == Fresh(data);
    Rounds(data, 0);
    OneAtom(Atom(Group(Merges.Rotation(|data|)), Infinite), Fresh(data));
  }

  /**
   * `rot_merge_all` and `paste` over at most ten sources output their
   * round-robin interleaving.
   */
  lemma DefaultInterleaves<T>(data: seq<seq<T>>)
    requires |data| <= 10
    ensures DenAtoms(Merges.DefaultTree(|data|), Fresh(data)) == (Interleave(data, 0), Drained(data))
  {
    Merges.DefaultRotates(|data|);
    RotationInterleaves(data);
  }

  /** Item `r` of source `i`, if it has one. */
  function ItemAt<T>(data: seq<seq<T>>, i: nat, r: nat): seq<T>
    requires i < |data|
  {
    if r < |data[i]| then [data[i][r]] else []
  }

  /** A column of three sources, written out. */
  lemma ColumnOfThree<T>(data: seq<seq<T>>, r: nat)
    requires |data| == 3
    ensures Column(data, r, 3) == ItemAt(data, 0, r) + ItemAt(data, 1, r) + ItemAt(data, 2, r)
  {
    assert Column(data, r, 1) == ItemAt(data, 0, r);
  }

  /** One more column of three sources. */
  lemma ThreeStep<T>(data: seq<seq<T>>, r: nat)
    requires |data| == 3 && r < Longest(data, 3)
    ensures Interleave(data, r) == ItemAt(data, 0, r) + ItemAt(data, 1, r) + ItemAt(data, 2, r) + Interleave(data, r + 1)
  {
    ColumnOfThree(data, r);
  }

  /** The longest of "1234", "abcdefg" and "!@#" has seven items. */
  lemma ThreeLongest(data: seq<string>)
    requires data == ["1234", "abcdefg", "!@#"]
    ensures Longest(data, 3) == 7
  {
    assert Longest(data, 1) == 4;
  }

  /** The last four columns of "1234", "abcdefg" and "!@#". */
  lemma ThreeTail(data: seq<string>)
    requires data == ["1234", "abcdefg", "!@#"]
    ensures Longest(data, 3) == 7 && Interleave(data, 3) == "4defg"
  {
    ThreeLongest(data);
    assert Interleave(data, 7) == [];
    ThreeStep(data, 6);
    assert ItemAt(data, 0, 6) == [];
    assert ItemAt(data, 1, 6) == "g";
    assert ItemAt(data, 2, 6) == [];
    assert Interleave(data, 6) == "g";
    ThreeStep(data, 5);
    assert ItemAt(data, 0, 5) == [];
    assert ItemAt(data, 1, 5) == "f";
    assert ItemAt(data, 2, 5) == [];
    assert Interleave(data, 5) == "fg";
    ThreeStep(data, 4);
    assert ItemAt(data, 0, 4) == [];
    assert ItemAt(data, 1, 4) == "e";
    assert ItemAt(data, 2, 4) == [];
    assert Interleave(data, 4) == "efg";
    ThreeStep(data, 3);
    assert ItemAt(data, 0, 3) == "4";
    assert ItemAt(data, 1, 3) == "d";
    assert ItemAt(data, 2, 3) == [];
  }

  /** Interleaving "1234", "abcdefg" and "!@#", column by column. */
  lemma ThreeColumns(data: seq<string>)
    requires data == ["1234", "abcdefg", "!@#"]
    ensures Interleave(data, 0) == "1a!2b@3c#4defg"
  {
    ThreeTail(data);
    ThreeStep(data, 2);
    assert ItemAt(data, 0, 2) == "3";
    assert ItemAt(data, 1, 2) == "c";
    assert ItemAt(data, 2, 2) == "#";
    assert Interleave(data, 2) == "3c#4defg";
    ThreeStep(data, 1);
    assert ItemAt(data, 0, 1) == "2";
    assert ItemAt(data, 1, 1) == "b";
    assert ItemAt(data, 2, 1) == "@";
    assert Interleave(data, 1) == "2b@3c#4defg";
    ThreeStep(data, 0);
    assert ItemAt(data, 0, 0) == "1";
    assert ItemAt(data, 1, 0) == "a";
    assert ItemAt(data, 2, 0) == "!";
    assert Interleave(data, 0) == "1a!2b@3c#4defg";
  }

  /** The documented example: `rot_merge_all` and `paste` over "1234", "abcdefg" and "!@#". */
  lemma ThreeSourcesInterleave()
    ensures DenAtoms(Merges.DefaultTree(3), Fresh(["1234", "abcdefg", "!@#"])).0 == "1a!2b@3c#4defg"
  {
    DefaultInterleaves(["1234", "abcdefg", "!@#"]);
    ThreeColumns(["1234", "abcdefg", "!@#"]);
  }
}
