/**
 * The merge entry points of src/merges.rs (`IMExMerges`, on the lazy
 * iterator) and the default pattern they synthesise: `(0 1 … k-1)*` with one
 * digit string per source, which src/pastes.rs builds the same way.
 */
module Merges {
  import opened Wrappers
  import opened Quantifiers
  import opened Numerals
  import opened Syntax
  import opened Streams
  import opened Semantics
  import opened Scanner
  import opened ScannerProperties
  import opened Grammar
  import opened GrammarProperties
  import opened Iter

  /** `(iters.len() + 1) as u8`: the number of sources, truncated to eight bits. */
  function SourceCount(others: nat): (k: nat)
    ensures k < 256
    ensures others < 255 ==> k == others + 1
  {
    (others + 1) % 256
  }

  /** `(j..k).map(|x| format!("{}", x)).collect::<String>()`. */
  function Counting(j: nat, k: nat): (s: string)
    ensures AllDigits(s)
    decreases k - j
  {
    if j >= k then "" else Decimal(j) + Counting(j + 1, k)
  }

  /** `format!("({})*", …)`: the default pattern for `k` sources. */
  function DefaultPattern(k: nat): string
  {
    "(" + Counting(0, k) + ")*"
  }

  /** The atoms a string of digits reads as: one single atom per digit, in order. */
  function DigitAtoms(s: string): (atoms: seq<Atom>)
    requires AllDigits(s)
    ensures |atoms| == |s|
    ensures forall k :: 0 <= k < |s| ==> atoms[k] == Once(DigitValue(s[k]))
  {
    if s == [] then [] else [Once(DigitValue(s[0]))] + DigitAtoms(s[1..])
  }

  /** The merge tree the default pattern denotes: its digits, repeated without bound. */
  function DefaultTree(k: nat): seq<Atom>
  {
    [Atom(Group(DigitAtoms(Counting(0, k))), Infinite)]
  }

  /** The intended rotation: every source once, in index order. */
  function Rotation(k: nat): (atoms: seq<Atom>)
    ensures |atoms| == k
    ensures forall i :: 0 <= i < k ==> atoms[i] == Once(i)
  {
    seq(k, i requires 0 <= i < k => Once(i))
  }

  /** A string of digits is the printed form of its atoms, which have no braces. */
  lemma {:induction false} DigitAtomsPrint(s: string)
    requires AllDigits(s)
    ensures Printable(DigitAtoms(s)) && OneBracePerLevel(DigitAtoms(s))
    ensures Print(DigitAtoms(s)) == s
  {
    if s != [] {
      var atoms := DigitAtoms(s);
      DigitAtomsPrint(s[1..]);
      assert atoms[1..] == DigitAtoms(s[1..]);
      assert !HasBrace(atoms[1..]) by {
        NoBraces(atoms[1..]);
      }
      assert PrintAtom(atoms[0]) == [s[0]];
      assert s == [s[0]] + s[1..];
    }
  }

  lemma {:induction false} NoBraces(atoms: seq<Atom>)
    requires forall k :: 0 <= k < |atoms| ==> atoms[k].q == Finite(1)
    ensures !HasBrace(atoms)
  {
    if atoms != [] {
      NoBraces(atoms[1..]);
    }
  }

  /** The default pattern is the printed form of the default tree, for every source count. */
  lemma DefaultPrinted(k: nat)
    ensures Printable(DefaultTree(k)) && OneBracePerLevel(DefaultTree(k))
    ensures Print(DefaultTree(k)) == DefaultPattern(k)
  {
    var s := Counting(0, k);
    var t := DefaultTree(k);
    DigitAtomsPrint(s);
    assert t[1..] == [];
    assert PrintAtom(t[0]) == "(" + s + ")" + "*";
    assert Print(t) == PrintAtom(t[0]) + "";
  }

  /** Both parsers read the default pattern as the default tree: it never fails to parse. */
  lemma DefaultParses(k: nat)
    ensures ParseImex(DefaultPattern(k)) == Some((DefaultTree(k), []))
    ensures Scan(DefaultPattern(k)) == Ok(DefaultTree(k))
  {
    DefaultPrinted(k);
    GrammarRoundTrip(DefaultTree(k));
    ScanPrintRoundTrip(DefaultTree(k));
  }

  lemma {:induction false} DigitAtomsAppend(a: string, b: string)
    requires AllDigits(a) && AllDigits(b)
    ensures AllDigits(a + b) && DigitAtoms(a + b) == DigitAtoms(a) + DigitAtoms(b)
  {
    assert AllDigits(a + b) by {
      forall k | 0 <= k < |a + b|
        ensures IsDigit((a + b)[k])
      {
        if k >= |a| {
          assert (a + b)[k] == b[k - |a|];
        }
      }
    }
  }

  /** Every digit of `Counting(j, k)` names one of the first `k` sources. */
  lemma {:induction false} CountingBelow(j: nat, k: nat)
    ensures forall m :: 0 <= m < |Counting(j, k)| ==> DigitValue(Counting(j, k)[m]) < k
    decreases k - j
  {
    if j < k {
      CountingBelow(j + 1, k);
      var d, rest := Decimal(j), Counting(j + 1, k);
      if j < 10 {
        assert d == [DigitChar(j)];
      }
      forall m | 0 <= m < |d + rest|
        ensures DigitValue((d + rest)[m]) < k
      {
        if m >= |d| {
          assert (d + rest)[m] == rest[m - |d|];
        }
      }
    }
  }

  lemma {:induction false} DigitAtomsInRange(s: string, n: nat)
    requires AllDigits(s)
    requires forall m :: 0 <= m < |s| ==> DigitValue(s[m]) < n
    ensures AtomsInRange(DigitAtoms(s), n)
  {
    if s != [] {
      DigitAtomsInRange(s[1..], n);
      assert DigitAtoms(s)[1..] == DigitAtoms(s[1..]);
    }
  }

  /**
   * The default pattern only names sources that exist: every digit it reads
   * is below `k`, and `k` (truncated or not) is at most the number of sources.
   */
  lemma DefaultInRange(k: nat, n: nat)
    requires k <= n
    ensures AtomsInRange(DefaultTree(k), n)
  {
    CountingBelow(0, k);
    DigitAtomsInRange(Counting(0, k), n);
    assert DefaultTree(k)[1..] == [];
  }

  /** With at most ten sources every index is one digit, and the default tree is the rotation. */
  lemma {:induction false} CountingRotates(j: nat, k: nat)
    requires j <= k <= 10
    ensures DigitAtoms(Counting(j, k)) == seq(k - j, i requires 0 <= i < k - j => Once(j + i))
    decreases k - j
  {
    if j < k {
      CountingRotates(j + 1, k);
      DigitAtomsAppend(Decimal(j), Counting(j + 1, k));
      assert DigitAtoms(Decimal(j)) == [Once(j)];
    }
  }

  /** With at most ten sources, the default tree is the rotation of all of them. */
  lemma DefaultRotates(k: nat)
    requires k <= 10
    ensures DefaultTree(k) == [Atom(Group(Rotation(k)), Infinite)]
  {
    CountingRotates(0, k);
    assert seq(k - 0, i requires 0 <= i < k - 0 => Once(0 + i)) == Rotation(k);
  }

  /**
   * With eleven sources the numeral `10` is read as the digits 1 and 0:
   * the pattern reads sources 1 and 0 twice per round and never reads
   * source 10.
   */
  lemma ElevenSourcesSkipLast()
    ensures DefaultTree(11) == [Atom(Group(Rotation(10) + [Once(1), Once(0)]), Infinite)]
    ensures forall a :: a in DefaultTree(11)[0].val.atoms ==> a.val != Single(10)
  {
    ElevenDigits();
    ElevenAtoms();
    var atoms := Rotation(10) + [Once(1), Once(0)];
    forall a | a in atoms
      ensures a.val != Single(10)
    {
      var n :| 0 <= n < |atoms| && atoms[n] == a;
      if n >= 10 {
        assert a == [Once(1), Once(0)][n - 10];
      }
    }
  }

  /** The digits of `0…9` then `10` read as the rotation of ten sources, then sources 1 and 0. */
  lemma ElevenAtoms()
    ensures AllDigits(Counting(0, 10) + "10")
    ensures DigitAtoms(Counting(0, 10) + "10") == Rotation(10) + [Once(1), Once(0)]
  {
    RotationThenTen(10);
  }

  lemma RotationThenTen(k: nat)
    requires k <= 10
    ensures AllDigits(Counting(0, k) + "10")
    ensures DigitAtoms(Counting(0, k) + "10") == Rotation(k) + [Once(1), Once(0)]
  {
    var front := Counting(0, k);
    CountingRotates(0, k);
    assert DigitAtoms(front) == Rotation(k);
    DigitAtomsAppend(front, "10");
    assert DigitAtoms("10") == [Once(1), Once(0)];
  }

  lemma ElevenDigits()
    ensures Counting(0, 11) == Counting(0, 10) + "10"
  {
    CountingSplit(0, 10, 11);
    assert Decimal(10) == "10";
    assert Counting(10, 11) == "10" + "";
  }

  lemma {:induction false} CountingSplit(i: nat, j: nat, k: nat)
    requires i <= j <= k
    ensures Counting(i, k) == Counting(i, j) + Counting(j, k)
    decreases j - i
  {
    if i < j {
      CountingSplit(i + 1, j, k);
    }
  }

  /**
   * One round of the rotation over sources that each have an item: the
   * item under each cursor, in source order; every source moves on by one.
   */
  lemma {:induction false} RoundTakesEach<T>(k: nat, ss: Sources<T>)
    requires k <= |ss|
    requires forall i :: 0 <= i < k ==> Available(ss, i)
    ensures DenAtoms(Rotation(k), ss) == (Heads(ss, k), Moved(ss, k))
  {
    if k > 0 {
      RoundTakesEach(k - 1, ss);
      assert Rotation(k) == Rotation(k - 1) + [Once(k - 1)];
      Split(Rotation(k - 1), [Once(k - 1)], ss);
      MoveOne(ss, k - 1);
      LastOnce(k - 1, Moved(ss, k - 1));
    } else {
      assert Rotation(0) == [];
      assert Moved(ss, 0) == ss;
    }
  }

  /** The items under the cursors of sources `0 .. k-1`. */
  function Heads<T>(ss: Sources<T>, k: nat): (r: seq<T>)
    requires k <= |ss|
    requires forall i :: 0 <= i < k ==> Available(ss, i)
    ensures |r| == k
    ensures forall i :: 0 <= i < k ==> Available(ss, i) && r[i] == ss[i].items[ss[i].cursor]
  {
    if k == 0 then []
    else
      assert Available(ss, k - 1);
      Heads(ss, k - 1) + [ss[k - 1].items[ss[k - 1].cursor]]
  }

  /** `ss` with the cursors of sources `0 .. k-1` moved on by one. */
  function Moved<T>(ss: Sources<T>, k: nat): (r: Sources<T>)
    ensures |r| == |ss|
  {
    seq(|ss|, i requires 0 <= i < |ss| => if i < k then ss[i].(cursor := ss[i].cursor + 1) else ss[i])
  }

  lemma MoveOne<T>(ss: Sources<T>, j: nat)
    requires j < |ss| && Available(ss, j)
    ensures Pull(Moved(ss, j), j) == (Some(ss[j].items[ss[j].cursor]), Moved(ss, j + 1))
  {
    var m := Moved(ss, j);
    assert m[j] == ss[j];
    assert m[j := m[j].(cursor := m[j].cursor + 1)] == Moved(ss, j + 1);
  }

  lemma LastOnce<T>(j: nat, ss: Sources<T>)
    requires Pull(ss, j).0.Some?
    ensures DenAtoms([Once(j)], ss) == ([Pull(ss, j).0.value], Pull(ss, j).1)
  {
    var (y, ss1) := Pull(ss, j);
    assert DenReps(Single(j), Finite(0), ss1) == ([], ss1);
    assert [y.value] + [] == [y.value];
    assert DenVal(Single(j), ss) == ([y.value], ss1);
    assert DenReps(Single(j), Finite(1), ss) == ([y.value], ss1);
    assert [Once(j)][1..] == [];
  }

  /** The `&mut Vec<T>` of further sources a merge is handed, and drains. */
  class SourceVec<T> {
    var items: seq<seq<T>>

    constructor (items: seq<seq<T>>)
      ensures this.items == items
    {
      this.items := items;
    }

    /** `total.append(self)`: hands every source over, in order, and leaves the vector empty. */
    method Drain(total: seq<seq<T>>) returns (all: seq<seq<T>>)
      modifies this
      ensures all == total + old(items) && items == []
    {
      all := total + items;
      items := [];
    }
  }

  /**
   * `imex_merge_all`: `self` becomes source 0, the handed sources follow in
   * order and are drained; fails exactly when the pattern does not parse.
   */
  method ImexMergeAll<T(==)>(first: seq<T>, iters: SourceVec<T>, imex: string) returns (r: Option<IMExIter<T>>)
    modifies iters
    ensures iters.items == []
    ensures r.Some? <==> ParseImex(imex).Some?
    ensures r.Some? ==> fresh(r.value) && fresh(r.value.iters) && r.value.Pending() == DenAtoms(ParseImex(imex).value.0, Fresh([first] + old(iters.items)))
  {
    var all := iters.Drain([first]);
    r := IMExIter.New(all, imex);
  }

  /** `rot_merge_all`: the default pattern for all the sources; it always parses. */
  method RotMergeAll<T(==)>(first: seq<T>, iters: SourceVec<T>) returns (r: IMExIter<T>)
    modifies iters
    ensures iters.items == []
    ensures fresh(r) && fresh(r.iters)
    ensures r.Pending() == DenAtoms(DefaultTree(SourceCount(|old(iters.items)|)), Fresh([first] + old(iters.items)))
  {
    var k := SourceCount(|iters.items|);
    DefaultParses(k);
    var m := ImexMergeAll(first, iters, DefaultPattern(k));
    r := m.value;
  }

  /** `imex_merge`: `imex_merge_all` with the one other source. */
  method ImexMerge<T(==)>(first: seq<T>, other: seq<T>, imex: string) returns (r: Option<IMExIter<T>>)
    ensures r.Some? <==> ParseImex(imex).Some?
    ensures r.Some? ==> fresh(r.value) && fresh(r.value.iters) && r.value.Pending() == DenAtoms(ParseImex(imex).value.0, Fresh([first, other]))
  {
    var rest := new SourceVec([other]);
    assert [first] + rest.items == [first, other];
    r := ImexMergeAll(first, rest, imex);
  }

  /** `alt_merge`: `(01)*`, one item of each source in turn. */
  method AltMerge<T(==)>(first: seq<T>, other: seq<T>) returns (r: IMExIter<T>)
    ensures fresh(r) && fresh(r.iters)
    ensures r.Pending() == DenAtoms(AltTree(), Fresh([first, other]))
  {
    AltParses();
    var m := ImexMerge(first, other, "(01)*");
    r := m.value;
  }

  /** The tree of `(01)*`: sources 0 and 1 in turn, without bound. */
  function AltTree(): seq<Atom>
  {
    [Atom(Group([Once(0), Once(1)]), Infinite)]
  }

  /** `(01)*` is the default pattern for two sources. */
  lemma AltParses()
    ensures "(01)*" == DefaultPattern(2)
    ensures ParseImex("(01)*") == Some((AltTree(), []))
    ensures Scan("(01)*") == Ok(AltTree())
  {
    DefaultParses(2);
    DefaultRotates(2);
    assert Counting(0, 2) == "01";
    assert Rotation(2) == [Once(0), Once(1)];
  }
}
