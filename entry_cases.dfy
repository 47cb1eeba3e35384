/**
 * The examples of src/merges.rs and src/pastes.rs, worked out on the
 * reference semantics and read off the entry points through their
 * contracts.
 */
module EntryCases {
  import opened Wrappers
  import opened Quantifiers
  import opened Syntax
  import opened Streams
  import opened Semantics
  import opened Iter
  import opened PasteIters
  import opened Grammar
  import opened GrammarProperties
  import Merges
  import Pastes
  import ParserAgreement

  /** "12" and "ab", each read up to `c`. */
  function Pair(c: nat): Sources<char>
  {
    [Source("12", c), Source("ab", c)]
  }

  /** One round of `(01)` over `Pair(c)` takes the item under each cursor. */
  lemma {:induction false} AltRound(c: nat)
    requires c < 2
    ensures DenVal(Merges.AltTree()[0].val, Pair(c)) == (["12"[c], "ab"[c]], Pair(c + 1))
  {
    var ss := Pair(c);
    assert Merges.Rotation(2) == [Once(0), Once(1)];
    assert Available(ss, 0) && Available(ss, 1);
    Merges.RoundTakesEach(2, ss);
    var h := Merges.Heads(ss, 2);
    assert h == [h[0], h[1]];
    assert Merges.Moved(ss, 2) == Pair(c + 1);
  }

  /** `(01)*` over "12" and "ab": two rounds, then a silent one ends the merge (src/merges.rs, src/pastes.rs). */
  lemma AltExample()
    ensures DenAtoms(Merges.AltTree(), Fresh(["12", "ab"])) == ("1a2b", Pair(2))
  {
    var tree := Merges.AltTree();
    assert Fresh(["12", "ab"]) == Pair(0);
    AltRepeats();
    assert tree[1..] == [];
    assert "1a2b" + [] == "1a2b";
  }

  lemma AltRepeats()
    ensures DenReps(Merges.AltTree()[0].val, Infinite, Pair(0)) == ("1a2b", Pair(2))
  {
    var g := Merges.AltTree()[0].val;
    AltRound(0);
    AltLastRounds();
    assert "1a" + "2b" == "1a2b";
  }

  lemma AltLastRounds()
    ensures DenReps(Merges.AltTree()[0].val, Infinite, Pair(1)) == ("2b", Pair(2))
  {
    var g := Merges.AltTree()[0].val;
    AltRound(1);
    Iter.NothingToMerge(g.atoms, Pair(2));
    assert DenReps(g, Infinite, Pair(2)) == ([], Pair(2));
    assert "2b" + [] == "2b";
  }

  /** `alt_merge` of "12" and "ab" yields "1a2b". */
  method LazyAlternates() returns (out: seq<char>)
    ensures out == "1a2b"
  {
    var it := Merges.AltMerge("12", "ab");
    AltExample();
    out := it.Collect();
  }

  /** `paste_both` of "12" and "ab" hands out "1a2b" and no error. */
  method PasteAlternates() returns (it: PasteIter<char>)
    ensures it.Unyielded().out == "1a2b" && it.Unyielded().err.None?
  {
    it := Pastes.PasteBoth("12", "ab");
    AltExample();
  }

  /** `0*1*` over "12345" and "ab": all of source 0, then all of source 1. */
  lemma DrainBoth()
    ensures DenAtoms([Atom(Single(0), Infinite), Atom(Single(1), Infinite)], Fresh(["12345", "ab"])).0 == "12345ab"
  {
    var xs, ys := [Atom(Single(0), Infinite)], [Atom(Single(1), Infinite)];
    DrainFirst();
    DrainSecond();
    Concat(xs, ys, Fresh(["12345", "ab"]), "12345", [Source("12345", 5), Source("ab", 0)], "ab", [Source("12345", 5), Source("ab", 2)]);
    assert xs + ys == [Atom(Single(0), Infinite), Atom(Single(1), Infinite)];
    assert "12345" + "ab" == "12345ab";
  }

  lemma DrainFirst()
    ensures DenAtoms([Atom(Single(0), Infinite)], Fresh(["12345", "ab"])) == ("12345", [Source("12345", 5), Source("ab", 0)])
  {
    var ss := Fresh(["12345", "ab"]);
    SingleReps(0, Infinite, ss);
    assert "12345"[0..5] == "12345";
    assert ss[0 := Source("12345", 5)] == [Source("12345", 5), Source("ab", 0)];
    assert [Atom(Single(0), Infinite)][1..] == [];
    assert "12345" + [] == "12345";
  }

  lemma DrainSecond()
    ensures DenAtoms([Atom(Single(1), Infinite)], [Source("12345", 5), Source("ab", 0)]) == ("ab", [Source("12345", 5), Source("ab", 2)])
  {
    var ss := [Source("12345", 5), Source("ab", 0)];
    SingleReps(1, Infinite, ss);
    assert "ab"[0..2] == "ab";
    assert ss[1 := Source("ab", 2)] == [Source("12345", 5), Source("ab", 2)];
    assert [Atom(Single(1), Infinite)][1..] == [];
    assert "ab" + [] == "ab";
  }

  /** `imex_merge` of "12345" and "ab" under `0*1*` yields "12345ab". */
  method LazyDrainsInOrder() returns (out: seq<char>)
    ensures out == "12345ab"
  {
    var r := Merges.ImexMerge("12345", "ab", "0*1*");
    DrainParses();
    DrainBoth();
    var it := r.value;
    out := it.Collect();
  }

  /** `0*1*` parses as two unbounded single atoms. */
  lemma DrainParses()
    ensures ParseImex("0*1*") == Some(([Atom(Single(0), Infinite), Atom(Single(1), Infinite)], []))
  {
    var a, b := Atom(Single(0), Infinite), Atom(Single(1), Infinite);
    ParserAgreement.PrintOne(b, []);
    assert [b] + [] == [b];
    ParserAgreement.PrintOne(a, [b]);
    assert Print([a, b]) == "0*1*";
    GrammarRoundTrip([a, b]);
  }
}
