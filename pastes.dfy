/**
 * The paste entry points of src/pastes.rs (`Pastes`, on `PasteIter`): the
 * same source assembly and default pattern as src/merges.rs, handed to the
 * state-machine evaluator and its scanner instead.
 */
module Pastes {
  import opened Wrappers
  import opened Quantifiers
  import opened Syntax
  import opened Streams
  import opened Semantics
  import Scanner
  import opened Traces
  import opened PasteIters
  import Merges

  /**
   * `pastex`: `self` becomes source 0, the handed sources follow in order and
   * are drained; fails exactly when the scanner rejects the pattern.
   */
  method Pastex<T(==)>(first: seq<T>, iters: Merges.SourceVec<T>, pattern: string) returns (r: Option<PasteIter<T>>)
    modifies iters
    ensures iters.items == []
    ensures r.Some? <==> Scanner.Scan(pattern).Ok?
    ensures r.Some? ==> && fresh(r.value) && fresh(r.value.iters)
                        && r.value.Unyielded() == TraceAtoms(Scanner.Scan(pattern).value, Fresh([first] + old(iters.items)))
  {
    var all := iters.Drain([first]);
    r := PasteIter.From(all, pattern);
  }

  /**
   * `paste`: the default pattern over all the sources.  It always scans, and
   * since every index it names exists, the paste never reports an error:
   * it hands out exactly what the rotating merge of src/merges.rs yields.
   */
  method Paste<T(==)>(first: seq<T>, iters: Merges.SourceVec<T>) returns (r: PasteIter<T>)
    modifies iters
    ensures iters.items == []
    ensures fresh(r) && fresh(r.iters)
    ensures var tree := Merges.DefaultTree(Merges.SourceCount(|old(iters.items)|));
            var den := DenAtoms(tree, Fresh([first] + old(iters.items)));
            r.Unyielded() == Trace(den.0, None, den.1)
  {
    ghost var data := [first] + iters.items;
    var k := Merges.SourceCount(|iters.items|);
    Merges.DefaultParses(k);
    Merges.DefaultInRange(k, |data|);
    AtomsTraceIsDen(Merges.DefaultTree(k), Fresh(data));
    var m := Pastex(first, iters, Merges.DefaultPattern(k));
    r := m.value;
  }

  /** `pastex_both`: `pastex` with the one other source. */
  method PastexBoth<T(==)>(first: seq<T>, other: seq<T>, pattern: string) returns (r: Option<PasteIter<T>>)
    ensures r.Some? <==> Scanner.Scan(pattern).Ok?
    ensures r.Some? ==> && fresh(r.value) && fresh(r.value.iters)
                        && r.value.Unyielded() == TraceAtoms(Scanner.Scan(pattern).value, Fresh([first, other]))
  {
    var rest := new Merges.SourceVec([other]);
    assert [first] + rest.items == [first, other];
    r := Pastex(first, rest, pattern);
  }

  /** `paste_both`: `(01)*`, one item of each source in turn, and never an error. */
  method PasteBoth<T(==)>(first: seq<T>, other: seq<T>) returns (r: PasteIter<T>)
    ensures fresh(r) && fresh(r.iters)
    ensures var den := DenAtoms(Merges.AltTree(), Fresh([first, other]));
            r.Unyielded() == Trace(den.0, None, den.1)
  {
    Merges.AltParses();
    Merges.DefaultInRange(2, 2);
    AtomsTraceIsDen(Merges.AltTree(), Fresh([first, other]));
    var m := PastexBoth(first, other, "(01)*");
    r := m.value;
  }
}
