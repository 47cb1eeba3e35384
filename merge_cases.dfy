/**
 * The crate's merge examples (src/iter.rs, src/paste_iter.rs) worked out on
 * the reference semantics, then read off the iterators through their
 * contracts.
 */
module MergeCases {
  import opened Wrappers
  import opened Quantifiers
  import opened Syntax
  import opened Streams
  import opened Semantics
  import opened Traces
  import opened Eager
  import opened Iter
  import opened PasteIters
  import opened Grammar
  import opened GrammarProperties
  import opened Numerals
  import ParserAgreement
  import Scanner

  /** An optional item as a sequence of zero or one items. */
  function Got<T>(x: Option<T>): seq<T>
  {
    if x.Some? then [x.value] else []
  }

  /** A single digit takes one item from its source if there is one (and skips a missing source). */
  lemma OnceTakes<T>(i: nat, ss: Sources<T>)
    ensures DenReps(Single(i), Finite(1), ss) == (Got(Pull(ss, i).0), Pull(ss, i).1)
  {
    var (x, ss1) := Pull(ss, i);
    if x.Some? {
      assert DenReps(Single(i), Finite(0), ss1) == ([], ss1);
      assert [x.value] + [] == [x.value];
    }
  }

  /** Two single digits in a row. */
  lemma PairTakes<T>(i: nat, j: nat, ss: Sources<T>)
    ensures var (x, ss1) := Pull(ss, i);
            var (y, ss2) := Pull(ss1, j);
            DenAtoms([Once(i), Once(j)], ss) == (Got(x) + Got(y), ss2)
  {
    var (x, ss1) := Pull(ss, i);
    var (y, ss2) := Pull(ss1, j);
    OnceTakes(i, ss);
    OnceTakes(j, ss1);
    assert [Once(i), Once(j)][1..] == [Once(j)];
    assert DenAtoms([Once(j)], ss1) == (Got(y) + [], ss2);
    assert Got(y) + [] == Got(y);
  }

  /** `0120` over "000" and "111": the missing source 2 is skipped, giving "010". */
  lemma SkipMerge()
    ensures DenAtoms([Once(0), Once(1), Once(2), Once(0)], Fresh(["000", "111"])).0 == "010"
  {
    var ss := Fresh(["000", "111"]);
    FirstPair();
    SecondPair();
    Split([Once(0), Once(1)], [Once(2), Once(0)], ss);
    assert [Once(0), Once(1)] + [Once(2), Once(0)] == [Once(0), Once(1), Once(2), Once(0)];
  }

  lemma FirstPair()
    ensures var ss := Fresh(["000", "111"]);
            DenAtoms([Once(0), Once(1)], ss) == ("01", Pull(Pull(ss, 0).1, 1).1)
  {
    var ss := Fresh(["000", "111"]);
    PairTakes(0, 1, ss);
    assert Pull(ss, 0).0 == Some('0');
    assert Pull(Pull(ss, 0).1, 1).0 == Some('1');
    assert ['0'] + ['1'] == "01";
  }

  lemma SecondPair()
    ensures var ss := Fresh(["000", "111"]);
            DenAtoms([Once(2), Once(0)], Pull(Pull(ss, 0).1, 1).1).0 == "0"
  {
    var ss := Fresh(["000", "111"]);
    var ss2 := Pull(Pull(ss, 0).1, 1).1;
    assert ss2 == [Source("000", 1), Source("111", 1)];
    PairTakes(2, 0, ss2);
    assert Pull(ss2, 2) == (None, ss2);
    assert Pull(ss2, 0).0 == Some('0');
  }

  /** The lazy iterator over `0120` and two sources yields "010". */
  method LazySkips() returns (out: seq<char>)
    ensures out == "010"
  {
    var r := IMExIter.New(["000", "111"], "0120");
    SkipPatternParses();
    SkipMerge();
    var it := r.value;
    out := it.Collect();
  }

  /** `0120` reads as four single atoms in both parsers. */
  lemma SkipPatternParses()
    ensures Scanner.Scan("0120") == Ok([Once(0), Once(1), Once(2), Once(0)])
    ensures ParseImex("0120") == Some(([Once(0), Once(1), Once(2), Once(0)], []))
  {
    var atoms := [Once(0), Once(1), Once(2), Once(0)];
    SkipPatternPrinted();
    ParserAgreement.OneBraceCons(Once(0), []);
    assert [Once(0)] + [] == [Once(0)];
    ParserAgreement.OneBraceCons(Once(2), [Once(0)]);
    ParserAgreement.OneBraceCons(Once(1), [Once(2), Once(0)]);
    ParserAgreement.OneBraceCons(Once(0), [Once(1), Once(2), Once(0)]);
    ParserAgreement.ParsersAgree(atoms);
  }

  lemma SkipPatternPrinted()
    ensures Printable([Once(0), Once(1), Once(2), Once(0)])
    ensures Print([Once(0), Once(1), Once(2), Once(0)]) == "0120"
  {
    ParserAgreement.PrintOne(Once(0), []);
    assert [Once(0)] + [] == [Once(0)];
    ParserAgreement.PrintOne(Once(2), [Once(0)]);
    ParserAgreement.PrintOne(Once(1), [Once(2), Once(0)]);
    ParserAgreement.PrintOne(Once(0), [Once(1), Once(2), Once(0)]);
  }

  /** Five copies of `ch`: "00000" or "11111". */
  function Fives(ch: char): seq<char>
  {
    seq(5, _ => ch)
  }

  /** "00000" and "11111", each read up to `c`. */
  function Zeros(c: nat): Sources<char>
  {
    [Source(Fives('0'), c), Source(Fives('1'), c)]
  }

  /** The group `(10)` with count `n`. */
  function TenTimes(n: nat): Atom
  {
    Atom(Group([Once(1), Once(0)]), Finite(n))
  }

  /** `ss` with the cursor of source `i` moved on by one. */
  function Advance<T>(ss: Sources<T>, i: nat): Sources<T>
    requires i < |ss|
  {
    ss[i := ss[i].(cursor := ss[i].cursor + 1)]
  }

  /** Two single digits naming different available sources take the item under each cursor. */
  lemma TwoTakes<T>(i: nat, j: nat, ss: Sources<T>)
    requires i != j && Available(ss, i) && Available(ss, j)
    ensures DenAtoms([Once(i), Once(j)], ss)
         == ([ss[i].items[ss[i].cursor], ss[j].items[ss[j].cursor]], Advance(Advance(ss, i), j))
  {
    var ss1 := Advance(ss, i);
    assert Pull(ss, i) == (Some(ss[i].items[ss[i].cursor]), ss1);
    assert ss1[j] == ss[j];
    assert Pull(ss1, j) == (Some(ss[j].items[ss[j].cursor]), Advance(ss1, j));
    PairTakes(i, j, ss);
    assert [ss[i].items[ss[i].cursor]] + [ss[j].items[ss[j].cursor]] == [ss[i].items[ss[i].cursor], ss[j].items[ss[j].cursor]];
  }

  /** A productive repetition under a positive count, followed by the remaining ones. */
  lemma RepsStep<T>(v: Val, n: nat, ss: Sources<T>, o: seq<T>, mid: Sources<T>, o': seq<T>, end: Sources<T>)
    requires n > 0
    requires o != []
    requires DenVal(v, ss) == (o, mid)
    requires DenReps(v, Finite(n - 1), mid) == (o', end)
    ensures DenReps(v, Finite(n), ss) == (o + o', end)
  {
    assert Next(Finite(n)) == (true, Finite(n - 1));
  }

  /** One round of `(10)` reads one item from each source. */
  lemma TenRound(c: nat)
    requires c < 5
    ensures DenVal(TenTimes(1).val, Zeros(c)) == ("10", Zeros(c + 1))
  {
    var ss := Zeros(c);
    assert Available(ss, 0) && Available(ss, 1);
    TwoTakes(1, 0, ss);
    assert Advance(Advance(ss, 1), 0) == Zeros(c + 1);
    assert ss[1].items[c] == '1' && ss[0].items[c] == '0';
  }

  /** `(10){n}` with room for `n` rounds gives "10" `n` times. */
  lemma {:induction false} TenRounds(n: nat, c: nat)
    requires c + n <= 5
    ensures DenReps(TenTimes(1).val, Finite(n), Zeros(c)) == (Tens(n), Zeros(c + n))
    decreases n
  {
    if n == 0 {
      ZeroCountSilent(TenTimes(1).val, Zeros(c));
    } else {
      TenRounds(n - 1, c + 1);
      TenStep(n, c);
    }
  }

  /** One more round of `(10)` in front of the rounds that follow it. */
  lemma TenStep(n: nat, c: nat)
    requires 0 < n && c + n <= 5
    requires DenReps(TenTimes(1).val, Finite(n - 1), Zeros(c + 1)) == (Tens(n - 1), Zeros(c + n))
    ensures DenReps(TenTimes(1).val, Finite(n), Zeros(c)) == (Tens(n), Zeros(c + n))
  {
    TenRound(c);
    RepsStep(TenTimes(1).val, n, Zeros(c), "10", Zeros(c + 1), Tens(n - 1), Zeros(c + n));
  }

  function Tens(n: nat): seq<char>
  {
    if n == 0 then [] else "10" + Tens(n - 1)
  }

  lemma {:induction false} ZeroOne(data: seq<seq<char>>)
    requires data == ["00000", "11111"]
    ensures DenAtoms([Once(0), Once(1)], Fresh(data)) == ("01", Zeros(1))
  {
    FivesWritten();
    var ss := Fresh(data);
    assert ss == Zeros(0);
    assert Available(ss, 0) && Available(ss, 1);
    TwoTakes(0, 1, ss);
    assert Advance(Advance(ss, 0), 1) == Zeros(1);
    assert ss[0].items[0] == '0' && ss[1].items[0] == '1';
  }

  lemma FivesWritten()
    ensures Fives('0') == "00000" && Fives('1') == "11111"
  {
  }

  /** The atom `(10){n}` alone: `n` rounds. */
  lemma {:induction false} GroupPart(n: nat, c: nat)
    requires c + n <= 5
    ensures DenAtoms([TenTimes(n)], Zeros(c)) == (Tens(n), Zeros(c + n))
  {
    TenRounds(n, c);
    assert [TenTimes(n)][1..] == [];
    assert Tens(n) + [] == Tens(n);
  }

  lemma ThreeTens()
    ensures Tens(3) == "101010" && "01" + Tens(3) == "01101010"
  {
  }

  /** The pattern `01(10){3}`. */
  function OneZeroPattern(): seq<Atom>
  {
    [Once(0), Once(1), TenTimes(3)]
  }

  /** `01(10){3}` over "00000" and "11111" gives "01101010" (src/iter.rs, src/paste_iter.rs). */
  lemma {:induction false} RepeatedGroupMerge(data: seq<seq<char>>)
    requires data == ["00000", "11111"]
    ensures DenAtoms(OneZeroPattern(), Fresh(data)) == ("01101010", Zeros(4))
  {
    var xs, ys := [Once(0), Once(1)], [TenTimes(3)];
    ZeroOne(data);
    GroupPart(3, 1);
    ThreeTens();
    Concat(xs, ys, Fresh(data), "01", Zeros(1), "101010", Zeros(4));
    assert xs + ys == OneZeroPattern();
  }

  /** The lazy iterator over `01(10){3}` yields "01101010". */
  method LazyRepeatsGroup() returns (out: seq<char>)
    ensures out == "01101010"
  {
    var r := IMExIter.New(["00000", "11111"], "01(10){3}");
    OneZeroParses();
    RepeatedGroupMerge(["00000", "11111"]);
    var it := r.value;
    out := it.Collect();
  }

  lemma TenPrinted()
    ensures AtomInRange(TenTimes(3), 10) && PrintAtom(TenTimes(3)) == "(10){3}"
  {
    assert Decimal(3) == "3";
    ParserAgreement.PrintOne(Once(0), []);
    assert [Once(0)] + [] == [Once(0)];
    ParserAgreement.PrintOne(Once(1), [Once(0)]);
  }

  /** `01(10){3}` reads as the pattern's tree in both parsers. */
  lemma OneZeroParses()
    ensures Scanner.Scan("01(10){3}") == Ok(OneZeroPattern())
    ensures ParseImex("01(10){3}") == Some((OneZeroPattern(), []))
  {
    OneZeroPrinted();
    OneZeroOneBrace();
    ParserAgreement.ParsersAgree(OneZeroPattern());
  }

  lemma OneZeroOneBrace()
    ensures OneBracePerLevel(OneZeroPattern())
  {
    ParserAgreement.OneBraceCons(Once(0), []);
    assert [Once(0)] + [] == [Once(0)];
    ParserAgreement.OneBraceCons(Once(1), [Once(0)]);
    ParserAgreement.OneBraceCons(TenTimes(3), []);
    assert [TenTimes(3)] + [] == [TenTimes(3)];
    ParserAgreement.OneBraceCons(Once(1), [TenTimes(3)]);
    ParserAgreement.OneBraceCons(Once(0), [Once(1), TenTimes(3)]);
  }

  lemma OneZeroPrinted()
    ensures Printable(OneZeroPattern()) && Print(OneZeroPattern()) == "01(10){3}"
  {
    OneTenPrinted();
    ParserAgreement.PrintOne(Once(0), [Once(1), TenTimes(3)]);
  }

  lemma OneTenPrinted()
    ensures Printable([Once(1), TenTimes(3)]) && Print([Once(1), TenTimes(3)]) == "1(10){3}"
  {
    TenPrinted();
    ParserAgreement.PrintOne(TenTimes(3), []);
    assert [TenTimes(3)] + [] == [TenTimes(3)];
    assert Print([TenTimes(3)]) == "(10){3}";
    ParserAgreement.PrintOne(Once(1), [TenTimes(3)]);
  }

  /** The paste iterator over `01(10){3}` has the same items pending, and no error. */
  method PasteRepeatsGroup() returns (it: PasteIter<char>)
    ensures it.Unyielded().out == "01101010" && it.Unyielded().err.None?
  {
    var r := PasteIter.From(["00000", "11111"], "01(10){3}");
    OneZeroParses();
    RepeatedGroupTrace();
    it := r.value;
  }

  lemma RepeatedGroupTrace()
    ensures var t := TraceAtoms(OneZeroPattern(), Fresh(["00000", "11111"]));
            t.out == "01101010" && t.err.None?
  {
    var atoms := OneZeroPattern();
    RepeatedGroupMerge(["00000", "11111"]);
    assert AtomsInRange(TenTimes(3).val.atoms, 2);
    assert atoms[2..] == [TenTimes(3)] && atoms[2..][1..] == [];
    assert AtomsInRange(atoms[2..], 2);
    assert AtomsInRange(atoms, 2);
    AtomsTraceIsDen(atoms, Fresh(["00000", "11111"]));
  }

  /** "00000000" and "111111" after the head `0{3}1` and `k` rounds of `(01)`. */
  function Paired(k: nat): Sources<char>
  {
    [Source(seq(8, _ => '0'), 3 + k), Source(seq(6, _ => '1'), 1 + k)]
  }

  /** "01" `m` times. */
  function ZeroOnes(m: nat): seq<char>
  {
    if m == 0 then [] else "01" + ZeroOnes(m - 1)
  }

  /** The pattern `0{3}1(01){n}`. */
  function CountedPattern(n: nat): seq<Atom>
  {
    [ParserAgreement.ThreeZeros(), Once(1), ParserAgreement.ZeroOneGroup(n)]
  }

  /** `0{3}1` takes three items of source 0, then one of source 1. */
  lemma CountedHead(data: seq<seq<char>>)
    requires data == ["00000000", "111111"]
    ensures DenAtoms([ParserAgreement.ThreeZeros(), Once(1)], Fresh(data)) == ("0001", Paired(0))
  {
    var a := ParserAgreement.ThreeZeros();
    HeadZeros(data);
    HeadOne();
    Alone(a, Fresh(data));
    Alone(Once(1), AfterZeros());
    Concat([a], [Once(1)], Fresh(data), "000", AfterZeros(), "1", Paired(0));
    assert [a] + [Once(1)] == [a, Once(1)];
    assert "000" + "1" == "0001";
  }

  /** A sequence of one atom is that atom's repetitions. */
  lemma Alone<T>(a: Atom, ss: Sources<T>)
    ensures DenAtoms([a], ss) == DenReps(a.val, a.q, ss)
  {
    assert [a][1..] == [];
    assert DenReps(a.val, a.q, ss).0 + [] == DenReps(a.val, a.q, ss).0;
  }

  /** Source 0 read up to 3, source 1 untouched. */
  function AfterZeros(): Sources<char>
  {
    [Source(seq(8, _ => '0'), 3), Source(seq(6, _ => '1'), 0)]
  }

  lemma HeadZeros(data: seq<seq<char>>)
    requires data == ["00000000", "111111"]
    ensures DenReps(Single(0), Finite(3), Fresh(data)) == ("000", AfterZeros())
  {
    var ss := Fresh(data);
    assert seq(8, _ => '0') == "00000000" && seq(6, _ => '1') == "111111";
    assert ss == [Source(seq(8, _ => '0'), 0), Source(seq(6, _ => '1'), 0)];
    SingleReps(0, Finite(3), ss);
    assert ss[0 := ss[0].(cursor := 3)] == AfterZeros();
    assert seq(8, _ => '0')[0..3] == "000";
  }

  lemma HeadOne()
    ensures DenReps(Single(1), Finite(1), AfterZeros()) == ("1", Paired(0))
  {
    var mid := AfterZeros();
    OnceTakes(1, mid);
    assert Available(mid, 1) && mid[1].items[0] == '1';
    assert Pull(mid, 1).1 == mid[1 := Source(seq(6, _ => '1'), 1)] == Paired(0);
  }

  /** While both sources have items, one round of `(01)` takes one item of each. */
  lemma CountedRound(k: nat)
    requires k < 5
    ensures DenVal(ParserAgreement.ZeroOneGroup(1).val, Paired(k)) == ("01", Paired(k + 1))
  {
    var ss := Paired(k);
    assert Available(ss, 0) && Available(ss, 1);
    TwoTakes(0, 1, ss);
    assert Advance(Advance(ss, 0), 1) == Paired(k + 1);
    assert ss[0].items[3 + k] == '0' && ss[1].items[1 + k] == '1';
  }

  /** Once both sources are used up, a round of `(01)` is silent. */
  lemma CountedSilent()
    ensures DenVal(ParserAgreement.ZeroOneGroup(1).val, Paired(5)) == ([], Paired(5))
  {
    var ss := Paired(5);
    assert !Available(ss, 0) && !Available(ss, 1);
    PairTakes(0, 1, ss);
  }

  /**
   * `(01){n}` with a count no smaller than the rounds left: those rounds,
   * then the first silent repetition ends the group, whatever count is left.
   */
  lemma {:induction false} CountedRounds(n: nat, k: nat)
    requires k <= 5 && 5 - k <= n
    ensures DenReps(ParserAgreement.ZeroOneGroup(1).val, Finite(n), Paired(k)) == (ZeroOnes(5 - k), Paired(5))
    decreases 5 - k
  {
    if k == 5 {
      CountedSilent();
    } else {
      CountedRounds(n - 1, k + 1);
      CountedStep(n, k);
    }
  }

  /** One more round of `(01)` in front of the rounds that follow it. */
  lemma CountedStep(n: nat, k: nat)
    requires k < 5 && 5 - k <= n
    requires DenReps(ParserAgreement.ZeroOneGroup(1).val, Finite(n - 1), Paired(k + 1)) == (ZeroOnes(4 - k), Paired(5))
    ensures DenReps(ParserAgreement.ZeroOneGroup(1).val, Finite(n), Paired(k)) == (ZeroOnes(5 - k), Paired(5))
  {
    CountedRound(k);
    RepsStep(ParserAgreement.ZeroOneGroup(1).val, n, Paired(k), "01", Paired(k + 1), ZeroOnes(4 - k), Paired(5));
  }

  lemma FiveZeroOnes()
    ensures "0001" + ZeroOnes(5) == "00010101010101"
  {
    assert ZeroOnes(5) == "0101010101";
  }

  /**
   * `0{3}1(01){n}` over "00000000" and "111111" gives "00010101010101" for
   * every count from 5 on: the grammar's 5 and the scanner's 35 alike
   * (src/iter.rs, src/paste_iter.rs).
   */
  lemma {:induction false} CountedGroupMerge(data: seq<seq<char>>, n: nat)
    requires data == ["00000000", "111111"] && n >= 5
    ensures DenAtoms(CountedPattern(n), Fresh(data)) == ("00010101010101", Paired(5))
  {
    var xs, ys := [ParserAgreement.ThreeZeros(), Once(1)], [ParserAgreement.ZeroOneGroup(n)];
    CountedHead(data);
    CountedRounds(n, 0);
    assert ys[1..] == [] && ZeroOnes(5) + [] == ZeroOnes(5);
    assert DenAtoms(ys, Paired(0)) == (ZeroOnes(5), Paired(5));
    FiveZeroOnes();
    Concat(xs, ys, Fresh(data), "0001", Paired(0), ZeroOnes(5), Paired(5));
    assert xs + ys == CountedPattern(n);
  }

  lemma CountedGroupTrace(n: nat)
    requires n >= 5
    ensures var t := TraceAtoms(CountedPattern(n), Fresh(["00000000", "111111"]));
            t.out == "00010101010101" && t.err.None?
  {
    var atoms := CountedPattern(n);
    CountedGroupMerge(["00000000", "111111"], n);
    assert AtomsInRange(ParserAgreement.ZeroOneGroup(n).val.atoms, 2);
    assert atoms[2..] == [ParserAgreement.ZeroOneGroup(n)] && atoms[2..][1..] == [];
    assert AtomsInRange(atoms[2..], 2);
    assert atoms[1..][1..] == atoms[2..] && atoms[1..][0] == Once(1);
    assert AtomsInRange(atoms[1..], 2);
    assert AtomsInRange(atoms, 2);
    AtomsTraceIsDen(atoms, Fresh(["00000000", "111111"]));
  }

  /** `IMExIter::new` with `0{3}1(01){5}` over "00000000" and "111111" yields "00010101010101". */
  method LazyCountedGroup() returns (out: seq<char>)
    ensures out == "00010101010101"
  {
    var r := IMExIter.New(["00000000", "111111"], "0{3}1(01){5}");
    ParserAgreement.TwoCountsAccumulate();
    CountedGroupMerge(["00000000", "111111"], 5);
    var it := r.value;
    out := it.Collect();
  }

  /**
   * `PasteIter::from` with `0{3}1(01){5}`: the scanner reads the group's
   * count as 35, and the merge is still "00010101010101", with no error.
   */
  method PasteCountedGroup() returns (it: PasteIter<char>)
    ensures it.Unyielded().out == "00010101010101" && it.Unyielded().err.None?
  {
    var r := PasteIter.From(["00000000", "111111"], "0{3}1(01){5}");
    ParserAgreement.TwoCountsAccumulate();
    CountedGroupTrace(35);
    it := r.value;
  }

  /** `0120` over two sources: `0`, `1`, then index 2 stops the merge. */
  lemma MissingThird()
    ensures var t := TraceAtoms([Once(0), Once(1), Once(2), Once(0)], Fresh(["000", "111"]));
            t.out == "01" && t.err == Some(2)
  {
    var ss := Fresh(["000", "111"]);
    var ss1 := Pull(ss, 0).1;
    var ss2 := Pull(ss1, 1).1;
    assert Pull(ss, 0).0 == Some('0');
    assert Pull(ss1, 1).0 == Some('1');
    var t2 := TraceAtoms([Once(2), Once(0)], ss2);
    assert TraceReps(Single(2), Finite(1), ss2) == Trace([], Some(2), ss2);
    assert t2 == Trace([], Some(2), ss2);
    var t1 := TraceAtoms([Once(1), Once(2), Once(0)], ss1);
    assert TraceVal(Single(1), ss1) == Trace("1", None, ss2);
    assert TraceReps(Single(1), Finite(0), ss2) == Trace([], None, ss2);
    assert TraceReps(Single(1), Finite(1), ss1) == Trace("1", None, ss2);
    assert [Once(1), Once(2), Once(0)][1..] == [Once(2), Once(0)];
    assert t1 == Trace("1", Some(2), ss2);
    assert TraceVal(Single(0), ss) == Trace("0", None, ss1);
    assert TraceReps(Single(0), Finite(0), ss1) == Trace([], None, ss1);
    assert TraceReps(Single(0), Finite(1), ss) == Trace("0", None, ss1);
    assert [Once(0), Once(1), Once(2), Once(0)][1..] == [Once(1), Once(2), Once(0)];
  }

  /** With two sources, `0120` hands out two items and then an error as its third. */
  method OutOfRangeFails() returns (third: Option<Result<char, nat>>)
    ensures third == Some(Err(2))
  {
    var r := PasteIter.From(["000", "111"], "0120");
    SkipPatternParses();
    MissingThird();
    var it := r.value;
    ghost var t0 := it.Unyielded();
    var first := it.Next();
    ghost var t1 := it.Unyielded();
    Handed(t0, first, t1, it.iters.sources);
    var second := it.Next();
    Handed(t1, second, it.Unyielded(), it.iters.sources);
    ghost var t2 := it.Unyielded();
    third := it.Next();
    Handed(t2, third, it.Unyielded(), it.iters.sources);
  }

  /** The eager evaluator reports index 2 for `0120` over two sources, and nothing else. */
  lemma EagerFailsOnMissing()
    ensures EagerAtoms([Once(0), Once(1), Once(2), Once(0)], Fresh(["000", "111"])) == Err(2)
  {
    MissingThird();
    EagerAtomsReportsTrace([Once(0), Once(1), Once(2), Once(0)], Fresh(["000", "111"]));
  }
}
