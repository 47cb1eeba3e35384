/**
 * The parsers side by side: where the scanner, the grammar and the
 * recursive descent agree, where the scanner differs, and the examples the
 * crate's own tests exercise.
 */
module ParserAgreement {
  import opened Wrappers
  import opened Quantifiers
  import opened Numerals
  import opened Syntax
  import opened Scanner
  import opened ScannerProperties
  import opened Combinators
  import opened Grammar
  import opened GrammarProperties

  /**
   * On the canonical text of an expression with at most one braced count
   * per nesting level, the scanner and the grammar (hence also the
   * recursive descent, which equals the grammar) both return that expression.
   */
  lemma ParsersAgree(atoms: seq<Atom>)
    requires Printable(atoms) && OneBracePerLevel(atoms)
    ensures Scan(Print(atoms)) == Ok(atoms)
    ensures ParseImex(Print(atoms)) == Some((atoms, []))
  {
    ScanPrintRoundTrip(atoms);
    GrammarRoundTrip(atoms);
  }

  /** Both parsers reject any text with a character outside the pattern alphabet. */
  lemma ParsersRejectForeignChars(s: string, k: nat)
    requires k < |s| && !InAlphabet(s[k])
    ensures Scan(s).Err? && ParseImex(s).None?
  {
    if Scan(s).Ok? {
      ScanAcceptsOnlyAlphabet(s);
    }
    if ParseImex(s).Some? {
      GrammarAcceptsOnlyAlphabet(s);
    }
  }

  /** `13{3}9*1`: four single atoms, counts 1, 3, unbounded and 1, for every parser. */
  lemma RepeatsExample()
    ensures var e := [Atom(Single(1), Finite(1)), Atom(Single(3), Finite(3)),
                      Atom(Single(9), Infinite), Atom(Single(1), Finite(1))];
            Scan("13{3}9*1") == Ok(e) && ParseImex("13{3}9*1") == Some((e, []))
  {
    var e := [Atom(Single(1), Finite(1)), Atom(Single(3), Finite(3)),
              Atom(Single(9), Infinite), Atom(Single(1), Finite(1))];
    RepeatsText();
    ParsersAgree(e);
  }

  lemma RepeatsText()
    ensures var e := [Atom(Single(1), Finite(1)), Atom(Single(3), Finite(3)),
                      Atom(Single(9), Infinite), Atom(Single(1), Finite(1))];
            Printable(e) && OneBracePerLevel(e) && Print(e) == "13{3}9*1"
  {
    var a1 := Atom(Single(1), Finite(1));
    var a3 := Atom(Single(3), Finite(3));
    var a9 := Atom(Single(9), Infinite);
    assert Decimal(3) == "3";
    PrintOne(a1, []);
    assert [a1] + [] == [a1];
    PrintOne(a9, [a1]);
    PrintOne(a3, [a9, a1]);
    PrintOne(a1, [a3, a9, a1]);
    OneBraceCons(a1, []);
    OneBraceCons(a9, [a1]);
    OneBraceCons(a3, [a9, a1]);
    OneBraceCons(a1, [a3, a9, a1]);
  }

  /** `1(1)(9)*(4){4}(1(1))()`: nested and empty groups, for every parser. */
  lemma GroupsExample()
    ensures Scan("1(1)(9)*(4){4}(1(1))()") == Ok(GroupsTree())
    ensures ParseImex("1(1)(9)*(4){4}(1(1))()") == Some((GroupsTree(), []))
  {
    GroupsPrinted();
    GroupsOneBrace();
    ParsersAgree(GroupsTree());
  }

  function One(): Atom { Atom(Single(1), Finite(1)) }
  function G1(): Atom { Atom(Group([One()]), Finite(1)) }
  function G9(): Atom { Atom(Group([Atom(Single(9), Finite(1))]), Infinite) }
  function G4(): Atom { Atom(Group([Atom(Single(4), Finite(1))]), Finite(4)) }
  function G11(): Atom { Atom(Group([One(), G1()]), Finite(1)) }
  function G0(): Atom { Atom(Group([]), Finite(1)) }

  /** The tree the crate's tests expect for `1(1)(9)*(4){4}(1(1))()`. */
  function GroupsTree(): seq<Atom>
  {
    [One(), G1(), G9(), G4(), G11(), G0()]
  }

  /** The atoms of the tree, each printed on its own. */
  lemma SmallTexts()
    ensures Printable([One()]) && Print([One()]) == "1"
    ensures AtomInRange(G1(), 10) && PrintAtom(G1()) == "(1)"
    ensures AtomInRange(G9(), 10) && PrintAtom(G9()) == "(9)*"
  {
    PrintOne(One(), []);
    assert [One()] + [] == [One()];
    PrintOne(Atom(Single(9), Finite(1)), []);
    assert [Atom(Single(9), Finite(1))] + [] == [Atom(Single(9), Finite(1))];
  }

  lemma LargerTexts()
    ensures AtomInRange(G4(), 10) && PrintAtom(G4()) == "(4){4}"
    ensures AtomInRange(G11(), 10) && PrintAtom(G11()) == "(1(1))"
    ensures AtomInRange(G0(), 10) && PrintAtom(G0()) == "()"
  {
    SmallTexts();
    PrintOne(Atom(Single(4), Finite(1)), []);
    assert [Atom(Single(4), Finite(1))] + [] == [Atom(Single(4), Finite(1))];
    assert Decimal(4) == "4";
    PrintOne(G1(), []);
    assert [G1()] + [] == [G1()];
    PrintOne(One(), [G1()]);
  }

  lemma GroupsPrinted()
    ensures Printable(GroupsTree())
    ensures Print(GroupsTree()) == "1(1)(9)*(4){4}(1(1))()"
  {
    SmallTexts();
    LargerTexts();
    PrintOne(G0(), []);
    assert [G0()] + [] == [G0()];
    PrintOne(G11(), [G0()]);
    PrintOne(G4(), [G11(), G0()]);
    PrintOne(G9(), [G4(), G11(), G0()]);
    PrintOne(G1(), [G9(), G4(), G11(), G0()]);
    PrintOne(One(), [G1(), G9(), G4(), G11(), G0()]);
  }

  lemma GroupsOneBrace()
    ensures OneBracePerLevel(GroupsTree())
  {
    OneBraceCons(G0(), []);
    assert [G0()] + [] == [G0()];
    OneBraceCons(One(), []);
    assert [One()] + [] == [One()];
    OneBraceCons(G1(), []);
    assert [G1()] + [] == [G1()];
    OneBraceCons(One(), [G1()]);
    OneBraceCons(G11(), [G0()]);
    OneBraceCons(G4(), [G11(), G0()]);
    OneBraceCons(G9(), [G4(), G11(), G0()]);
    OneBraceCons(G1(), [G9(), G4(), G11(), G0()]);
    OneBraceCons(One(), [G1(), G9(), G4(), G11(), G0()]);
  }

  /** An atom in front of a sequence, with its brace condition. */
  lemma OneBraceCons(a: Atom, rest: seq<Atom>)
    requires AtomOneBracePerLevel(a) && OneBracePerLevel(rest)
    requires Braced(a.q) ==> !HasBrace(rest)
    ensures OneBracePerLevel([a] + rest)
    ensures HasBrace([a] + rest) <==> Braced(a.q) || HasBrace(rest)
  {
    assert ([a] + rest)[0] == a && ([a] + rest)[1..] == rest;
  }

  /** The text of one atom in front of a printed sequence. */
  lemma PrintOne(a: Atom, rest: seq<Atom>)
    requires AtomInRange(a, 10) && Printable(rest)
    ensures Printable([a] + rest)
    ensures Print([a] + rest) == PrintAtom(a) + Print(rest)
  {
    assert ([a] + rest)[0] == a && ([a] + rest)[1..] == rest;
  }

  /** One character of a scan, when it does not fail. */
  lemma Stepped(t: string, st: ScanState, st': ScanState)
    requires AllDigits(st.digits) && t != [] && Step(t[0], st) == Ok(st')
    ensures Run(t, st) == Run(t[1..], st')
  {
  }

  lemma Failed(t: string, st: ScanState, e: ScanError)
    requires AllDigits(st.digits) && t != [] && Step(t[0], st) == Err(e)
    ensures Run(t, st) == Err(e)
  {
  }

  /**
   * Brace digits are never cleared by the scanner: in `1{2}3{4}` the
   * second count reads `24`, where the grammar reads `4`.
   */
  lemma BraceDigitsAccumulate()
    ensures Scan("1{2}3{4}") == Ok([Atom(Single(1), Finite(2)), Atom(Single(3), Finite(24))])
    ensures ParseImex("1{2}3{4}") == Some(([Atom(Single(1), Finite(2)), Atom(Single(3), Finite(4))], []))
  {
    FirstBrace();
    SecondBrace();
    var t := [Atom(Single(1), Finite(2)), Atom(Single(3), Finite(4))];
    assert Decimal(2) == "2" && Decimal(4) == "4";
    assert Print(t) == "1{2}3{4}";
    GrammarRoundTrip(t);
  }

  lemma FirstBrace()
    ensures Run("1{2}3{4}", Start) == Run("3{4}", ScanState([Atom(Single(1), Finite(2))], false, "2", 0, []))
  {
    var s := "1{2}3{4}";
    var a1 := [Atom(Single(1), Finite(1))];
    var a2 := [Atom(Single(1), Finite(2))];
    assert DigitValue('1') == 1 && Start.atoms + a1 == a1;
    assert Value("2") == 2;
    assert SetLastQ(a1, Finite(2)) == a2;
    assert s[0] == '1' && s[1..][0] == '{' && s[2..][0] == '2' && s[3..][0] == '}';
    Stepped(s, Start, Start.(atoms := a1));
    assert s[1..][1..] == s[2..];
    assert Start.(atoms := a1).(inBraces := true) == ScanState(a1, true, [], 0, []);
    Stepped(s[1..], Start.(atoms := a1), ScanState(a1, true, [], 0, []));
    assert s[2..][1..] == s[3..];
    assert [] + "2" == "2";
    Stepped(s[2..], ScanState(a1, true, [], 0, []), ScanState(a1, true, "2", 0, []));
    assert s[3..][1..] == "3{4}";
    Stepped(s[3..], ScanState(a1, true, "2", 0, []), ScanState(a2, false, "2", 0, []));
  }

  lemma SecondBrace()
    ensures Run("3{4}", ScanState([Atom(Single(1), Finite(2))], false, "2", 0, []))
         == Ok(ScanState([Atom(Single(1), Finite(2)), Atom(Single(3), Finite(24))], false, "24", 0, []))
  {
    var s := "3{4}";
    var a2 := [Atom(Single(1), Finite(2))];
    var a3 := a2 + [Atom(Single(3), Finite(1))];
    var a4 := [Atom(Single(1), Finite(2)), Atom(Single(3), Finite(24))];
    assert DigitValue('3') == 3;
    assert Value("24") == 24 by { assert "24"[..1] == "2"; }
    assert SetLastQ(a3, Finite(24)) == a4;
    assert "2" + ['4'] == "24";
    Stepped(s, ScanState(a2, false, "2", 0, []), ScanState(a3, false, "2", 0, []));
    assert s[1..][1..] == s[2..];
    Stepped(s[1..], ScanState(a3, false, "2", 0, []), ScanState(a3, true, "2", 0, []));
    assert s[2..][1..] == s[3..];
    Stepped(s[2..], ScanState(a3, true, "2", 0, []), ScanState(a3, true, "24", 0, []));
    assert s[3..][1..] == [];
    Stepped(s[3..], ScanState(a3, true, "24", 0, []), ScanState(a4, false, "24", 0, []));
  }

  /** `0{3}`: source 0 three times. */
  function ThreeZeros(): Atom { Atom(Single(0), Finite(3)) }

  /** `(01)` with count `n`. */
  function ZeroOneGroup(n: nat): Atom { Atom(Group([Once(0), Once(1)]), Finite(n)) }

  /**
   * `0{3}1(01){5}`: the group's count is the second braced count at the top
   * level, so the scanner reads it as `35`; the grammar reads `5`.
   */
  lemma TwoCountsAccumulate()
    ensures Scan("0{3}1(01){5}") == Ok([ThreeZeros(), Once(1), ZeroOneGroup(35)])
    ensures ParseImex("0{3}1(01){5}") == Some(([ThreeZeros(), Once(1), ZeroOneGroup(5)], []))
  {
    HeadCount();
    GroupText();
    TailCount();
    TwoCountsPrinted();
    GrammarRoundTrip([ThreeZeros(), Once(1), ZeroOneGroup(5)]);
  }

  lemma TwoCountsPrinted()
    ensures Printable([ThreeZeros(), Once(1), ZeroOneGroup(5)])
    ensures Print([ThreeZeros(), Once(1), ZeroOneGroup(5)]) == "0{3}1(01){5}"
  {
    assert Decimal(3) == "3";
    TailPrinted();
    PrintOne(ThreeZeros(), [Once(1), ZeroOneGroup(5)]);
  }

  lemma TailPrinted()
    ensures Printable([Once(1), ZeroOneGroup(5)])
    ensures Print([Once(1), ZeroOneGroup(5)]) == "1(01){5}"
  {
    GroupPrinted();
    PrintOne(ZeroOneGroup(5), []);
    assert [ZeroOneGroup(5)] + [] == [ZeroOneGroup(5)];
    PrintOne(Once(1), [ZeroOneGroup(5)]);
  }

  lemma GroupPrinted()
    ensures AtomInRange(ZeroOneGroup(5), 10) && PrintAtom(ZeroOneGroup(5)) == "(01){5}"
  {
    assert Decimal(5) == "5";
    PrintOne(Once(1), []);
    assert [Once(1)] + [] == [Once(1)];
    PrintOne(Once(0), [Once(1)]);
  }

  /** The group's own text scans to its two atoms. */
  lemma ScanZeroOne()
    ensures Scan("01") == Ok([Once(0), Once(1)])
  {
    var s := "01";
    assert DigitValue('0') == 0 && DigitValue('1') == 1 && Start.atoms + [Once(0)] == [Once(0)];
    Stepped(s, Start, Start.(atoms := [Once(0)]));
    assert s[1..][0] == '1' && s[1..][1..] == [] && [Once(0)] + [Once(1)] == [Once(0), Once(1)];
    Stepped(s[1..], Start.(atoms := [Once(0)]), Start.(atoms := [Once(0), Once(1)]));
  }

  lemma HeadCount()
    ensures Run("0{3}1(01){5}", Start) == Run("1(01){5}", ScanState([ThreeZeros()], false, "3", 0, []))
  {
    var s := "0{3}1(01){5}";
    var a1 := [Once(0)];
    assert DigitValue('0') == 0 && Start.atoms + a1 == a1;
    assert Value("3") == 3;
    assert SetLastQ(a1, Finite(3)) == [ThreeZeros()];
    assert s[0] == '0' && s[1..][0] == '{' && s[2..][0] == '3' && s[3..][0] == '}';
    Stepped(s, Start, Start.(atoms := a1));
    assert s[1..][1..] == s[2..];
    assert Start.(atoms := a1).(inBraces := true) == ScanState(a1, true, [], 0, []);
    Stepped(s[1..], Start.(atoms := a1), ScanState(a1, true, [], 0, []));
    assert s[2..][1..] == s[3..];
    assert [] + "3" == "3";
    Stepped(s[2..], ScanState(a1, true, [], 0, []), ScanState(a1, true, "3", 0, []));
    assert s[3..][1..] == "1(01){5}";
    Stepped(s[3..], ScanState(a1, true, "3", 0, []), ScanState([ThreeZeros()], false, "3", 0, []));
  }

  lemma GroupText()
    ensures Run("1(01){5}", ScanState([ThreeZeros()], false, "3", 0, []))
         == Run("{5}", ScanState([ThreeZeros(), Once(1), ZeroOneGroup(1)], false, "3", 0, []))
  {
    GroupOpened();
    GroupClosed();
  }

  lemma GroupOpened()
    ensures Run("1(01){5}", ScanState([ThreeZeros()], false, "3", 0, []))
         == Run("1){5}", ScanState([ThreeZeros(), Once(1)], false, "3", 1, "0"))
  {
    var s := "1(01){5}";
    var a := [ThreeZeros(), Once(1)];
    assert DigitValue('1') == 1 && [ThreeZeros()] + [Once(1)] == a;
    Stepped(s, ScanState([ThreeZeros()], false, "3", 0, []), ScanState(a, false, "3", 0, []));
    assert s[1..][1..] == s[2..];
    Stepped(s[1..], ScanState(a, false, "3", 0, []), ScanState(a, false, "3", 1, []));
    assert s[2..][1..] == "1){5}";
    assert [] + "0" == "0";
    Stepped(s[2..], ScanState(a, false, "3", 1, []), ScanState(a, false, "3", 1, "0"));
  }

  lemma GroupClosed()
    ensures Run("1){5}", ScanState([ThreeZeros(), Once(1)], false, "3", 1, "0"))
         == Run("{5}", ScanState([ThreeZeros(), Once(1), ZeroOneGroup(1)], false, "3", 0, []))
  {
    var s := "1){5}";
    var a := [ThreeZeros(), Once(1)];
    assert "0" + "1" == "01";
    Stepped(s, ScanState(a, false, "3", 1, "0"), ScanState(a, false, "3", 1, "01"));
    assert s[1..][1..] == "{5}";
    ScanZeroOne();
    assert a + [ZeroOneGroup(1)] == [ThreeZeros(), Once(1), ZeroOneGroup(1)];
    Stepped(s[1..], ScanState(a, false, "3", 1, "01"), ScanState([ThreeZeros(), Once(1), ZeroOneGroup(1)], false, "3", 0, []));
  }

  lemma TailCount()
    ensures Run("{5}", ScanState([ThreeZeros(), Once(1), ZeroOneGroup(1)], false, "3", 0, []))
         == Ok(ScanState([ThreeZeros(), Once(1), ZeroOneGroup(35)], false, "35", 0, []))
  {
    var s := "{5}";
    var a := [ThreeZeros(), Once(1), ZeroOneGroup(1)];
    var b := [ThreeZeros(), Once(1), ZeroOneGroup(35)];
    assert Value("35") == 35 by { assert "35"[..1] == "3"; }
    assert SetLastQ(a, Finite(35)) == b;
    assert "3" + ['5'] == "35";
    Stepped(s, ScanState(a, false, "3", 0, []), ScanState(a, true, "3", 0, []));
    assert s[1..][1..] == s[2..];
    Stepped(s[1..], ScanState(a, true, "3", 0, []), ScanState(a, true, "35", 0, []));
    assert s[2..][1..] == [];
    Stepped(s[2..], ScanState(a, true, "35", 0, []), ScanState(b, false, "35", 0, []));
  }

  /** `1{}`: the scanner reaches the empty count (a panic in the crate); the grammar rejects the text. */
  lemma EmptyBraces()
    ensures Scan("1{}") == Err(EmptyCount)
    ensures ParseImex("1{}") == None
  {
    var s := "1{}";
    var a := [Atom(Single(1), Finite(1))];
    assert DigitValue('1') == 1 && Start.atoms + a == a;
    Stepped(s, Start, Start.(atoms := a));
    Stepped(s[1..], Start.(atoms := a), ScanState(a, true, [], 0, []));
    Failed(s[2..], ScanState(a, true, [], 0, []), EmptyCount);
    assert ParseQuantifier(s[1..]) == Some((Finite(1), s[1..])) by { QuantifierSpec(s[1..]); }
    assert ParseQIV(s) == Some((a[0], s[1..]));
    assert QIVUpTo(|s|)(s[1..]) == None;
    Many0Step(QIVUpTo(|s|), s, a[0], s[1..], [], s[1..]);
    assert [a[0]] + [] == a;
  }

  /** A count with nothing before it is rejected by both parsers. */
  lemma BadRepeatTargets()
    ensures Scan("*2") == Err(BadStarTarget) && ParseImex("*2") == None
    ensures Scan("{4}4") == Err(BadBraceTarget) && ParseImex("{4}4") == None
  {
    Failed("*2", Start, BadStarTarget);
    assert QIVUpTo(2)("*2") == None;
    var s := "{4}4";
    assert QIVUpTo(|s|)(s) == None;
    Stepped(s, Start, Start.(inBraces := true));
    assert s[1..][1..] == s[2..];
    assert Start.digits + ['4'] == "4";
    Stepped(s[1..], Start.(inBraces := true), Start.(inBraces := true, digits := "4"));
    Failed(s[2..], Start.(inBraces := true, digits := "4"), BadBraceTarget);
  }

  /** `Pattern::from("")` is one empty group, repeated once. */
  lemma EmptyPattern()
    ensures PatternFrom("") == Ok(Atom(Group([]), Finite(1)))
  {
  }
}
