/**
 * The crate's rejection tests: texts that both parsers refuse (the
 * recursive descent equals the grammar on every input, so it refuses them
 * too), and the texts on which the scanner accepts what the grammar refuses.
 */
module ParserRejections {
  import opened Wrappers
  import opened Quantifiers
  import opened Numerals
  import opened Syntax
  import opened Scanner
  import opened ScannerProperties
  import opened Combinators
  import opened Grammar
  import opened GrammarProperties
  import opened ParserAgreement

  /** One character of a scan, when it does not fail. */
  lemma StepOn(c: char, rest: string, st: ScanState, st': ScanState)
    requires AllDigits(st.digits) && Step(c, st) == Ok(st')
    ensures Run([c] + rest, st) == Run(rest, st')
  {
    assert ([c] + rest)[1..] == rest;
  }

  /** One character of a scan, when it fails. */
  lemma FailOn(c: char, rest: string, st: ScanState, e: ScanError)
    requires AllDigits(st.digits) && Step(c, st) == Err(e)
    ensures Run([c] + rest, st) == Err(e)
  {
  }

  /** A `}` with no brace open is a foreign character to the scanner. */
  lemma ScanStrayBrace()
    ensures Scan("0{1}2}3{4}5") == Err(BadChar('}'))
  {
    ScanStrayBracePart1();
    ScanStrayBracePart2();
    ScanStrayBracePart3();
  }

  lemma ScanStrayBracePart1()
    ensures Run("0{1}2}3{4}5", ScanState([], false, "", 0, "")) == Run("1}2}3{4}5", ScanState([Atom(Single(0), Finite(1))], true, "", 0, ""))
  {
    var a1 := [Atom(Single(0), Finite(1))];
    assert Run("0{1}2}3{4}5", ScanState([], false, "", 0, "")) == Run("{1}2}3{4}5", ScanState(a1, false, "", 0, "")) by {
      assert DigitValue('0') == 0 && [] + [Atom(Single(0), Finite(1))] == a1;
      assert "0{1}2}3{4}5" == ['0'] + "{1}2}3{4}5";
      StepOn('0', "{1}2}3{4}5", ScanState([], false, "", 0, ""), ScanState(a1, false, "", 0, ""));
    }
    assert Run("{1}2}3{4}5", ScanState(a1, false, "", 0, "")) == Run("1}2}3{4}5", ScanState(a1, true, "", 0, "")) by {
      assert "{1}2}3{4}5" == ['{'] + "1}2}3{4}5";
      StepOn('{', "1}2}3{4}5", ScanState(a1, false, "", 0, ""), ScanState(a1, true, "", 0, ""));
    }
  }

  lemma ScanStrayBracePart2()
    ensures Run("1}2}3{4}5", ScanState([Atom(Single(0), Finite(1))], true, "", 0, "")) == Run("2}3{4}5", ScanState([Atom(Single(0), Finite(1))], false, "1", 0, ""))
  {
    var a1 := [Atom(Single(0), Finite(1))];
    assert Run("1}2}3{4}5", ScanState(a1, true, "", 0, "")) == Run("}2}3{4}5", ScanState(a1, true, "1", 0, "")) by {
      assert "" + ['1'] == "1";
      assert "1}2}3{4}5" == ['1'] + "}2}3{4}5";
      StepOn('1', "}2}3{4}5", ScanState(a1, true, "", 0, ""), ScanState(a1, true, "1", 0, ""));
    }
    assert Run("}2}3{4}5", ScanState(a1, true, "1", 0, "")) == Run("2}3{4}5", ScanState(a1, false, "1", 0, "")) by {
      assert Value("1") == 1;
      assert SetLastQ(a1, Finite(1)) == a1;
      assert "}2}3{4}5" == ['}'] + "2}3{4}5";
      StepOn('}', "2}3{4}5", ScanState(a1, true, "1", 0, ""), ScanState(a1, false, "1", 0, ""));
    }
  }

  lemma ScanStrayBracePart3()
    ensures Run("2}3{4}5", ScanState([Atom(Single(0), Finite(1))], false, "1", 0, "")) == Err(BadChar('}'))
  {
    var a1 := [Atom(Single(0), Finite(1))];
    var a2 := [Atom(Single(0), Finite(1)), Atom(Single(2), Finite(1))];
    assert Run("2}3{4}5", ScanState(a1, false, "1", 0, "")) == Run("}3{4}5", ScanState(a2, false, "1", 0, "")) by {
      assert DigitValue('2') == 2 && a1 + [Atom(Single(2), Finite(1))] == a2;
      assert "2}3{4}5" == ['2'] + "}3{4}5";
      StepOn('2', "}3{4}5", ScanState(a1, false, "1", 0, ""), ScanState(a2, false, "1", 0, ""));
    }
    assert Run("}3{4}5", ScanState(a2, false, "1", 0, "")) == Err(BadChar('}')) by {
      assert "}3{4}5" == ['}'] + "3{4}5";
      FailOn('}', "3{4}5", ScanState(a2, false, "1", 0, ""), BadChar('}'));
    }
  }

  /** A `{` inside braces is not a digit; the count digits of the first brace are still held. */
  lemma ScanNestedBrace()
    ensures Scan("0{1}2{3{4}5") == Err(NonDigitInBraces('{'))
  {
    ScanNestedBracePart1();
    ScanNestedBracePart2();
    ScanNestedBracePart3();
    ScanNestedBracePart4();
  }

  lemma ScanNestedBracePart1()
    ensures Run("0{1}2{3{4}5", ScanState([], false, "", 0, "")) == Run("1}2{3{4}5", ScanState([Atom(Single(0), Finite(1))], true, "", 0, ""))
  {
    var a1 := [Atom(Single(0), Finite(1))];
    assert Run("0{1}2{3{4}5", ScanState([], false, "", 0, "")) == Run("{1}2{3{4}5", ScanState(a1, false, "", 0, "")) by {
      assert DigitValue('0') == 0 && [] + [Atom(Single(0), Finite(1))] == a1;
      assert "0{1}2{3{4}5" == ['0'] + "{1}2{3{4}5";
      StepOn('0', "{1}2{3{4}5", ScanState([], false, "", 0, ""), ScanState(a1, false, "", 0, ""));
    }
    assert Run("{1}2{3{4}5", ScanState(a1, false, "", 0, "")) == Run("1}2{3{4}5", ScanState(a1, true, "", 0, "")) by {
      assert "{1}2{3{4}5" == ['{'] + "1}2{3{4}5";
      StepOn('{', "1}2{3{4}5", ScanState(a1, false, "", 0, ""), ScanState(a1, true, "", 0, ""));
    }
  }

  lemma ScanNestedBracePart2()
    ensures Run("1}2{3{4}5", ScanState([Atom(Single(0), Finite(1))], true, "", 0, "")) == Run("2{3{4}5", ScanState([Atom(Single(0), Finite(1))], false, "1", 0, ""))
  {
    var a1 := [Atom(Single(0), Finite(1))];
    assert Run("1}2{3{4}5", ScanState(a1, true, "", 0, "")) == Run("}2{3{4}5", ScanState(a1, true, "1", 0, "")) by {
      assert "" + ['1'] == "1";
      assert "1}2{3{4}5" == ['1'] + "}2{3{4}5";
      StepOn('1', "}2{3{4}5", ScanState(a1, true, "", 0, ""), ScanState(a1, true, "1", 0, ""));
    }
    assert Run("}2{3{4}5", ScanState(a1, true, "1", 0, "")) == Run("2{3{4}5", ScanState(a1, false, "1", 0, "")) by {
      assert Value("1") == 1;
      assert SetLastQ(a1, Finite(1)) == a1;
      assert "}2{3{4}5" == ['}'] + "2{3{4}5";
      StepOn('}', "2{3{4}5", ScanState(a1, true, "1", 0, ""), ScanState(a1, false, "1", 0, ""));
    }
  }

  lemma ScanNestedBracePart3()
    ensures Run("2{3{4}5", ScanState([Atom(Single(0), Finite(1))], false, "1", 0, "")) == Run("3{4}5", ScanState([Atom(Single(0), Finite(1)), Atom(Single(2), Finite(1))], true, "1", 0, ""))
  {
    var a1 := [Atom(Single(0), Finite(1))];
    var a2 := [Atom(Single(0), Finite(1)), Atom(Single(2), Finite(1))];
    assert Run("2{3{4}5", ScanState(a1, false, "1", 0, "")) == Run("{3{4}5", ScanState(a2, false, "1", 0, "")) by {
      assert DigitValue('2') == 2 && a1 + [Atom(Single(2), Finite(1))] == a2;
      assert "2{3{4}5" == ['2'] + "{3{4}5";
      StepOn('2', "{3{4}5", ScanState(a1, false, "1", 0, ""), ScanState(a2, false, "1", 0, ""));
    }
    assert Run("{3{4}5", ScanState(a2, false, "1", 0, "")) == Run("3{4}5", ScanState(a2, true, "1", 0, "")) by {
      assert "{3{4}5" == ['{'] + "3{4}5";
      StepOn('{', "3{4}5", ScanState(a2, false, "1", 0, ""), ScanState(a2, true, "1", 0, ""));
    }
  }

  lemma ScanNestedBracePart4()
    ensures Run("3{4}5", ScanState([Atom(Single(0), Finite(1)), Atom(Single(2), Finite(1))], true, "1", 0, "")) == Err(NonDigitInBraces('{'))
  {
    var a2 := [Atom(Single(0), Finite(1)), Atom(Single(2), Finite(1))];
    assert Run("3{4}5", ScanState(a2, true, "1", 0, "")) == Run("{4}5", ScanState(a2, true, "13", 0, "")) by {
      assert "1" + ['3'] == "13";
      assert "3{4}5" == ['3'] + "{4}5";
      StepOn('3', "{4}5", ScanState(a2, true, "1", 0, ""), ScanState(a2, true, "13", 0, ""));
    }
    assert Run("{4}5", ScanState(a2, true, "13", 0, "")) == Err(NonDigitInBraces('{')) by {
      assert "{4}5" == ['{'] + "4}5";
      FailOn('{', "4}5", ScanState(a2, true, "13", 0, ""), NonDigitInBraces('{'));
    }
  }

  /** A text ending inside braces. */
  lemma ScanOpenBrace()
    ensures Scan("0{1}23{4}5{6") == Err(UnmatchedBrace)
  {
    ScanOpenBracePart1();
    ScanOpenBracePart2();
    ScanOpenBracePart3();
    ScanOpenBracePart4();
    ScanOpenBracePart5();
    ScanOpenBracePart6();
  }

  lemma ScanOpenBracePart1()
    ensures Run("0{1}23{4}5{6", ScanState([], false, "", 0, "")) == Run("1}23{4}5{6", ScanState([Atom(Single(0), Finite(1))], true, "", 0, ""))
  {
    var a1 := [Atom(Single(0), Finite(1))];
    assert Run("0{1}23{4}5{6", ScanState([], false, "", 0, "")) == Run("{1}23{4}5{6", ScanState(a1, false, "", 0, "")) by {
      assert DigitValue('0') == 0 && [] + [Atom(Single(0), Finite(1))] == a1;
      assert "0{1}23{4}5{6" == ['0'] + "{1}23{4}5{6";
      StepOn('0', "{1}23{4}5{6", ScanState([], false, "", 0, ""), ScanState(a1, false, "", 0, ""));
    }
    assert Run("{1}23{4}5{6", ScanState(a1, false, "", 0, "")) == Run("1}23{4}5{6", ScanState(a1, true, "", 0, "")) by {
      assert "{1}23{4}5{6" == ['{'] + "1}23{4}5{6";
      StepOn('{', "1}23{4}5{6", ScanState(a1, false, "", 0, ""), ScanState(a1, true, "", 0, ""));
    }
  }

  lemma ScanOpenBracePart2()
    ensures Run("1}23{4}5{6", ScanState([Atom(Single(0), Finite(1))], true, "", 0, "")) == Run("23{4}5{6", ScanState([Atom(Single(0), Finite(1))], false, "1", 0, ""))
  {
    var a1 := [Atom(Single(0), Finite(1))];
    assert Run("1}23{4}5{6", ScanState(a1, true, "", 0, "")) == Run("}23{4}5{6", ScanState(a1, true, "1", 0, "")) by {
      assert "" + ['1'] == "1";
      assert "1}23{4}5{6" == ['1'] + "}23{4}5{6";
      StepOn('1', "}23{4}5{6", ScanState(a1, true, "", 0, ""), ScanState(a1, true, "1", 0, ""));
    }
    assert Run("}23{4}5{6", ScanState(a1, true, "1", 0, "")) == Run("23{4}5{6", ScanState(a1, false, "1", 0, "")) by {
      assert Value("1") == 1;
      assert SetLastQ(a1, Finite(1)) == a1;
      assert "}23{4}5{6" == ['}'] + "23{4}5{6";
      StepOn('}', "23{4}5{6", ScanState(a1, true, "1", 0, ""), ScanState(a1, false, "1", 0, ""));
    }
  }

  lemma ScanOpenBracePart3()
    ensures Run("23{4}5{6", ScanState([Atom(Single(0), Finite(1))], false, "1", 0, "")) == Run("{4}5{6", ScanState([Atom(Single(0), Finite(1)), Atom(Single(2), Finite(1)), Atom(Single(3), Finite(1))], false, "1", 0, ""))
  {
    var a1 := [Atom(Single(0), Finite(1))];
    var a2 := [Atom(Single(0), Finite(1)), Atom(Single(2), Finite(1))];
    var a3 := [Atom(Single(0), Finite(1)), Atom(Single(2), Finite(1)), Atom(Single(3), Finite(1))];
    assert Run("23{4}5{6", ScanState(a1, false, "1", 0, "")) == Run("3{4}5{6", ScanState(a2, false, "1", 0, "")) by {
      assert DigitValue('2') == 2 && a1 + [Atom(Single(2), Finite(1))] == a2;
      assert "23{4}5{6" == ['2'] + "3{4}5{6";
      StepOn('2', "3{4}5{6", ScanState(a1, false, "1", 0, ""), ScanState(a2, false, "1", 0, ""));
    }
    assert Run("3{4}5{6", ScanState(a2, false, "1", 0, "")) == Run("{4}5{6", ScanState(a3, false, "1", 0, "")) by {
      assert DigitValue('3') == 3 && a2 + [Atom(Single(3), Finite(1))] == a3;
      assert "3{4}5{6" == ['3'] + "{4}5{6";
      StepOn('3', "{4}5{6", ScanState(a2, false, "1", 0, ""), ScanState(a3, false, "1", 0, ""));
    }
  }

  lemma ScanOpenBracePart4()
    ensures Run("{4}5{6", ScanState([Atom(Single(0), Finite(1)), Atom(Single(2), Finite(1)), Atom(Single(3), Finite(1))], false, "1", 0, "")) == Run("}5{6", ScanState([Atom(Single(0), Finite(1)), Atom(Single(2), Finite(1)), Atom(Single(3), Finite(1))], true, "14", 0, ""))
  {
    var a3 := [Atom(Single(0), Finite(1)), Atom(Single(2), Finite(1)), Atom(Single(3), Finite(1))];
    assert Run("{4}5{6", ScanState(a3, false, "1", 0, "")) == Run("4}5{6", ScanState(a3, true, "1", 0, "")) by {
      assert "{4}5{6" == ['{'] + "4}5{6";
      StepOn('{', "4}5{6", ScanState(a3, false, "1", 0, ""), ScanState(a3, true, "1", 0, ""));
    }
    assert Run("4}5{6", ScanState(a3, true, "1", 0, "")) == Run("}5{6", ScanState(a3, true, "14", 0, "")) by {
      assert "1" + ['4'] == "14";
      assert "4}5{6" == ['4'] + "}5{6";
      StepOn('4', "}5{6", ScanState(a3, true, "1", 0, ""), ScanState(a3, true, "14", 0, ""));
    }
  }

  lemma ScanOpenBracePart5()
    ensures Run("}5{6", ScanState([Atom(Single(0), Finite(1)), Atom(Single(2), Finite(1)), Atom(Single(3), Finite(1))], true, "14", 0, "")) == Run("{6", ScanState([Atom(Single(0), Finite(1)), Atom(Single(2), Finite(1)), Atom(Single(3), Finite(14)), Atom(Single(5), Finite(1))], false, "14", 0, ""))
  {
    var a3 := [Atom(Single(0), Finite(1)), Atom(Single(2), Finite(1)), Atom(Single(3), Finite(1))];
    var a4 := [Atom(Single(0), Finite(1)), Atom(Single(2), Finite(1)), Atom(Single(3), Finite(14))];
    var a5 := [Atom(Single(0), Finite(1)), Atom(Single(2), Finite(1)), Atom(Single(3), Finite(14)), Atom(Single(5), Finite(1))];
    assert Run("}5{6", ScanState(a3, true, "14", 0, "")) == Run("5{6", ScanState(a4, false, "14", 0, "")) by {
      assert Value("14") == 14 by { assert "14"[..1] == "1"; }
      assert SetLastQ(a3, Finite(14)) == a4;
      assert "}5{6" == ['}'] + "5{6";
      StepOn('}', "5{6", ScanState(a3, true, "14", 0, ""), ScanState(a4, false, "14", 0, ""));
    }
    assert Run("5{6", ScanState(a4, false, "14", 0, "")) == Run("{6", ScanState(a5, false, "14", 0, "")) by {
      assert DigitValue('5') == 5 && a4 + [Atom(Single(5), Finite(1))] == a5;
      assert "5{6" == ['5'] + "{6";
      StepOn('5', "{6", ScanState(a4, false, "14", 0, ""), ScanState(a5, false, "14", 0, ""));
    }
  }

  lemma ScanOpenBracePart6()
    ensures Run("{6", ScanState([Atom(Single(0), Finite(1)), Atom(Single(2), Finite(1)), Atom(Single(3), Finite(14)), Atom(Single(5), Finite(1))], false, "14", 0, "")) == Run("", ScanState([Atom(Single(0), Finite(1)), Atom(Single(2), Finite(1)), Atom(Single(3), Finite(14)), Atom(Single(5), Finite(1))], true, "146", 0, ""))
  {
    var a5 := [Atom(Single(0), Finite(1)), Atom(Single(2), Finite(1)), Atom(Single(3), Finite(14)), Atom(Single(5), Finite(1))];
    assert Run("{6", ScanState(a5, false, "14", 0, "")) == Run("6", ScanState(a5, true, "14", 0, "")) by {
      assert "{6" == ['{'] + "6";
      StepOn('{', "6", ScanState(a5, false, "14", 0, ""), ScanState(a5, true, "14", 0, ""));
    }
    assert Run("6", ScanState(a5, true, "14", 0, "")) == Run("", ScanState(a5, true, "146", 0, "")) by {
      assert "14" + ['6'] == "146";
      assert "6" == ['6'] + "";
      StepOn('6', "", ScanState(a5, true, "14", 0, ""), ScanState(a5, true, "146", 0, ""));
    }
  }

  /** The group `(3{)` holds an unclosed brace. */
  lemma ScanBraceAcrossParen()
    ensures Scan("(3{)}") == Err(UnmatchedBrace)
  {
    ScanBraceAcrossParenPart1();
    ScanBraceAcrossParenPart2();
  }

  lemma ScanBraceAcrossParenPart1()
    ensures Run("(3{)}", ScanState([], false, "", 0, "")) == Run("{)}", ScanState([], false, "", 1, "3"))
  {
    assert Run("(3{)}", ScanState([], false, "", 0, "")) == Run("3{)}", ScanState([], false, "", 1, "")) by {
      assert "(3{)}" == ['('] + "3{)}";
      StepOn('(', "3{)}", ScanState([], false, "", 0, ""), ScanState([], false, "", 1, ""));
    }
    assert Run("3{)}", ScanState([], false, "", 1, "")) == Run("{)}", ScanState([], false, "", 1, "3")) by {
      assert "" + ['3'] == "3";
      assert "3{)}" == ['3'] + "{)}";
      StepOn('3', "{)}", ScanState([], false, "", 1, ""), ScanState([], false, "", 1, "3"));
    }
  }

  lemma ScanBraceAcrossParenPart2()
    ensures Run("{)}", ScanState([], false, "", 1, "3")) == Err(UnmatchedBrace)
  {
    assert Run("{)}", ScanState([], false, "", 1, "3")) == Run(")}", ScanState([], false, "", 1, "3{")) by {
      assert "3" + ['{'] == "3{";
      assert "{)}" == ['{'] + ")}";
      StepOn('{', ")}", ScanState([], false, "", 1, "3"), ScanState([], false, "", 1, "3{"));
    }
    assert Run(")}", ScanState([], false, "", 1, "3{")) == Err(UnmatchedBrace) by {
      ScanInnerOpenBrace();
      assert ")}" == [')'] + "}";
      FailOn(')', "}", ScanState([], false, "", 1, "3{"), UnmatchedBrace);
    }
  }

  /** The text of the group `(3{)`. */
  lemma ScanInnerOpenBrace()
    ensures Scan("3{") == Err(UnmatchedBrace)
  {
    var a1 := [Atom(Single(3), Finite(1))];
    assert Run("3{", ScanState([], false, "", 0, "")) == Run("{", ScanState(a1, false, "", 0, "")) by {
      assert DigitValue('3') == 3 && [] + [Atom(Single(3), Finite(1))] == a1;
      assert "3{" == ['3'] + "{";
      StepOn('3', "{", ScanState([], false, "", 0, ""), ScanState(a1, false, "", 0, ""));
    }
    assert Run("{", ScanState(a1, false, "", 0, "")) == Run("", ScanState(a1, true, "", 0, "")) by {
      assert "{" == ['{'] + "";
      StepOn('{', "", ScanState(a1, false, "", 0, ""), ScanState(a1, true, "", 0, ""));
    }
  }

  /** A group starting with `*`: its text has no atom before the star. */
  lemma ScanStarInGroup()
    ensures Scan("(*4)") == Err(BadStarTarget)
  {
    ScanStarInGroupPart1();
    ScanStarInGroupPart2();
  }

  lemma ScanStarInGroupPart1()
    ensures Run("(*4)", ScanState([], false, "", 0, "")) == Run("4)", ScanState([], false, "", 1, "*"))
  {
    assert Run("(*4)", ScanState([], false, "", 0, "")) == Run("*4)", ScanState([], false, "", 1, "")) by {
      assert "(*4)" == ['('] + "*4)";
      StepOn('(', "*4)", ScanState([], false, "", 0, ""), ScanState([], false, "", 1, ""));
    }
    assert Run("*4)", ScanState([], false, "", 1, "")) == Run("4)", ScanState([], false, "", 1, "*")) by {
      assert "" + ['*'] == "*";
      assert "*4)" == ['*'] + "4)";
      StepOn('*', "4)", ScanState([], false, "", 1, ""), ScanState([], false, "", 1, "*"));
    }
  }

  lemma ScanStarInGroupPart2()
    ensures Run("4)", ScanState([], false, "", 1, "*")) == Err(BadStarTarget)
  {
    assert Run("4)", ScanState([], false, "", 1, "*")) == Run(")", ScanState([], false, "", 1, "*4")) by {
      assert "*" + ['4'] == "*4";
      assert "4)" == ['4'] + ")";
      StepOn('4', ")", ScanState([], false, "", 1, "*"), ScanState([], false, "", 1, "*4"));
    }
    assert Run(")", ScanState([], false, "", 1, "*4")) == Err(BadStarTarget) by {
      ScanInnerStar();
      assert ")" == [')'] + "";
      FailOn(')', "", ScanState([], false, "", 1, "*4"), BadStarTarget);
    }
  }

  /** The text of the group `(*4)`. */
  lemma ScanInnerStar()
    ensures Scan("*4") == Err(BadStarTarget)
  {
    assert Run("*4", ScanState([], false, "", 0, "")) == Err(BadStarTarget) by {
      assert "*4" == ['*'] + "4";
      FailOn('*', "4", ScanState([], false, "", 0, ""), BadStarTarget);
    }
  }

  /** A group starting with a brace. */
  lemma ScanBraceInGroup()
    ensures Scan("({6}6)") == Err(BadBraceTarget)
  {
    ScanBraceInGroupPart1();
    ScanBraceInGroupPart2();
    ScanBraceInGroupPart3();
  }

  lemma ScanBraceInGroupPart1()
    ensures Run("({6}6)", ScanState([], false, "", 0, "")) == Run("6}6)", ScanState([], false, "", 1, "{"))
  {
    assert Run("({6}6)", ScanState([], false, "", 0, "")) == Run("{6}6)", ScanState([], false, "", 1, "")) by {
      assert "({6}6)" == ['('] + "{6}6)";
      StepOn('(', "{6}6)", ScanState([], false, "", 0, ""), ScanState([], false, "", 1, ""));
    }
    assert Run("{6}6)", ScanState([], false, "", 1, "")) == Run("6}6)", ScanState([], false, "", 1, "{")) by {
      assert "" + ['{'] == "{";
      assert "{6}6)" == ['{'] + "6}6)";
      StepOn('{', "6}6)", ScanState([], false, "", 1, ""), ScanState([], false, "", 1, "{"));
    }
  }

  lemma ScanBraceInGroupPart2()
    ensures Run("6}6)", ScanState([], false, "", 1, "{")) == Run("6)", ScanState([], false, "", 1, "{6}"))
  {
    assert Run("6}6)", ScanState([], false, "", 1, "{")) == Run("}6)", ScanState([], false, "", 1, "{6")) by {
      assert "{" + ['6'] == "{6";
      assert "6}6)" == ['6'] + "}6)";
      StepOn('6', "}6)", ScanState([], false, "", 1, "{"), ScanState([], false, "", 1, "{6"));
    }
    assert Run("}6)", ScanState([], false, "", 1, "{6")) == Run("6)", ScanState([], false, "", 1, "{6}")) by {
      assert "{6" + ['}'] == "{6}";
      assert "}6)" == ['}'] + "6)";
      StepOn('}', "6)", ScanState([], false, "", 1, "{6"), ScanState([], false, "", 1, "{6}"));
    }
  }

  lemma ScanBraceInGroupPart3()
    ensures Run("6)", ScanState([], false, "", 1, "{6}")) == Err(BadBraceTarget)
  {
    assert Run("6)", ScanState([], false, "", 1, "{6}")) == Run(")", ScanState([], false, "", 1, "{6}6")) by {
      assert "{6}" + ['6'] == "{6}6";
      assert "6)" == ['6'] + ")";
      StepOn('6', ")", ScanState([], false, "", 1, "{6}"), ScanState([], false, "", 1, "{6}6"));
    }
    assert Run(")", ScanState([], false, "", 1, "{6}6")) == Err(BadBraceTarget) by {
      ScanInnerBrace();
      assert ")" == [')'] + "";
      FailOn(')', "", ScanState([], false, "", 1, "{6}6"), BadBraceTarget);
    }
  }

  /** The text of the group `({6}6)`. */
  lemma ScanInnerBrace()
    ensures Scan("{6}6") == Err(BadBraceTarget)
  {
    ScanInnerBracePart1();
    ScanInnerBracePart2();
  }

  lemma ScanInnerBracePart1()
    ensures Run("{6}6", ScanState([], false, "", 0, "")) == Run("}6", ScanState([], true, "6", 0, ""))
  {
    assert Run("{6}6", ScanState([], false, "", 0, "")) == Run("6}6", ScanState([], true, "", 0, "")) by {
      assert "{6}6" == ['{'] + "6}6";
      StepOn('{', "6}6", ScanState([], false, "", 0, ""), ScanState([], true, "", 0, ""));
    }
    assert Run("6}6", ScanState([], true, "", 0, "")) == Run("}6", ScanState([], true, "6", 0, "")) by {
      assert "" + ['6'] == "6";
      assert "6}6" == ['6'] + "}6";
      StepOn('6', "}6", ScanState([], true, "", 0, ""), ScanState([], true, "6", 0, ""));
    }
  }

  lemma ScanInnerBracePart2()
    ensures Run("}6", ScanState([], true, "6", 0, "")) == Err(BadBraceTarget)
  {
    assert Run("}6", ScanState([], true, "6", 0, "")) == Err(BadBraceTarget) by {
      assert "}6" == ['}'] + "6";
      FailOn('}', "6", ScanState([], true, "6", 0, ""), BadBraceTarget);
    }
  }

  /** A star inside braces. */
  lemma ScanStarInBrace()
    ensures Scan("5{*5}") == Err(NonDigitInBraces('*'))
  {
    ScanStarInBracePart1();
    ScanStarInBracePart2();
  }

  lemma ScanStarInBracePart1()
    ensures Run("5{*5}", ScanState([], false, "", 0, "")) == Run("*5}", ScanState([Atom(Single(5), Finite(1))], true, "", 0, ""))
  {
    var a1 := [Atom(Single(5), Finite(1))];
    assert Run("5{*5}", ScanState([], false, "", 0, "")) == Run("{*5}", ScanState(a1, false, "", 0, "")) by {
      assert DigitValue('5') == 5 && [] + [Atom(Single(5), Finite(1))] == a1;
      assert "5{*5}" == ['5'] + "{*5}";
      StepOn('5', "{*5}", ScanState([], false, "", 0, ""), ScanState(a1, false, "", 0, ""));
    }
    assert Run("{*5}", ScanState(a1, false, "", 0, "")) == Run("*5}", ScanState(a1, true, "", 0, "")) by {
      assert "{*5}" == ['{'] + "*5}";
      StepOn('{', "*5}", ScanState(a1, false, "", 0, ""), ScanState(a1, true, "", 0, ""));
    }
  }

  lemma ScanStarInBracePart2()
    ensures Run("*5}", ScanState([Atom(Single(5), Finite(1))], true, "", 0, "")) == Err(NonDigitInBraces('*'))
  {
    var a1 := [Atom(Single(5), Finite(1))];
    assert Run("*5}", ScanState(a1, true, "", 0, "")) == Err(NonDigitInBraces('*')) by {
      assert "*5}" == ['*'] + "5}";
      FailOn('*', "5}", ScanState(a1, true, "", 0, ""), NonDigitInBraces('*'));
    }
  }

  /** A star after a digit inside braces. */
  lemma ScanStarAfterDigitInBrace()
    ensures Scan("5{5*}") == Err(NonDigitInBraces('*'))
  {
    ScanStarAfterDigitInBracePart1();
    ScanStarAfterDigitInBracePart2();
  }

  lemma ScanStarAfterDigitInBracePart1()
    ensures Run("5{5*}", ScanState([], false, "", 0, "")) == Run("5*}", ScanState([Atom(Single(5), Finite(1))], true, "", 0, ""))
  {
    var a1 := [Atom(Single(5), Finite(1))];
    assert Run("5{5*}", ScanState([], false, "", 0, "")) == Run("{5*}", ScanState(a1, false, "", 0, "")) by {
      assert DigitValue('5') == 5 && [] + [Atom(Single(5), Finite(1))] == a1;
      assert "5{5*}" == ['5'] + "{5*}";
      StepOn('5', "{5*}", ScanState([], false, "", 0, ""), ScanState(a1, false, "", 0, ""));
    }
    assert Run("{5*}", ScanState(a1, false, "", 0, "")) == Run("5*}", ScanState(a1, true, "", 0, "")) by {
      assert "{5*}" == ['{'] + "5*}";
      StepOn('{', "5*}", ScanState(a1, false, "", 0, ""), ScanState(a1, true, "", 0, ""));
    }
  }

  lemma ScanStarAfterDigitInBracePart2()
    ensures Run("5*}", ScanState([Atom(Single(5), Finite(1))], true, "", 0, "")) == Err(NonDigitInBraces('*'))
  {
    var a1 := [Atom(Single(5), Finite(1))];
    assert Run("5*}", ScanState(a1, true, "", 0, "")) == Run("*}", ScanState(a1, true, "5", 0, "")) by {
      assert "" + ['5'] == "5";
      assert "5*}" == ['5'] + "*}";
      StepOn('5', "*}", ScanState(a1, true, "", 0, ""), ScanState(a1, true, "5", 0, ""));
    }
    assert Run("*}", ScanState(a1, true, "5", 0, "")) == Err(NonDigitInBraces('*')) by {
      assert "*}" == ['*'] + "}";
      FailOn('*', "}", ScanState(a1, true, "5", 0, ""), NonDigitInBraces('*'));
    }
  }

  /** A parenthesis inside braces. */
  lemma ScanParenInBrace()
    ensures Scan("6{(6)}") == Err(NonDigitInBraces('('))
  {
    ScanParenInBracePart1();
    ScanParenInBracePart2();
  }

  lemma ScanParenInBracePart1()
    ensures Run("6{(6)}", ScanState([], false, "", 0, "")) == Run("(6)}", ScanState([Atom(Single(6), Finite(1))], true, "", 0, ""))
  {
    var a1 := [Atom(Single(6), Finite(1))];
    assert Run("6{(6)}", ScanState([], false, "", 0, "")) == Run("{(6)}", ScanState(a1, false, "", 0, "")) by {
      assert DigitValue('6') == 6 && [] + [Atom(Single(6), Finite(1))] == a1;
      assert "6{(6)}" == ['6'] + "{(6)}";
      StepOn('6', "{(6)}", ScanState([], false, "", 0, ""), ScanState(a1, false, "", 0, ""));
    }
    assert Run("{(6)}", ScanState(a1, false, "", 0, "")) == Run("(6)}", ScanState(a1, true, "", 0, "")) by {
      assert "{(6)}" == ['{'] + "(6)}";
      StepOn('{', "(6)}", ScanState(a1, false, "", 0, ""), ScanState(a1, true, "", 0, ""));
    }
  }

  lemma ScanParenInBracePart2()
    ensures Run("(6)}", ScanState([Atom(Single(6), Finite(1))], true, "", 0, "")) == Err(NonDigitInBraces('('))
  {
    var a1 := [Atom(Single(6), Finite(1))];
    assert Run("(6)}", ScanState(a1, true, "", 0, "")) == Err(NonDigitInBraces('(')) by {
      assert "(6)}" == ['('] + "6)}";
      FailOn('(', "6)}", ScanState(a1, true, "", 0, ""), NonDigitInBraces('('));
    }
  }

  /** A brace inside braces. */
  lemma ScanBraceInBrace()
    ensures Scan("7{7{7}}") == Err(NonDigitInBraces('{'))
  {
    ScanBraceInBracePart1();
    ScanBraceInBracePart2();
  }

  lemma ScanBraceInBracePart1()
    ensures Run("7{7{7}}", ScanState([], false, "", 0, "")) == Run("7{7}}", ScanState([Atom(Single(7), Finite(1))], true, "", 0, ""))
  {
    var a1 := [Atom(Single(7), Finite(1))];
    assert Run("7{7{7}}", ScanState([], false, "", 0, "")) == Run("{7{7}}", ScanState(a1, false, "", 0, "")) by {
      assert DigitValue('7') == 7 && [] + [Atom(Single(7), Finite(1))] == a1;
      assert "7{7{7}}" == ['7'] + "{7{7}}";
      StepOn('7', "{7{7}}", ScanState([], false, "", 0, ""), ScanState(a1, false, "", 0, ""));
    }
    assert Run("{7{7}}", ScanState(a1, false, "", 0, "")) == Run("7{7}}", ScanState(a1, true, "", 0, "")) by {
      assert "{7{7}}" == ['{'] + "7{7}}";
      StepOn('{', "7{7}}", ScanState(a1, false, "", 0, ""), ScanState(a1, true, "", 0, ""));
    }
  }

  lemma ScanBraceInBracePart2()
    ensures Run("7{7}}", ScanState([Atom(Single(7), Finite(1))], true, "", 0, "")) == Err(NonDigitInBraces('{'))
  {
    var a1 := [Atom(Single(7), Finite(1))];
    assert Run("7{7}}", ScanState(a1, true, "", 0, "")) == Run("{7}}", ScanState(a1, true, "7", 0, "")) by {
      assert "" + ['7'] == "7";
      assert "7{7}}" == ['7'] + "{7}}";
      StepOn('7', "{7}}", ScanState(a1, true, "", 0, ""), ScanState(a1, true, "7", 0, ""));
    }
    assert Run("{7}}", ScanState(a1, true, "7", 0, "")) == Err(NonDigitInBraces('{')) by {
      assert "{7}}" == ['{'] + "7}}";
      FailOn('{', "7}}", ScanState(a1, true, "7", 0, ""), NonDigitInBraces('{'));
    }
  }

  /** A second star overwrites the first. */
  lemma ScanDoubleStar()
    ensures Scan("1**") == Ok([Atom(Single(1), Infinite)])
  {
    ScanDoubleStarPart1();
    ScanDoubleStarPart2();
  }

  lemma ScanDoubleStarPart1()
    ensures Run("1**", ScanState([], false, "", 0, "")) == Run("*", ScanState([Atom(Single(1), Infinite)], false, "", 0, ""))
  {
    var a1 := [Atom(Single(1), Finite(1))];
    var a2 := [Atom(Single(1), Infinite)];
    assert Run("1**", ScanState([], false, "", 0, "")) == Run("**", ScanState(a1, false, "", 0, "")) by {
      assert DigitValue('1') == 1 && [] + [Atom(Single(1), Finite(1))] == a1;
      assert "1**" == ['1'] + "**";
      StepOn('1', "**", ScanState([], false, "", 0, ""), ScanState(a1, false, "", 0, ""));
    }
    assert Run("**", ScanState(a1, false, "", 0, "")) == Run("*", ScanState(a2, false, "", 0, "")) by {
      assert SetLastQ(a1, Infinite) == a2;
      assert "**" == ['*'] + "*";
      StepOn('*', "*", ScanState(a1, false, "", 0, ""), ScanState(a2, false, "", 0, ""));
    }
  }

  lemma ScanDoubleStarPart2()
    ensures Run("*", ScanState([Atom(Single(1), Infinite)], false, "", 0, "")) == Run("", ScanState([Atom(Single(1), Infinite)], false, "", 0, ""))
  {
    var a2 := [Atom(Single(1), Infinite)];
    assert Run("*", ScanState(a2, false, "", 0, "")) == Run("", ScanState(a2, false, "", 0, "")) by {
      assert SetLastQ(a2, Infinite) == a2;
      assert "*" == ['*'] + "";
      StepOn('*', "", ScanState(a2, false, "", 0, ""), ScanState(a2, false, "", 0, ""));
    }
  }

  /** A star overwrites a braced count. */
  lemma ScanStarAfterBrace()
    ensures Scan("1{2}*") == Ok([Atom(Single(1), Infinite)])
  {
    ScanStarAfterBracePart1();
    ScanStarAfterBracePart2();
    ScanStarAfterBracePart3();
  }

  lemma ScanStarAfterBracePart1()
    ensures Run("1{2}*", ScanState([], false, "", 0, "")) == Run("2}*", ScanState([Atom(Single(1), Finite(1))], true, "", 0, ""))
  {
    var a1 := [Atom(Single(1), Finite(1))];
    assert Run("1{2}*", ScanState([], false, "", 0, "")) == Run("{2}*", ScanState(a1, false, "", 0, "")) by {
      assert DigitValue('1') == 1 && [] + [Atom(Single(1), Finite(1))] == a1;
      assert "1{2}*" == ['1'] + "{2}*";
      StepOn('1', "{2}*", ScanState([], false, "", 0, ""), ScanState(a1, false, "", 0, ""));
    }
    assert Run("{2}*", ScanState(a1, false, "", 0, "")) == Run("2}*", ScanState(a1, true, "", 0, "")) by {
      assert "{2}*" == ['{'] + "2}*";
      StepOn('{', "2}*", ScanState(a1, false, "", 0, ""), ScanState(a1, true, "", 0, ""));
    }
  }

  lemma ScanStarAfterBracePart2()
    ensures Run("2}*", ScanState([Atom(Single(1), Finite(1))], true, "", 0, "")) == Run("*", ScanState([Atom(Single(1), Finite(2))], false, "2", 0, ""))
  {
    var a1 := [Atom(Single(1), Finite(1))];
    var a2 := [Atom(Single(1), Finite(2))];
    assert Run("2}*", ScanState(a1, true, "", 0, "")) == Run("}*", ScanState(a1, true, "2", 0, "")) by {
      assert "" + ['2'] == "2";
      assert "2}*" == ['2'] + "}*";
      StepOn('2', "}*", ScanState(a1, true, "", 0, ""), ScanState(a1, true, "2", 0, ""));
    }
    assert Run("}*", ScanState(a1, true, "2", 0, "")) == Run("*", ScanState(a2, false, "2", 0, "")) by {
      assert Value("2") == 2;
      assert SetLastQ(a1, Finite(2)) == a2;
      assert "}*" == ['}'] + "*";
      StepOn('}', "*", ScanState(a1, true, "2", 0, ""), ScanState(a2, false, "2", 0, ""));
    }
  }

  lemma ScanStarAfterBracePart3()
    ensures Run("*", ScanState([Atom(Single(1), Finite(2))], false, "2", 0, "")) == Run("", ScanState([Atom(Single(1), Infinite)], false, "2", 0, ""))
  {
    var a2 := [Atom(Single(1), Finite(2))];
    var a3 := [Atom(Single(1), Infinite)];
    assert Run("*", ScanState(a2, false, "2", 0, "")) == Run("", ScanState(a3, false, "2", 0, "")) by {
      assert SetLastQ(a2, Infinite) == a3;
      assert "*" == ['*'] + "";
      StepOn('*', "", ScanState(a2, false, "2", 0, ""), ScanState(a3, false, "2", 0, ""));
    }
  }

  /** A group body fails at a character that neither starts a value nor closes the group. */
  lemma TillStuck(bound: nat, t: string)
    requires |t| <= bound && t != [] && !IsDigit(t[0]) && t[0] != '(' && t[0] != ')'
    ensures ManyTill(QIVUpTo(bound), ')', t) == None
  {
    LeftoverStops(t);
  }

  /** A brace with no digit run closed by `}` is no quantifier, and is left unread. */
  lemma NotBraced(t: string)
    requires t != [] && t[0] == '{' && !BraceForm(t)
    ensures QuantifierAt(t) == (Finite(1), t)
  {
  }

  /** Reading stops at a character that starts no value, so the text is refused. */
  lemma StopRejects(s: string)
    requires s != [] && !IsDigit(s[0]) && s[0] != '('
    ensures ParseImex(s) == None
  {
    LeftoverStops(s);
    ImexAcceptsIffNoLeftover(s);
  }

  /** A digit with a `{count}` quantifier is read whole, and the rest decides. */
  lemma SkipBracedRejects(d: char, k: string, rest: string)
    requires IsDigit(d) && |k| > 0 && AllDigits(k) && ParseImex(rest) == None
    ensures ParseImex([d] + ("{" + k + "}" + rest)) == None
  {
    BraceAt(k, rest);
    LeftoverAfterDigit(d, "{" + k + "}" + rest);
    ImexAcceptsIffNoLeftover(rest);
    ImexAcceptsIffNoLeftover([d] + ("{" + k + "}" + rest));
  }

  /** A digit followed by neither `*` nor `{` is read alone, and the rest decides. */
  lemma SkipPlainRejects(d: char, rest: string)
    requires IsDigit(d) && rest != [] && rest[0] != '*' && rest[0] != '{' && ParseImex(rest) == None
    ensures ParseImex([d] + rest) == None
  {
    LeftoverAfterDigit(d, rest);
    ImexAcceptsIffNoLeftover(rest);
    ImexAcceptsIffNoLeftover([d] + rest);
  }

  /** A brace whose digit run is followed by another `{` is no quantifier. */
  lemma BraceClosedLate(d: char, k: string, rest: string)
    requires IsDigit(d) && AllDigits(k) && rest != [] && rest[0] == '{'
    ensures ParseImex([d] + ("{" + k + rest)) == None
  {
    DigitRunOf(k, rest);
    assert ("{" + k + rest)[1..] == k + rest;
    StuckAtBrace(d, "{" + k + rest);
  }

  lemma GrammarStrayBrace()
    ensures ParseImex("0{1}2}3{4}5") == None
  {
    assert ParseImex("2}3{4}5") == None by {
      StopRejects("}3{4}5");
      assert "2}3{4}5" == ['2'] + "}3{4}5";
      SkipPlainRejects('2', "}3{4}5");
    }
    assert "0{1}2}3{4}5" == ['0'] + ("{" + "1" + "}" + "2}3{4}5");
    SkipBracedRejects('0', "1", "2}3{4}5");
  }

  lemma GrammarNestedBrace()
    ensures ParseImex("0{1}2{3{4}5") == None
  {
    assert ParseImex("2{3{4}5") == None by {
      assert "2{3{4}5" == ['2'] + ("{" + "3" + "{4}5");
      BraceClosedLate('2', "3", "{4}5");
    }
    assert "0{1}2{3{4}5" == ['0'] + ("{" + "1" + "}" + "2{3{4}5");
    SkipBracedRejects('0', "1", "2{3{4}5");
  }

  /** The tail of `0{1}23{4}5{6`: the last brace is never closed. */
  lemma OpenBraceTail()
    ensures ParseImex("3{4}5{6") == None
  {
    assert ParseImex("5{6") == None by {
      DigitRunOf("6", []);
      assert "{6"[1..] == "6" + [];
      assert "5{6" == ['5'] + "{6";
      StuckAtBrace('5', "{6");
    }
    assert "3{4}5{6" == ['3'] + ("{" + "4" + "}" + "5{6");
    SkipBracedRejects('3', "4", "5{6");
  }

  lemma GrammarOpenBrace()
    ensures ParseImex("0{1}23{4}5{6") == None
  {
    OpenBraceTail();
    assert ParseImex("23{4}5{6") == None by {
      assert "23{4}5{6" == ['2'] + "3{4}5{6";
      SkipPlainRejects('2', "3{4}5{6");
    }
    assert "0{1}23{4}5{6" == ['0'] + ("{" + "1" + "}" + "23{4}5{6");
    SkipBracedRejects('0', "1", "23{4}5{6");
  }

  lemma GrammarBraceAcrossParen()
    ensures ParseImex("(3{)}") == None
  {
    DigitRunOf([], ")}");
    assert "{)}"[1..] == [] + ")}";
    NotBraced("{)}");
    QuantifierSpec("{)}");
    assert "3{)}" == ['3'] + "{)}";
    assert ParseVal("3{)}") == Some((Single(3), "{)}"));
    assert ParseQIV("3{)}") == Some((Atom(Single(3), Finite(1)), "{)}"));
    TillStuck(4, "{)}");
    assert ParseInner("3{)}") == None;
    assert "(3{)}"[1..] == "3{)}";
    LeftoverStopsAtGroup("(3{)}");
    ImexAcceptsIffNoLeftover("(3{)}");
  }

  lemma GrammarStarInGroup()
    ensures ParseImex("(*4)") == None
  {
    TillStuck(3, "*4)");
    assert "(*4)"[1..] == "*4)";
    LeftoverStopsAtGroup("(*4)");
    ImexAcceptsIffNoLeftover("(*4)");
  }

  lemma GrammarBraceInGroup()
    ensures ParseImex("({6}6)") == None
  {
    TillStuck(5, "{6}6)");
    assert "({6}6)"[1..] == "{6}6)";
    LeftoverStopsAtGroup("({6}6)");
    ImexAcceptsIffNoLeftover("({6}6)");
  }

  /** A digit followed by a brace that is no quantifier: reading stops at the brace. */
  lemma StuckAtBrace(d: char, t: string)
    requires IsDigit(d) && t != [] && t[0] == '{' && !BraceForm(t)
    ensures ParseImex([d] + t) == None
  {
    NotBraced(t);
    LeftoverAfterDigit(d, t);
    LeftoverStops(t);
    ImexAcceptsIffNoLeftover([d] + t);
  }

  lemma GrammarStarInBrace()
    ensures ParseImex("5{*5}") == None
  {
    DigitRunOf([], "*5}");
    assert "{*5}"[1..] == [] + "*5}";
    assert "5{*5}" == ['5'] + "{*5}";
    StuckAtBrace('5', "{*5}");
  }

  lemma GrammarStarAfterDigitInBrace()
    ensures ParseImex("5{5*}") == None
  {
    DigitRunOf("5", "*}");
    assert "{5*}"[1..] == "5" + "*}";
    assert "5{5*}" == ['5'] + "{5*}";
    StuckAtBrace('5', "{5*}");
  }

  lemma GrammarParenInBrace()
    ensures ParseImex("6{(6)}") == None
  {
    DigitRunOf([], "(6)}");
    assert "{(6)}"[1..] == [] + "(6)}";
    assert "6{(6)}" == ['6'] + "{(6)}";
    StuckAtBrace('6', "{(6)}");
  }

  lemma GrammarBraceInBrace()
    ensures ParseImex("7{7{7}}") == None
  {
    DigitRunOf("7", "{7}}");
    assert "{7{7}}"[1..] == "7" + "{7}}";
    assert "7{7{7}}" == ['7'] + "{7{7}}";
    StuckAtBrace('7', "{7{7}}");
  }

  lemma GrammarDoubleStar()
    ensures ParseImex("1**") == None
  {
    QuantifierSpec("**");
    assert "1**" == ['1'] + "**";
    LeftoverAfterDigit('1', "**");
    LeftoverStops("*");
    ImexAcceptsIffNoLeftover("1**");
  }

  lemma GrammarStarAfterBrace()
    ensures ParseImex("1{2}*") == None
  {
    assert "1{2}*" == ['1'] + ("{" + "2" + "}" + "*");
    BraceAt("2", "*");
    LeftoverAfterDigit('1', "{" + "2" + "}" + "*");
    LeftoverStops("*");
    ImexAcceptsIffNoLeftover("1{2}*");
  }

  /** Both parsers reject any text whose parentheses do not balance. */
  lemma ParsersRejectUnbalanced(s: string)
    requires !ParensBalanced(s)
    ensures Scan(s).Err? && ParseImex(s).None?
  {
    if Scan(s).Ok? {
      ScanAcceptsOnlyBalanced(s);
    }
    if ParseImex(s).Some? {
      GrammarAcceptsOnlyBalanced(s);
    }
  }

  /** One `(` between two balanced texts is left open. */
  lemma OpenedOnce(a: string, b: string)
    requires ParensBalanced(a) && ParensBalanced(b)
    ensures Balance(a + ['('] + b) == 1
  {
    BalanceAppend(a, ['(']);
    BalanceAppend(a + ['('], b);
  }

  /** `0(1)2)3(4)5`: a `)` after the groups before it are closed. */
  lemma CloseAfterGroup()
    ensures Scan("0(1)2)3(4)5").Err? && ParseImex("0(1)2)3(4)5") == None
  {
    assert ParensBalanced("0(1)2");
    assert "0(1)2)3(4)5" == "0(1)2" + [')'] + "3(4)5";
    ClosedBelowZero("0(1)2", "3(4)5");
    ParsersRejectUnbalanced("0(1)2)3(4)5");
  }

  /** `0(1)2(3))`: a group closed twice. */
  lemma CloseGroupTwice()
    ensures Scan("0(1)2(3))").Err? && ParseImex("0(1)2(3))") == None
  {
    assert ParensBalanced("0(1)2(3)");
    assert "0(1)2(3))" == "0(1)2(3)" + [')'] + [];
    ClosedBelowZero("0(1)2(3)", []);
    ParsersRejectUnbalanced("0(1)2(3))");
  }

  /** `0(1)2(3(4)5`: a group left open around a closed one. */
  lemma InnerGroupOpen()
    ensures Scan("0(1)2(3(4)5").Err? && ParseImex("0(1)2(3(4)5") == None
  {
    assert ParensBalanced("0(1)2") && ParensBalanced("3(4)5");
    assert "0(1)2(3(4)5" == "0(1)2" + ['('] + "3(4)5";
    OpenedOnce("0(1)2", "3(4)5");
    ParsersRejectUnbalanced("0(1)2(3(4)5");
  }

  /** `((0)1(2)3`: an outer group never closed. */
  lemma OuterGroupOpen()
    ensures Scan("((0)1(2)3").Err? && ParseImex("((0)1(2)3") == None
  {
    assert ParensBalanced([]) && ParensBalanced("(0)1(2)3");
    assert "((0)1(2)3" == [] + ['('] + "(0)1(2)3";
    OpenedOnce([], "(0)1(2)3");
    ParsersRejectUnbalanced("((0)1(2)3");
  }

  /** `)(`: a `)` before any `(`. */
  lemma CloseBeforeOpen()
    ensures Scan(")(").Err? && ParseImex(")(") == None
  {
    assert ParensBalanced([]);
    assert ")(" == [] + [')'] + "(";
    ClosedBelowZero([], "(");
    ParsersRejectUnbalanced(")(");
  }

  /** `too_many_closed_parens_fails`: a `)` or `}` with nothing open before it. */
  lemma TooManyClosedParens()
    ensures Scan("0(1)2)3(4)5").Err? && ParseImex("0(1)2)3(4)5") == None
    ensures Scan("0{1}2}3{4}5") == Err(BadChar('}')) && ParseImex("0{1}2}3{4}5") == None
    ensures Scan("0(1)2(3))").Err? && ParseImex("0(1)2(3))") == None
  {
    CloseAfterGroup();
    ScanStrayBrace();
    GrammarStrayBrace();
    CloseGroupTwice();
  }

  /** `too_many_open_parens_fails`: a `(` or `{` left open. */
  lemma TooManyOpenParens()
    ensures Scan("0(1)2(3(4)5").Err? && ParseImex("0(1)2(3(4)5") == None
    ensures Scan("0{1}2{3{4}5") == Err(NonDigitInBraces('{')) && ParseImex("0{1}2{3{4}5") == None
    ensures Scan("0{1}23{4}5{6") == Err(UnmatchedBrace) && ParseImex("0{1}23{4}5{6") == None
    ensures Scan("((0)1(2)3").Err? && ParseImex("((0)1(2)3") == None
  {
    InnerGroupOpen();
    ScanNestedBrace();
    GrammarNestedBrace();
    ScanOpenBrace();
    GrammarOpenBrace();
    OuterGroupOpen();
  }

  /** `mismatched_parens_fails`: a `)` before its `(`, and a brace closed outside its group. */
  lemma MismatchedParens()
    ensures Scan(")(").Err? && ParseImex(")(") == None
    ensures Scan("(3{)}") == Err(UnmatchedBrace) && ParseImex("(3{)}") == None
  {
    CloseBeforeOpen();
    ScanBraceAcrossParen();
    GrammarBraceAcrossParen();
  }

  /** `bad_repeat_targets_fails`, the cases with a group or a brace: a count with no value before it. */
  lemma BadRepeatTargetsInGroups()
    ensures Scan("(*4)") == Err(BadStarTarget) && ParseImex("(*4)") == None
    ensures Scan("({6}6)") == Err(BadBraceTarget) && ParseImex("({6}6)") == None
    ensures Scan("5{*5}") == Err(NonDigitInBraces('*')) && ParseImex("5{*5}") == None
  {
    ScanStarInGroup();
    GrammarStarInGroup();
    ScanBraceInGroup();
    GrammarBraceInGroup();
    ScanStarInBrace();
    GrammarStarInBrace();
  }

  /** `bad_repeat_bracket_contents_fails`: only digits may stand between braces. */
  lemma BadRepeatBracketContents()
    ensures Scan("5{5*}") == Err(NonDigitInBraces('*')) && ParseImex("5{5*}") == None
    ensures Scan("6{(6)}") == Err(NonDigitInBraces('(')) && ParseImex("6{(6)}") == None
    ensures Scan("7{7{7}}") == Err(NonDigitInBraces('{')) && ParseImex("7{7{7}}") == None
  {
    ScanStarAfterDigitInBrace();
    GrammarStarAfterDigitInBrace();
    ScanParenInBrace();
    GrammarParenInBrace();
    ScanBraceInBrace();
    GrammarBraceInBrace();
  }

  /**
   * A second quantifier on the same value: the scanner lets the later one
   * overwrite the count, while the grammar reads one quantifier per value
   * and refuses the text.
   */
  lemma DoubleQuantifier()
    ensures Scan("1**") == Ok([Atom(Single(1), Infinite)]) && ParseImex("1**") == None
    ensures Scan("1{2}*") == Ok([Atom(Single(1), Infinite)]) && ParseImex("1{2}*") == None
  {
    ScanDoubleStar();
    GrammarDoubleStar();
    ScanStarAfterBrace();
    GrammarStarAfterBrace();
  }
}
