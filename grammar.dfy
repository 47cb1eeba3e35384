/**
 * The combinator grammar of src/expression/parsers.rs (the quantifier
 * parsers are also those of src/expression/quantifier.rs), and what it
 * accepts: quantifiers, values, quantified values, groups up to their
 * closing parenthesis and whole expressions.
 */
module Grammar {
  import opened Wrappers
  import opened Quantifiers
  import opened Numerals
  import opened Syntax
  import opened Combinators

  /** `*` gives `Infinite`. */
  function ParseInfiniteQuantifier(s: string): (r: Option<(Quantifier, string)>)
    ensures r.Some? <==> s != [] && s[0] == '*'
    ensures r.Some? ==> r.value == (Infinite, s[1..])
  {
    match Char('*', s)
    case None => None
    case Some((_, rest)) =>
      assert rest == ([s[0]] + rest)[1..];
      Some((Infinite, rest))
  }

  /** `{digits}` gives `Finite` of their value; anything else is `Finite(1)`, consuming nothing. */
  function ParseFiniteQuantifier(s: string): (r: Option<(Quantifier, string)>)
    ensures r.Some? && r.value.0.Finite? && |r.value.1| <= |s|
    ensures (s == [] || s[0] != '{') ==> r.value == (Finite(1), s)
  {
    var braced := Opt(t => Delimited('{', Digit1, '}', t), s);
    match braced.value.0
    case Some(x) => Some((Finite(Value(x)), braced.value.1))
    case None => Some((Finite(1), braced.value.1))
  }

  function ParseQuantifier(s: string): (r: Option<(Quantifier, string)>)
    ensures r.Some? && |r.value.1| <= |s|
  {
    Alt(ParseInfiniteQuantifier, ParseFiniteQuantifier, s)
  }

  /** One digit is a source index. */
  function ParseSingle(s: string): (r: Option<(Val, string)>)
    ensures r.Some? <==> s != [] && IsDigit(s[0])
    ensures r.Some? ==> r.value == (Single(DigitValue(s[0])), s[1..])
    ensures r.Some? ==> |r.value.1| < |s|
  {
    match OneDigit(s)
    case None => None
    case Some((c, rest)) => Some((Single(DigitValue(c)), rest))
  }

  /** `(` followed by atoms up to and including the first unmatched `)`. */
  function ParseGroup(s: string): (r: Option<(Val, string)>)
    ensures r.Some? ==> |r.value.1| < |s|
    ensures r.Some? ==> s[0] == '(' && r.value.0.Group?
    decreases |s|, 1
  {
    match Char('(', s)
    case None => None
    case Some((_, rest)) =>
      match ParseInner(rest)
      case None => None
      case Some((atoms, rest')) => Some((Group(atoms), rest'))
  }

  function ParseVal(s: string): (r: Option<(Val, string)>)
    ensures r.Some? ==> |r.value.1| < |s|
    ensures r.Some? ==> (IsDigit(s[0]) <==> r.value.0.Single?)
    ensures r.Some? ==> (s[0] == '(' <==> r.value.0.Group?)
    decreases |s|, 2
  {
    Alt(ParseSingle, t requires |t| <= |s| => ParseGroup(t), s)
  }

  /** A value and its quantifier; it always consumes at least one character. */
  function ParseQIV(s: string): (r: Option<(Atom, string)>)
    ensures r.Some? ==> |r.value.1| < |s|
    ensures r.Some? ==> IsDigit(s[0]) || s[0] == '('
    decreases |s|, 3
  {
    match ParseVal(s)
    case None => None
    case Some((v, rest)) =>
      match ParseQuantifier(rest)
      case None => None
      case Some((q, rest')) => Some((Atom(v, q), rest'))
  }

  /** `ParseQIV` as a parser value, on inputs no longer than `bound`. */
  function QIVUpTo(bound: nat): Parser<Atom>
    decreases bound, 4
  {
    t requires |t| <= bound => ParseQIV(t)
  }

  /** `many_till(parse_quantified_imex_val, char(')'))`. */
  function ParseInner(s: string): (r: Option<(seq<Atom>, string)>)
    ensures r.Some? ==> |r.value.1| < |s|
    decreases |s|, 5
  {
    ManyTill(QIVUpTo(|s|), ')', s)
  }

  /** `all_consuming(many0(parse_quantified_imex_val))`. */
  function ParseImex(s: string): (r: Option<(seq<Atom>, string)>)
    ensures r.Some? ==> r.value.1 == []
  {
    AllConsuming(t requires |t| <= |s| => Many0(QIVUpTo(|s|), t), s)
  }
}

/** What the grammar accepts, and that it reads back every printed expression. */
module GrammarProperties {
  import opened Wrappers
  import opened Quantifiers
  import opened Numerals
  import opened Syntax
  import opened Combinators
  import opened Grammar
  import opened ScannerProperties

  /** `s` starts with `{`, at least one digit and `}`. */
  predicate BraceForm(s: string)
  {
    && |s| >= 1 && s[0] == '{'
    && var k := DigitRun(s[1..]);
       0 < k && k + 1 < |s| && s[k + 1] == '}'
  }

  /** The quantifier at the head of `s`, and what follows it, read directly off the characters. */
  function QuantifierAt(s: string): (Quantifier, string)
  {
    if s != [] && s[0] == '*' then (Infinite, s[1..])
    else if BraceForm(s) then
      var k := DigitRun(s[1..]);
      (Finite(Value(s[1..][..k])), s[k + 2..])
    else (Finite(1), s)
  }

  /**
   * The quantifier parser never fails: `*` first, then `{digits}`, and
   * otherwise (a malformed brace included) the default count, consuming nothing.
   */
  lemma QuantifierSpec(s: string)
    ensures ParseQuantifier(s) == Some(QuantifierAt(s))
  {
    if !(s != [] && s[0] == '*') {
      assert ParseInfiniteQuantifier(s) == None;
      if s != [] && s[0] == '{' {
        var k := DigitRun(s[1..]);
        if k > 0 {
          assert Digit1(s[1..]) == Some((s[1..][..k], s[1..][k..]));
          if BraceForm(s) {
            assert s[1..][k..][1..] == s[k + 2..];
          }
        }
      }
    }
  }

  /** A brace with a digit run that stops at a non-digit. */
  lemma {:induction false} DigitRunOf(d: string, rest: string)
    requires AllDigits(d)
    requires rest == [] || !IsDigit(rest[0])
    ensures DigitRun(d + rest) == |d|
  {
    if d != [] {
      assert (d + rest)[1..] == d[1..] + rest;
      DigitRunOf(d[1..], rest);
    } else {
      assert d + rest == rest;
    }
  }

  /** `{digits}` is read as `Finite` of the digits' value and consumed through the `}`. */
  lemma BracedCount(d: string, rest: string)
    requires |d| > 0 && AllDigits(d)
    ensures ParseQuantifier("{" + d + "}" + rest) == Some((Finite(Value(d)), rest))
  {
    var s := "{" + d + "}" + rest;
    assert ParseInfiniteQuantifier(s) == None;
    BracedDelimited(d, rest);
    assert Opt(t => Delimited('{', Digit1, '}', t), s) == Some((Some(d), rest));
  }

  /** `delimited(char('{'), digit1, char('}'))` reads a braced digit run whole. */
  lemma BracedDelimited(d: string, rest: string)
    requires |d| > 0 && AllDigits(d)
    ensures Delimited('{', Digit1, '}', "{" + d + "}" + rest) == Some((d, rest))
  {
    var s := "{" + d + "}" + rest;
    assert s[1..] == d + ("}" + rest);
    BracedDigits(d, "}" + rest);
    assert ("}" + rest)[1..] == rest;
  }

  /** `digit1` takes a digit run that stops at a non-digit. */
  lemma BracedDigits(d: string, rest: string)
    requires |d| > 0 && AllDigits(d) && rest != [] && !IsDigit(rest[0])
    ensures Digit1(d + rest) == Some((d, rest))
  {
    DigitRunOf(d, rest);
    assert (d + rest)[..|d|] == d && (d + rest)[|d|..] == rest;
  }

  /** Malformed braces are not a quantifier: they are left unread. */
  lemma MalformedBraces()
    ensures ParseQuantifier("{*5}") == Some((Finite(1), "{*5}"))
    ensures ParseQuantifier("{}") == Some((Finite(1), "{}"))
  {
    QuantifierSpec("{*5}");
    assert !IsDigit("{*5}"[1]);
    QuantifierSpec("{}");
  }

  /** A printed quantifier is read back when what follows cannot extend it. */
  predicate Follows(rest: string)
  {
    rest == [] || rest[0] == ')' || rest[0] == '(' || IsDigit(rest[0])
  }

  lemma PrintedQuantifier(q: Quantifier, rest: string)
    requires Follows(rest)
    ensures ParseQuantifier(PrintQ(q) + rest) == Some((q, rest))
  {
    if q == Finite(1) {
      assert PrintQ(q) + rest == rest;
      QuantifierSpec(rest);
    } else if q.Finite? {
      var d := Decimal(q.n);
      assert PrintQ(q) + rest == "{" + d + "}" + rest;
      BracedCount(d, rest);
      ValueOfDecimal(q.n);
    }
  }

  /** A printed expression starts with a digit or `(`, so it is never empty. */
  lemma PrintStart(atoms: seq<Atom>)
    requires Printable(atoms) && atoms != []
    ensures |Print(atoms)| > 0 && (IsDigit(Print(atoms)[0]) || Print(atoms)[0] == '(')
  {
    assert AtomInRange(atoms[0], 10);
    assert Print(atoms) == PrintVal(atoms[0].val) + PrintQ(atoms[0].q) + Print(atoms[1..]);
  }

  /** A printed quantified value is read back, whatever may follow it. */
  lemma {:induction false} PrintedAtom(a: Atom, rest: string)
    requires AtomInRange(a, 10) && Follows(rest)
    ensures ParseQIV(PrintAtom(a) + rest) == Some((a, rest))
    decreases AtomSize(a), 0
  {
    var tail := PrintQ(a.q) + rest;
    PrintedQuantifier(a.q, rest);
    assert PrintAtom(a) + rest == PrintVal(a.val) + tail;
    match a.val
    case Single(i) =>
      assert PrintVal(a.val) + tail == [DigitChar(i)] + tail;
      assert ParseVal(PrintVal(a.val) + tail) == Some((Single(i), tail));
    case Group(g) =>
      assert AtomSize(a) == AtomsSize(g) + 2;
      PrintedGroup(g, tail);
  }

  /** A printed group is read up to and including its closing parenthesis. */
  lemma {:induction false} PrintedGroup(g: seq<Atom>, tail: string)
    requires Printable(g)
    ensures ParseVal(PrintVal(Group(g)) + tail) == Some((Group(g), tail))
    decreases AtomsSize(g) + 1, 2
  {
    var s := PrintVal(Group(g)) + tail;
    assert s == "(" + Print(g) + ")" + tail;
    assert s[1..] == Print(g) + ")" + tail;
    PrintedTill(g, tail, |s[1..]|);
    assert ParseGroup(s) == Some((Group(g), tail));
    assert ParseSingle(s) == None;
  }

  /** `many_till` reads printed atoms up to the `)` that closes them. */
  lemma {:induction false} PrintedTill(atoms: seq<Atom>, tail: string, bound: nat)
    requires Printable(atoms) && |Print(atoms) + ")" + tail| <= bound
    ensures ManyTill(QIVUpTo(bound), ')', Print(atoms) + ")" + tail) == Some((atoms, tail))
    decreases AtomsSize(atoms), 2
  {
    var s := Print(atoms) + ")" + tail;
    if atoms == [] {
      assert s == ")" + tail;
    } else {
      SizeOfFirst(atoms);
      var rest := Print(atoms[1..]) + ")" + tail;
      PrintedTillHead(atoms, tail);
      PrintedTill(atoms[1..], tail, bound);
      ManyTillStep(QIVUpTo(bound), ')', s, atoms[0], rest, atoms[1..], tail);
      assert [atoms[0]] + atoms[1..] == atoms;
    }
  }

  /** Before its `)`, a printed atom sequence starts with its first atom, read back whole. */
  lemma {:induction false} PrintedTillHead(atoms: seq<Atom>, tail: string)
    requires Printable(atoms) && atoms != []
    ensures var rest := Print(atoms[1..]) + ")" + tail;
      && ParseQIV(Print(atoms) + ")" + tail) == Some((atoms[0], rest))
      && Char(')', Print(atoms) + ")" + tail).None?
      && |rest| < |Print(atoms) + ")" + tail|
    decreases AtomsSize(atoms), 1
  {
    SizeOfFirst(atoms);
    assert AtomSize(atoms[0]) <= AtomsSize(atoms);
    PrintedTillSplit(atoms, tail);
    PrintedAtom(atoms[0], Print(atoms[1..]) + ")" + tail);
  }

  /** The text of a printed atom sequence and its `)`: the first atom, then what may follow an atom. */
  lemma PrintedTillSplit(atoms: seq<Atom>, tail: string)
    requires Printable(atoms) && atoms != []
    ensures AtomInRange(atoms[0], 10)
    ensures Print(atoms) + ")" + tail == PrintAtom(atoms[0]) + (Print(atoms[1..]) + ")" + tail)
    ensures Follows(Print(atoms[1..]) + ")" + tail)
    ensures Char(')', Print(atoms) + ")" + tail).None?
  {
    assert AtomInRange(atoms[0], 10);
    if atoms[1..] != [] {
      PrintStart(atoms[1..]);
    }
    PrintStart(atoms);
  }

  /** `many0` reads a printed expression to its end. */
  lemma {:induction false} PrintedMany(atoms: seq<Atom>, bound: nat)
    requires Printable(atoms) && |Print(atoms)| <= bound
    ensures Many0(QIVUpTo(bound), Print(atoms)) == Some((atoms, []))
    decreases atoms
  {
    var s := Print(atoms);
    if atoms == [] {
      assert QIVUpTo(bound)(s) == None;
    } else {
      var rest := Print(atoms[1..]);
      assert AtomInRange(atoms[0], 10);
      assert s == PrintAtom(atoms[0]) + rest;
      if atoms[1..] != [] {
        PrintStart(atoms[1..]);
      }
      PrintedAtom(atoms[0], rest);
      PrintedMany(atoms[1..], bound);
      Many0Step(QIVUpTo(bound), s, atoms[0], rest, atoms[1..], []);
      assert [atoms[0]] + atoms[1..] == atoms;
    }
  }

  /** The grammar reads back every printed expression exactly. */
  lemma GrammarRoundTrip(atoms: seq<Atom>)
    requires Printable(atoms)
    ensures ParseImex(Print(atoms)) == Some((atoms, []))
  {
    PrintedMany(atoms, |Print(atoms)|);
  }

  /** `rest` is a suffix of `s`, and what lies before it is pattern text. */
  predicate ReadsAlphabet(s: string, rest: string)
  {
    && |rest| <= |s| && rest == s[|s| - |rest|..]
    && forall k :: 0 <= k < |s| - |rest| ==> InAlphabet(s[k])
  }

  lemma ReadsTrans(s: string, m: string, rest: string)
    requires ReadsAlphabet(s, m) && ReadsAlphabet(m, rest)
    ensures ReadsAlphabet(s, rest)
  {
    forall k | |s| - |m| <= k < |s| - |rest|
      ensures InAlphabet(s[k])
    {
      assert s[k] == m[k - (|s| - |m|)];
    }
  }

  lemma ReadsNothing(s: string)
    ensures ReadsAlphabet(s, s)
  {
  }

  lemma ReadsOne(s: string)
    requires s != [] && InAlphabet(s[0])
    ensures ReadsAlphabet(s, s[1..])
  {
  }

  lemma QuantifierReads(s: string)
    ensures ReadsAlphabet(s, ParseQuantifier(s).value.1)
  {
    QuantifierSpec(s);
    if !(s != [] && s[0] == '*') && BraceForm(s) {
      var k := DigitRun(s[1..]);
      forall j | 0 <= j < k + 2
        ensures InAlphabet(s[j])
      {
        if 0 < j <= k {
          assert s[j] == s[1..][..k][j - 1];
        }
      }
    }
  }

  /** Whatever a quantified value reads is pattern text. */
  lemma {:induction false} QIVReads(s: string)
    requires ParseQIV(s).Some?
    ensures ReadsAlphabet(s, ParseQIV(s).value.1)
    decreases |s|, 1
  {
    var rest := ParseVal(s).value.1;
    if ParseSingle(s).None? {
      assert ParseGroup(s) == ParseVal(s);
      GroupReads(s);
    } else {
      ReadsOne(s);
    }
    QuantifierReads(rest);
    ReadsTrans(s, rest, ParseQIV(s).value.1);
  }

  lemma {:induction false} GroupReads(s: string)
    requires ParseGroup(s).Some?
    ensures ReadsAlphabet(s, ParseGroup(s).value.1)
    decreases |s|, 0
  {
    assert s[0] == '(';
    TillReads(|s[1..]|, s[1..]);
    ReadsOne(s);
    ReadsTrans(s, s[1..], ParseGroup(s).value.1);
  }

  /** Whatever `many_till` reads up to its `)` is pattern text. */
  lemma {:induction false} TillReads(bound: nat, s: string)
    requires |s| <= bound && ManyTill(QIVUpTo(bound), ')', s).Some?
    ensures ReadsAlphabet(s, ManyTill(QIVUpTo(bound), ')', s).value.1)
    decreases |s|, 2
  {
    if Char(')', s).None? {
      var rest := ParseQIV(s).value.1;
      QIVReads(s);
      TillReads(bound, rest);
      ReadsTrans(s, rest, ManyTill(QIVUpTo(bound), ')', s).value.1);
    }
  }

  lemma {:induction false} Many0Reads(bound: nat, s: string)
    requires |s| <= bound && Many0(QIVUpTo(bound), s).Some?
    ensures ReadsAlphabet(s, Many0(QIVUpTo(bound), s).value.1)
    decreases |s|
  {
    if QIVUpTo(bound)(s).Some? {
      var rest := ParseQIV(s).value.1;
      QIVReads(s);
      Many0Reads(bound, rest);
      ReadsTrans(s, rest, Many0(QIVUpTo(bound), s).value.1);
    }
  }

  /** The grammar accepts only digits, parentheses, braces and stars. */
  lemma GrammarAcceptsOnlyAlphabet(s: string)
    requires ParseImex(s).Some?
    ensures forall k :: 0 <= k < |s| ==> InAlphabet(s[k])
  {
    Many0Reads(|s|, s);
  }

  /** `rest` is a suffix of `s`, and what lies before it has balanced parentheses. */
  predicate ReadsBalanced(s: string, rest: string)
  {
    && |rest| <= |s| && rest == s[|s| - |rest|..]
    && ParensBalanced(s[..|s| - |rest|])
  }

  /**
   * `rest` is a suffix of `s`, and what lies before it is a group body with
   * balanced parentheses followed by the `)` that closes the group.
   */
  predicate ReadsGroupBody(s: string, rest: string)
  {
    && |rest| < |s| && rest == s[|s| - |rest|..]
    && s[|s| - |rest| - 1] == ')'
    && ParensBalanced(s[..|s| - |rest| - 1])
  }

  lemma BalancedTrans(s: string, m: string, rest: string)
    requires ReadsBalanced(s, m) && ReadsBalanced(m, rest)
    ensures ReadsBalanced(s, rest)
  {
    var i, j := |s| - |m|, |m| - |rest|;
    assert m[..j] == s[i..i + j];
    assert s[..i + j] == s[..i] + m[..j];
    ConcatBalanced(s[..i], m[..j]);
  }

  lemma BalancedThenClosed(s: string, m: string, rest: string)
    requires ReadsBalanced(s, m) && ReadsGroupBody(m, rest)
    ensures ReadsGroupBody(s, rest)
  {
    var i, j := |s| - |m|, |m| - |rest| - 1;
    assert m[..j] == s[i..i + j];
    assert s[..i + j] == s[..i] + m[..j];
    assert s[i + j] == m[j];
    ConcatBalanced(s[..i], m[..j]);
  }

  /** A quantifier holds no parenthesis. */
  lemma QuantifierBalanced(s: string)
    ensures ReadsBalanced(s, ParseQuantifier(s).value.1)
  {
    QuantifierSpec(s);
    var p := s[..|s| - |ParseQuantifier(s).value.1|];
    forall j | 0 <= j < |p|
      ensures p[j] != '(' && p[j] != ')'
    {
      if !(s != [] && s[0] == '*') && 0 < j < |p| - 1 {
        assert p[j] == s[1..][..DigitRun(s[1..])][j - 1];
      }
    }
    NoParensBalance(p);
  }

  /** Whatever a quantified value reads has balanced parentheses. */
  lemma {:induction false} QIVBalanced(s: string)
    requires ParseQIV(s).Some?
    ensures ReadsBalanced(s, ParseQIV(s).value.1)
    decreases |s|, 1
  {
    var rest := ParseVal(s).value.1;
    if ParseSingle(s).None? {
      assert ParseGroup(s) == ParseVal(s);
      GroupBalanced(s);
    } else {
      NoParensBalance(s[..1]);
    }
    QuantifierBalanced(rest);
    BalancedTrans(s, rest, ParseQIV(s).value.1);
  }

  /** A group reads `(`, a balanced body and the `)` that closes it. */
  lemma {:induction false} GroupBalanced(s: string)
    requires ParseGroup(s).Some?
    ensures ReadsBalanced(s, ParseGroup(s).value.1)
    decreases |s|, 0
  {
    var rest := ParseGroup(s).value.1;
    TillBalanced(|s[1..]|, s[1..]);
    var body := s[1..][..|s| - 1 - |rest| - 1];
    assert s[..|s| - |rest|] == ['('] + body + [')'];
    WrapBalanced(body);
  }

  /** `many_till` reads a balanced body and stops after the `)` that closes it. */
  lemma {:induction false} TillBalanced(bound: nat, s: string)
    requires |s| <= bound && ManyTill(QIVUpTo(bound), ')', s).Some?
    ensures ReadsGroupBody(s, ManyTill(QIVUpTo(bound), ')', s).value.1)
    decreases |s|, 2
  {
    if Char(')', s).Some? {
      NoParensBalance(s[..0]);
    } else {
      var rest := ParseQIV(s).value.1;
      QIVBalanced(s);
      TillBalanced(bound, rest);
      BalancedThenClosed(s, rest, ManyTill(QIVUpTo(bound), ')', s).value.1);
    }
  }

  lemma {:induction false} Many0Balanced(bound: nat, s: string)
    requires |s| <= bound && Many0(QIVUpTo(bound), s).Some?
    ensures ReadsBalanced(s, Many0(QIVUpTo(bound), s).value.1)
    decreases |s|
  {
    if QIVUpTo(bound)(s).Some? {
      var rest := ParseQIV(s).value.1;
      QIVBalanced(s);
      Many0Balanced(bound, rest);
      BalancedTrans(s, rest, Many0(QIVUpTo(bound), s).value.1);
    } else {
      NoParensBalance(s[..0]);
    }
  }

  /**
   * The grammar accepts only balanced parentheses: a `)` with no group
   * open is never read, and neither is a text that ends inside a group.
   */
  lemma GrammarAcceptsOnlyBalanced(s: string)
    requires ParseImex(s).Some?
    ensures ParensBalanced(s)
  {
    Many0Balanced(|s|, s);
    assert s[..|s|] == s;
  }

  /** A group body is read through the first `)` that closes more than the body opened. */
  lemma InnerClosesGroup(s: string)
    requires ParseInner(s).Some?
    ensures ReadsGroupBody(s, ParseInner(s).value.1)
  {
    TillBalanced(|s|, s);
  }

  /** A balanced body and a `)` close more than they open. */
  lemma ClosedBelowZero(body: string, rest: string)
    requires ParensBalanced(body)
    ensures LowestBalance(body + [')'] + rest) < 0
  {
    BalanceAppend(body, [')']);
    BalanceAppend(body + [')'], rest);
  }

  /** A group whose text never closes more than it opens is unclosed, and fails. */
  lemma UnclosedGroupFails(s: string)
    requires LowestBalance(s) == 0
    ensures ParseInner(s).None?
  {
    if ParseInner(s).Some? {
      var rest := ParseInner(s).value.1;
      InnerClosesGroup(s);
      var body := s[..|s| - |rest| - 1];
      assert s == body + [')'] + rest;
      ClosedBelowZero(body, rest);
    }
  }

  /** What `many0` leaves unread: quantified values are read from the front while one parses. */
  function Leftover(s: string): (r: string)
    ensures |r| <= |s|
    decreases |s|
  {
    if ParseQIV(s).Some? then Leftover(ParseQIV(s).value.1) else s
  }

  /** `many0` over quantified values stops exactly where `Leftover` does, whatever its bound. */
  lemma {:induction false} Many0Leftover(bound: nat, s: string)
    requires |s| <= bound
    ensures Many0(QIVUpTo(bound), s).Some?
    ensures Many0(QIVUpTo(bound), s).value.1 == Leftover(s)
    decreases |s|
  {
    if ParseQIV(s).Some? {
      Many0Leftover(bound, ParseQIV(s).value.1);
    }
  }

  /** The grammar accepts a text exactly when quantified values read from its front reach its end. */
  lemma ImexAcceptsIffNoLeftover(s: string)
    ensures ParseImex(s).Some? <==> Leftover(s) == []
  {
    Many0Leftover(|s|, s);
  }

  /** A single digit and its quantifier are read, and reading goes on after them. */
  lemma LeftoverAfterDigit(d: char, rest: string)
    requires IsDigit(d)
    ensures Leftover([d] + rest) == Leftover(QuantifierAt(rest).1)
  {
    QuantifierSpec(rest);
    assert ([d] + rest)[1..] == rest;
    assert ParseVal([d] + rest) == Some((Single(DigitValue(d)), rest));
  }

  /** Reading stops at a character that starts no value. */
  lemma LeftoverStops(s: string)
    requires s != [] && !IsDigit(s[0]) && s[0] != '('
    ensures Leftover(s) == s
  {
    assert ParseSingle(s) == None && Char('(', s) == None;
    assert ParseVal(s) == None;
  }

  /** Reading stops at a group that does not parse. */
  lemma LeftoverStopsAtGroup(s: string)
    requires s != [] && s[0] == '(' && ParseInner(s[1..]).None?
    ensures Leftover(s) == s
  {
    assert ParseSingle(s) == None && Char('(', s) == Some(('(', s[1..]));
    assert ParseGroup(s) == None;
    assert ParseVal(s) == None;
  }

  /** A braced count is read through its `}`. */
  lemma BraceAt(d: string, rest: string)
    requires |d| > 0 && AllDigits(d)
    ensures QuantifierAt("{" + d + "}" + rest) == (Finite(Value(d)), rest)
  {
    BracedCount(d, rest);
    QuantifierSpec("{" + d + "}" + rest);
  }
}
