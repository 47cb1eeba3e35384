/**
 * The character-by-character pattern scanner (`IMEx::from` in src/imex.rs,
 * `Pastex::from` in src/pastex.rs, `Zprex::from` in src/zprex.rs and
 * `Pattern::from` in src/pattern.rs, which are the same loop).
 *
 * The loop keeps five variables: the atoms read so far, whether it is inside
 * `{...}`, the digits read inside braces (never cleared), the parenthesis
 * depth and the text of the group being collected.  A group's text is
 * scanned recursively when its closing parenthesis is reached.
 */
module Scanner {
  import opened Wrappers
  import opened Quantifiers
  import opened Numerals
  import opened Syntax

  datatype ScanError =
    | BadChar(c: char)             // a character outside the pattern alphabet at depth 0
    | BadStarTarget                // `*` with no atom before it
    | BadBraceTarget               // `}` with no atom before it
    | NonDigitInBraces(c: char)    // anything but a digit or `}` inside braces
    | UnmatchedParen               // input ended inside parentheses
    | UnmatchedBrace               // input ended inside braces
    | EmptyCount                   // `{}`: the source panics parsing an empty count

  /** The loop variables between two characters. */
  datatype ScanState = ScanState(atoms: seq<Atom>, inBraces: bool, digits: string, depth: nat, inner: string)

  const Start := ScanState([], false, [], 0, [])

  /** The sequence with the quantifier of its last atom replaced (`sequence.last_mut()`). */
  function SetLastQ(atoms: seq<Atom>, q: Quantifier): seq<Atom>
    requires |atoms| > 0
  {
    atoms[..|atoms| - 1] + [Atom(atoms[|atoms| - 1].val, q)]
  }

  /** The effect of one character read at depth 0 (inside or outside braces). */
  function TopStep(c: char, st: ScanState): (r: Result<ScanState, ScanError>)
    requires AllDigits(st.digits)
    ensures r.Ok? ==> AllDigits(r.value.digits) && r.value.inner == st.inner
  {
    if st.inBraces then
      if IsDigit(c) then Ok(st.(digits := st.digits + [c]))
      else if c == '}' then
        if st.atoms == [] then Err(BadBraceTarget)
        else if st.digits == [] then Err(EmptyCount)
        else Ok(st.(atoms := SetLastQ(st.atoms, Finite(Value(st.digits))), inBraces := false))
      else Err(NonDigitInBraces(c))
    else if IsDigit(c) then Ok(st.(atoms := st.atoms + [Atom(Single(DigitValue(c)), Finite(1))]))
    else if c == '(' then Ok(st.(depth := 1))
    else if c == '{' then Ok(st.(inBraces := true))
    else if c == '*' then
      if st.atoms == [] then Err(BadStarTarget) else Ok(st.(atoms := SetLastQ(st.atoms, Infinite)))
    else Err(BadChar(c))
  }

  /** The effect of one character: the body of the scanning loop. */
  function Step(c: char, st: ScanState): (r: Result<ScanState, ScanError>)
    requires AllDigits(st.digits)
    ensures r.Ok? ==> AllDigits(r.value.digits) && |r.value.inner| <= |st.inner| + 1
    decreases |st.inner| + 1, 0
  {
    if st.depth > 0 then
      var depth := if c == '(' then st.depth + 1 else if c == ')' then st.depth - 1 else st.depth;
      if depth == 0 then
        match Scan(st.inner)
        case Err(e) => Err(e)
        case Ok(g) => Ok(st.(atoms := st.atoms + [Atom(Group(g), Finite(1))], depth := 0, inner := []))
      else Ok(st.(depth := depth, inner := st.inner + [c]))
    else
      TopStep(c, st)
  }

  /** The state after reading all of `t` from `st`, or the first error a character causes. */
  function Run(t: string, st: ScanState): (r: Result<ScanState, ScanError>)
    requires AllDigits(st.digits)
    ensures r.Ok? ==> AllDigits(r.value.digits)
    decreases |t| + |st.inner|, |t|
  {
    if t == [] then Ok(st)
    else
      match Step(t[0], st)
      case Err(e) => Err(e)
      case Ok(st') => Run(t[1..], st')
  }

  /** The checks after the last character: unclosed parentheses or braces are errors. */
  function Finish(st: ScanState): (r: Result<seq<Atom>, ScanError>)
    ensures r.Ok? <==> st.depth == 0 && !st.inBraces
    ensures r.Ok? ==> r.value == st.atoms
    ensures st.depth > 0 ==> r == Err(UnmatchedParen)
  {
    if st.depth > 0 then Err(UnmatchedParen)
    else if st.inBraces then Err(UnmatchedBrace)
    else Ok(st.atoms)
  }

  /** The scanner's result on a whole pattern text. */
  function Scan(s: string): (r: Result<seq<Atom>, ScanError>)
    ensures s == [] ==> r == Ok([])
    decreases |s|, |s| + 1
  {
    match Run(s, Start)
    case Err(e) => Err(e)
    case Ok(st) => Finish(st)
  }

  /**
   * `Pattern::from` in src/pattern.rs: the same scan, with the atoms
   * wrapped in one top-level group repeated once.
   */
  function PatternFrom(s: string): (r: Result<Atom, ScanError>)
    ensures r.Ok? <==> Scan(s).Ok?
    ensures r.Ok? ==> r.value.val.Group? && r.value.q == Finite(1)
    ensures r.Ok? ==> r.value.val.atoms == Scan(s).value
  {
    match Scan(s)
    case Err(e) => Err(e)
    case Ok(atoms) => Ok(Atom(Group(atoms), Finite(1)))
  }

  /** `IMEx::from` (and its copies): the scanning loop itself. */
  method ScanPattern(s: string) returns (r: Result<seq<Atom>, ScanError>)
    ensures r == Scan(s)
    decreases |s|
  {
    var atoms: seq<Atom> := [];
    var inBraces := false;
    var digits: string := [];
    var depth: nat := 0;
    var inner: string := [];
    for i := 0 to |s|
      invariant AllDigits(digits)
      invariant |inner| <= i
      invariant Run(s, Start) == Run(s[i..], ScanState(atoms, inBraces, digits, depth, inner))
    {
      var c := s[i];
      assert s[i..][0] == c && s[i..][1..] == s[i + 1..];
      if depth > 0 {
        if c == '(' {
          depth := depth + 1;
        } else if c == ')' {
          depth := depth - 1;
        }
        if depth == 0 {
          var g := ScanPattern(inner);
          if g.Err? {
            return Err(g.error);
          }
          atoms := atoms + [Atom(Group(g.value), Finite(1))];
          inner := [];
        } else {
          inner := inner + [c];
        }
      } else if inBraces {
        if IsDigit(c) {
          digits := digits + [c];
        } else if c == '}' {
          if |atoms| > 0 {
            if digits == [] {
              return Err(EmptyCount);
            }
            atoms := atoms[..|atoms| - 1] + [Atom(atoms[|atoms| - 1].val, Finite(Value(digits)))];
            inBraces := false;
          } else {
            return Err(BadBraceTarget);
          }
        } else {
          return Err(NonDigitInBraces(c));
        }
      } else {
        if IsDigit(c) {
          atoms := atoms + [Atom(Single(DigitValue(c)), Finite(1))];
        } else if c == '(' {
          depth := depth + 1;
        } else if c == '{' {
          inBraces := true;
        } else if c == '*' {
          if |atoms| > 0 {
            atoms := atoms[..|atoms| - 1] + [Atom(atoms[|atoms| - 1].val, Infinite)];
          } else {
            return Err(BadStarTarget);
          }
        } else {
          return Err(BadChar(c));
        }
      }
    }
    if depth > 0 {
      r := Err(UnmatchedParen);
    } else if inBraces {
      r := Err(UnmatchedBrace);
    } else {
      r := Ok(atoms);
    }
  }
}

/** What the scanner's results are known to satisfy. */
module ScannerProperties {
  import opened Wrappers
  import opened Quantifiers
  import opened Numerals
  import opened Syntax
  import opened Scanner

  /** Change of parenthesis depth caused by one character. */
  function Delta(c: char): int
  {
    if c == '(' then 1 else if c == ')' then -1 else 0
  }

  /** Opening minus closing parentheses. */
  function Balance(s: string): int
  {
    if s == [] then 0 else Delta(s[0]) + Balance(s[1..])
  }

  /** The lowest balance of any prefix of `s` (the empty prefix included). */
  function LowestBalance(s: string): (r: int)
    ensures r <= 0
  {
    if s == [] then 0 else Min(0, Delta(s[0]) + LowestBalance(s[1..]))
  }

  /** Every parenthesis is matched: no prefix closes more than it opens, and the whole opens as many as it closes. */
  predicate ParensBalanced(s: string)
  {
    Balance(s) == 0 && LowestBalance(s) == 0
  }

  /** An accepted pattern contains only digits, parentheses, braces and stars. */
  lemma ScanAcceptsOnlyAlphabet(s: string)
    requires Scan(s).Ok?
    ensures forall k :: 0 <= k < |s| ==> InAlphabet(s[k])
  {
    RunAlphabet(s, Start);
  }

  /** A character read at depth zero without error belongs to the alphabet. */
  lemma TopStepAlphabet(c: char, st: ScanState)
    requires AllDigits(st.digits) && TopStep(c, st).Ok?
    ensures InAlphabet(c)
  {
  }

  /**
   * Reading `t` without error into a closed state means every character of
   * `t`, and the group text collected so far, is in the alphabet.
   */
  lemma {:induction false} RunAlphabet(t: string, st: ScanState)
    requires AllDigits(st.digits)
    requires Run(t, st).Ok? && Run(t, st).value.depth == 0
    ensures forall k :: 0 <= k < |t| ==> InAlphabet(t[k])
    ensures st.depth > 0 ==> forall k :: 0 <= k < |st.inner| ==> InAlphabet(st.inner[k])
    decreases |t| + |st.inner|, |t|
  {
    if t != [] {
      var st' := Step(t[0], st).value;
      RunAlphabet(t[1..], st');
      assert forall k :: 1 <= k < |t| ==> t[k] == t[1..][k - 1];
      if st.depth > 0 {
        if st'.depth == 0 {
          assert Scan(st.inner).Ok?;
          RunAlphabet(st.inner, Start);
        } else {
          assert st'.inner == st.inner + [t[0]];
          assert forall k :: 0 <= k < |st.inner| ==> st.inner[k] == st'.inner[k];
          assert t[0] == st'.inner[|st.inner|];
        }
      } else {
        TopStepAlphabet(t[0], st);
      }
    }
  }

  /** An accepted pattern has balanced parentheses. */
  lemma ScanAcceptsOnlyBalanced(s: string)
    requires Scan(s).Ok?
    ensures ParensBalanced(s)
  {
    RunBalanced(s, Start);
  }

  /** Reading without error tracks the parenthesis balance in the depth, which never goes below zero. */
  lemma {:induction false} RunBalanced(t: string, st: ScanState)
    requires AllDigits(st.digits)
    requires Run(t, st).Ok?
    ensures Run(t, st).value.depth == st.depth + Balance(t)
    ensures st.depth + LowestBalance(t) >= 0
    decreases |t|
  {
    if t != [] {
      RunBalanced(t[1..], Step(t[0], st).value);
    }
  }

  /** The digits held by the braces of a sequence of atoms. */
  function QuantifierDigits(q: Quantifier): (r: string)
    ensures AllDigits(r)
  {
    if Braced(q) then Decimal(q.n) else []
  }

  function BraceDigits(atoms: seq<Atom>): (r: string)
    ensures AllDigits(r)
  {
    if atoms == [] then [] else QuantifierDigits(atoms[0].q) + BraceDigits(atoms[1..])
  }

  lemma {:induction false} BalanceAppend(a: string, b: string)
    ensures Balance(a + b) == Balance(a) + Balance(b)
    ensures LowestBalance(a + b) == Min(LowestBalance(a), Balance(a) + LowestBalance(b))
  {
    if a == [] {
      assert a + b == b;
    } else {
      assert (a + b)[0] == a[0] && (a + b)[1..] == a[1..] + b;
      BalanceAppend(a[1..], b);
    }
  }

  lemma {:induction false} NoParensBalance(s: string)
    requires forall k :: 0 <= k < |s| ==> s[k] != '(' && s[k] != ')'
    ensures Balance(s) == 0 && LowestBalance(s) == 0
  {
    if s != [] {
      NoParensBalance(s[1..]);
    }
  }

  lemma QuantifierBalance(q: Quantifier)
    ensures Balance(PrintQ(q)) == 0 && LowestBalance(PrintQ(q)) == 0
  {
    var p := PrintQ(q);
    if q.Finite? && q.n != 1 {
      var d := Decimal(q.n);
      assert p == ['{'] + d + ['}'];
      assert forall k :: 0 <= k < |p| ==> p[k] == '{' || p[k] == '}' || IsDigit(p[k]);
    }
    NoParensBalance(p);
  }

  lemma ConcatBalanced(a: string, b: string)
    requires ParensBalanced(a) && ParensBalanced(b)
    ensures ParensBalanced(a + b)
  {
    BalanceAppend(a, b);
  }

  lemma WrapBalanced(w: string)
    requires ParensBalanced(w)
    ensures ParensBalanced(['('] + w + [')'])
  {
    BalanceAppend(w, [')']);
    assert ['('] + w + [')'] == ['('] + (w + [')']);
    BalanceAppend(['('], w + [')']);
  }

  /** The canonical text of an expression is a balanced parenthesis word. */
  lemma {:induction false} PrintBalanced(atoms: seq<Atom>)
    requires Printable(atoms)
    ensures ParensBalanced(Print(atoms))
    decreases AtomsSize(atoms), 1
  {
    if atoms != [] {
      SizeOfFirst(atoms);
      AtomBalanced(atoms[0]);
      PrintBalanced(atoms[1..]);
      ConcatBalanced(PrintAtom(atoms[0]), Print(atoms[1..]));
    }
  }

  lemma {:induction false} AtomBalanced(a: Atom)
    requires AtomInRange(a, 10)
    ensures ParensBalanced(PrintAtom(a))
    decreases AtomSize(a), 0
  {
    match a.val
    case Single(_) =>
      NoParensBalance(PrintVal(a.val));
      QuantifierBalance(a.q);
      ConcatBalanced(PrintVal(a.val), PrintQ(a.q));
    case Group(g) =>
      assert AtomsSize(g) < AtomSize(a);
      PrintBalanced(g);
      WrapBalanced(Print(g));
      QuantifierBalance(a.q);
      ConcatBalanced(PrintVal(a.val), PrintQ(a.q));
  }

  /** Reading `a + b` is reading `a`, then reading `b` from where `a` left off. */
  lemma {:induction false} RunAppend(a: string, b: string, st: ScanState)
    requires AllDigits(st.digits)
    ensures Run(a, st).Err? ==> Run(a + b, st) == Run(a, st)
    ensures Run(a, st).Ok? ==> Run(a + b, st) == Run(b, Run(a, st).value)
    decreases |a|
  {
    if a == [] {
      assert a + b == b;
    } else {
      assert (a + b)[0] == a[0] && (a + b)[1..] == a[1..] + b;
      if Step(a[0], st).Ok? {
        RunAppend(a[1..], b, Step(a[0], st).value);
      }
    }
  }

  /** Inside parentheses every character is collected as group text until the depth returns to zero. */
  lemma {:induction false} ParenPhase(w: string, st: ScanState)
    requires AllDigits(st.digits) && st.depth > 0
    requires st.depth + LowestBalance(w) > 0
    ensures st.depth + Balance(w) > 0
    ensures Run(w, st) == Ok(st.(depth := st.depth + Balance(w), inner := st.inner + w))
    decreases |w|
  {
    if w == [] {
      assert st.inner + w == st.inner;
    } else {
      var st' := st.(depth := st.depth + Delta(w[0]), inner := st.inner + [w[0]]);
      ParenPhase(w[1..], st');
      assert st'.inner + w[1..] == st.inner + w;
    }
  }

  /** Inside braces digits are appended to the count buffer. */
  lemma {:induction false} DigitsPhase(w: string, st: ScanState)
    requires AllDigits(st.digits) && AllDigits(w) && st.depth == 0 && st.inBraces
    ensures Run(w, st) == Ok(st.(digits := st.digits + w))
    decreases |w|
  {
    if w == [] {
      assert st.digits + w == st.digits;
    } else {
      DigitsPhase(w[1..], st.(digits := st.digits + [w[0]]));
      assert st.digits + [w[0]] + w[1..] == st.digits + w;
    }
  }

  /**
   * At depth zero outside braces, a character outside the alphabet is a
   * `BadChar` error, whatever follows.
   */
  lemma ForeignCharFails(c: char, t: string, st: ScanState)
    requires AllDigits(st.digits) && st.depth == 0 && !st.inBraces && !InAlphabet(c)
    ensures Run([c] + t, st) == Err(BadChar(c))
  {
    assert ([c] + t)[0] == c;
  }

  /**
   * At depth zero outside braces, a braced count holding anything but digits
   * before its `}` is a `NonDigitInBraces` error naming the first such character.
   */
  lemma NonDigitInBracesFails(w: string, c: char, t: string, st: ScanState)
    requires AllDigits(st.digits) && st.depth == 0 && !st.inBraces
    requires AllDigits(w) && !IsDigit(c) && c != '}'
    ensures Run("{" + w + [c] + t, st) == Err(NonDigitInBraces(c))
  {
    var s := "{" + w + [c] + t;
    var inside := st.(inBraces := true);
    assert s[0] == '{' && s[1..] == w + ([c] + t);
    DigitsPhase(w, inside);
    RunAppend(w, [c] + t, inside);
    assert ([c] + t)[0] == c;
  }

  /** A `*` with no atom before it is a `BadStarTarget` error. */
  lemma LeadingStarFails(t: string)
    ensures Scan("*" + t) == Err(BadStarTarget)
  {
    assert ("*" + t)[0] == '*';
    assert Step('*', Start) == Err(BadStarTarget);
    assert Run("*" + t, Start) == Err(BadStarTarget);
  }

  /** A braced count with no atom before it is a `BadBraceTarget` error. */
  lemma LeadingBracesFail(w: string, t: string)
    requires AllDigits(w)
    ensures Scan("{" + w + "}" + t) == Err(BadBraceTarget)
  {
    var s := "{" + w + "}" + t;
    var inside := Start.(inBraces := true);
    assert s[0] == '{' && s[1..] == w + ("}" + t);
    assert Run(s, Start) == Run(w + ("}" + t), inside);
    DigitsPhase(w, inside);
    RunAppend(w, "}" + t, inside);
    assert ("}" + t)[0] == '}';
    assert Step('}', inside.(digits := inside.digits + w)) == Err(BadBraceTarget);
    assert Run(s, Start) == Err(BadBraceTarget);
  }

  /** After any prefix read to depth zero outside braces, a foreign character makes the whole scan a `BadChar` error. */
  lemma ScanForeignChar(p: string, c: char, t: string)
    requires Run(p, Start).Ok? && Run(p, Start).value.depth == 0 && !Run(p, Start).value.inBraces
    requires !InAlphabet(c)
    ensures Scan(p + [c] + t) == Err(BadChar(c))
  {
    RunAppend(p, [c] + t, Start);
    assert p + [c] + t == p + ([c] + t);
    ForeignCharFails(c, t, Run(p, Start).value);
  }

  /** After any prefix read to depth zero outside braces, a non-digit inside the next braces makes the whole scan fail, naming it. */
  lemma ScanNonDigitInBraces(p: string, w: string, c: char, t: string)
    requires Run(p, Start).Ok? && Run(p, Start).value.depth == 0 && !Run(p, Start).value.inBraces
    requires AllDigits(w) && !IsDigit(c) && c != '}'
    ensures Scan(p + "{" + w + [c] + t) == Err(NonDigitInBraces(c))
  {
    RunAppend(p, "{" + w + [c] + t, Start);
    assert p + "{" + w + [c] + t == p + ("{" + w + [c] + t);
    NonDigitInBracesFails(w, c, t, Run(p, Start).value);
  }

  /** A state between two atoms at depth zero. */
  predicate Idle(st: ScanState)
  {
    AllDigits(st.digits) && st.depth == 0 && !st.inBraces && st.inner == []
  }

  /** Reading a canonical value appends it, with the default quantifier. */
  lemma {:induction false} ScanPrintedVal(v: Val, st: ScanState)
    requires ValInRange(v, 10) && (v.Group? ==> OneBracePerLevel(v.atoms))
    requires Idle(st)
    ensures Run(PrintVal(v), st) == Ok(st.(atoms := st.atoms + [Atom(v, Finite(1))]))
    decreases ValSize(v), 0
  {
    match v
    case Single(i) =>
      assert PrintVal(v) == [DigitChar(i)];
    case Group(g) =>
      ScanPrintRoundTrip(g);
      ScanPrintedGroup(g, st);
  }

  /** Reading a printed group whose body scans back to its atoms appends the group. */
  lemma ScanPrintedGroup(g: seq<Atom>, st: ScanState)
    requires Printable(g) && Idle(st) && Scan(Print(g)) == Ok(g)
    ensures Run(PrintVal(Group(g)), st) == Ok(st.(atoms := st.atoms + [Atom(Group(g), Finite(1))]))
  {
    var inner := Print(g);
    var open := st.(depth := 1);
    assert PrintVal(Group(g)) == ['('] + (inner + [')']);
    RunAppend(['('], inner + [')'], st);
    assert Run(['('], st) == Ok(open);
    PrintBalanced(g);
    ParenPhase(inner, open);
    assert open.inner + inner == inner;
    var closing := open.(inner := inner);
    RunAppend(inner, [')'], open);
    assert Run([')'], closing) == Ok(st.(atoms := st.atoms + [Atom(Group(g), Finite(1))]));
  }

  /** Reading a canonical quantifier retargets the last atom. */
  lemma ScanPrintedQuantifier(q: Quantifier, st: ScanState)
    requires AllDigits(st.digits) && st.depth == 0 && !st.inBraces
    requires |st.atoms| > 0 && st.atoms[|st.atoms| - 1].q == Finite(1)
    requires Braced(q) ==> st.digits == []
    ensures Run(PrintQ(q), st) == Ok(st.(atoms := SetLastQ(st.atoms, q), digits := st.digits + QuantifierDigits(q)))
  {
    if q.Infinite? {
      assert PrintQ(q) == ['*'];
      assert st.digits + [] == st.digits;
    } else if q.n == 1 {
      assert SetLastQ(st.atoms, q) == st.atoms;
      assert st.digits + [] == st.digits;
    } else {
      ScanPrintedBraces(q.n, st);
      assert q == Finite(q.n) && st.digits + QuantifierDigits(q) == Decimal(q.n);
    }
  }

  /** Reading `{n}` after an atom sets its count to `n` and leaves the digits of `n` in the buffer. */
  lemma ScanPrintedBraces(n: nat, st: ScanState)
    requires n != 1
    requires AllDigits(st.digits) && st.depth == 0 && !st.inBraces
    requires |st.atoms| > 0 && st.digits == []
    ensures Run(PrintQ(Finite(n)), st) == Ok(st.(atoms := SetLastQ(st.atoms, Finite(n)), digits := Decimal(n)))
  {
    var d := Decimal(n);
    var braces := st.(inBraces := true);
    assert PrintQ(Finite(n)) == ['{'] + (d + ['}']);
    RunAppend(['{'], d + ['}'], st);
    assert Run(['{'], st) == Ok(braces);
    DigitsPhase(d, braces);
    assert [] + d == d;
    RunAppend(d, ['}'], braces);
    ValueOfDecimal(n);
    var closing := braces.(digits := d);
    assert Run(['}'], closing) == Ok(closing.(atoms := SetLastQ(st.atoms, Finite(n)), inBraces := false));
  }

  /** Reading the canonical text of one atom appends it. */
  lemma ScanPrintedAtom(a: Atom, st: ScanState)
    requires AtomInRange(a, 10) && AtomOneBracePerLevel(a)
    requires Idle(st) && (Braced(a.q) ==> st.digits == [])
    ensures Run(PrintAtom(a), st) == Ok(st.(atoms := st.atoms + [a], digits := st.digits + QuantifierDigits(a.q)))
    decreases AtomSize(a), 1
  {
    RunAppend(PrintVal(a.val), PrintQ(a.q), st);
    ScanPrintedVal(a.val, st);
    var st1 := st.(atoms := st.atoms + [Atom(a.val, Finite(1))]);
    ScanPrintedQuantifier(a.q, st1);
    assert st1.atoms[..|st1.atoms| - 1] == st.atoms;
  }

  /** Reading the canonical text of atoms appends exactly those atoms. */
  lemma {:induction false} ScanPrintedAtoms(atoms: seq<Atom>, st: ScanState)
    requires Printable(atoms) && OneBracePerLevel(atoms)
    requires Idle(st) && (HasBrace(atoms) ==> st.digits == [])
    ensures Run(Print(atoms), st) == Ok(After(st, atoms))
    decreases AtomsSize(atoms), 2
  {
    if atoms == [] {
      assert st.atoms + atoms == st.atoms && st.digits + [] == st.digits;
    } else {
      SizeOfFirst(atoms);
      var st2 := After(st, [atoms[0]]);
      AfterFirst(atoms, st);
      ScanPrintedAtom(atoms[0], st);
      ScanPrintedAtoms(atoms[1..], st2);
      RunAppend(PrintAtom(atoms[0]), Print(atoms[1..]), st);
    }
  }

  /** The state after reading `atoms` from `st`. */
  function After(st: ScanState, atoms: seq<Atom>): ScanState
  {
    st.(atoms := st.atoms + atoms, digits := st.digits + BraceDigits(atoms))
  }

  /** What reading the first atom leaves for the rest. */
  lemma AfterFirst(atoms: seq<Atom>, st: ScanState)
    requires atoms != [] && Printable(atoms) && OneBracePerLevel(atoms)
    requires Idle(st) && (HasBrace(atoms) ==> st.digits == [])
    ensures AtomInRange(atoms[0], 10) && AtomOneBracePerLevel(atoms[0]) && (Braced(atoms[0].q) ==> st.digits == [])
    ensures Printable(atoms[1..]) && OneBracePerLevel(atoms[1..])
    ensures Idle(After(st, [atoms[0]])) && (HasBrace(atoms[1..]) ==> After(st, [atoms[0]]).digits == [])
    ensures After(st, [atoms[0]]) == st.(atoms := st.atoms + [atoms[0]], digits := st.digits + QuantifierDigits(atoms[0].q))
    ensures After(After(st, [atoms[0]]), atoms[1..]) == After(st, atoms)
    ensures Print(atoms) == PrintAtom(atoms[0]) + Print(atoms[1..])
  {
    AfterOne(atoms[0], st);
    AfterCons(atoms, st);
  }

  lemma AfterOne(a: Atom, st: ScanState)
    requires AllDigits(st.digits)
    ensures After(st, [a]) == st.(atoms := st.atoms + [a], digits := st.digits + QuantifierDigits(a.q))
    ensures AllDigits(After(st, [a]).digits)
  {
    var d := QuantifierDigits(a.q);
    assert BraceDigits([a]) == d by {
      assert [a][1..] == [];
      assert d + [] == d;
    }
    assert forall k :: 0 <= k < |st.digits + d| ==> (st.digits + d)[k] == if k < |st.digits| then st.digits[k] else d[k - |st.digits|];
  }

  lemma AfterCons(atoms: seq<Atom>, st: ScanState)
    requires atoms != []
    ensures After(After(st, [atoms[0]]), atoms[1..]) == After(st, atoms)
  {
    var tail := atoms[1..];
    var d := QuantifierDigits(atoms[0].q);
    AfterOne(atoms[0], st.(digits := []));
    assert BraceDigits([atoms[0]]) == d;
    assert st.atoms + [atoms[0]] + tail == st.atoms + atoms by {
      assert atoms == [atoms[0]] + tail;
    }
    assert st.digits + d + BraceDigits(tail) == st.digits + BraceDigits(atoms) by {
      assert BraceDigits(atoms) == d + BraceDigits(tail);
    }
  }

  /** The scanner reads back the canonical text of every expression with at most one braced count per level. */
  lemma ScanPrintRoundTrip(atoms: seq<Atom>)
    requires Printable(atoms) && OneBracePerLevel(atoms)
    ensures Scan(Print(atoms)) == Ok(atoms)
    decreases AtomsSize(atoms), 3
  {
    ScanPrintedAtoms(atoms, Start);
    assert [] + atoms == atoms;
  }
}
