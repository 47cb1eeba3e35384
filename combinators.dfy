/**
 * The nom combinators the grammar of src/expression/parsers.rs is built
 * from, on character sequences.  A parser returns the value it recognised
 * and the rest of the input, or `None` for nom's recoverable error (the
 * grammar never produces an unrecoverable one).
 */
module Combinators {
  import opened Wrappers
  import opened Numerals

  type Parser<T> = string --> Option<(T, string)>

  /** `char(c)`: exactly the character `c`. */
  function Char(c: char, s: string): (r: Option<(char, string)>)
    ensures r.Some? <==> s != [] && s[0] == c
    ensures r.Some? ==> [r.value.0] + r.value.1 == s
  {
    if s != [] && s[0] == c then Some((c, s[1..])) else None
  }

  /** `one_of("0123456789")`: one decimal digit. */
  function OneDigit(s: string): (r: Option<(char, string)>)
    ensures r.Some? <==> s != [] && IsDigit(s[0])
    ensures r.Some? ==> IsDigit(r.value.0) && [r.value.0] + r.value.1 == s
  {
    if s != [] && IsDigit(s[0]) then Some((s[0], s[1..])) else None
  }

  /** Number of leading digits of `s`. */
  function DigitRun(s: string): (n: nat)
    ensures n <= |s| && AllDigits(s[..n])
    ensures n < |s| ==> !IsDigit(s[n])
  {
    if s != [] && IsDigit(s[0]) then
      var n := 1 + DigitRun(s[1..]);
      assert s[..n] == [s[0]] + s[1..][..n - 1];
      n
    else 0
  }

  /** `digit1`: the longest non-empty run of digits. */
  function Digit1(s: string): (r: Option<(string, string)>)
    ensures r.Some? <==> s != [] && IsDigit(s[0])
    ensures r.Some? ==> && |r.value.0| > 0 && AllDigits(r.value.0)
                        && r.value.0 + r.value.1 == s
                        && (r.value.1 == [] || !IsDigit(r.value.1[0]))
  {
    var n := DigitRun(s);
    if n == 0 then None
    else
      assert s[..n] + s[n..] == s;
      Some((s[..n], s[n..]))
  }

  /** `opt(p)`: `p`'s value if it succeeds, otherwise nothing and no input consumed; never fails. */
  function Opt<T>(p: Parser<T>, s: string): (r: Option<(Option<T>, string)>)
    requires p.requires(s)
    ensures r.Some?
    ensures p(s).None? ==> r.value == (None, s)
    ensures p(s).Some? ==> r.value == (Some(p(s).value.0), p(s).value.1)
  {
    match p(s)
    case None => Some((None, s))
    case Some((x, rest)) => Some((Some(x), rest))
  }

  /** `delimited(char(open), p, char(close))`: `p`'s value between two characters. */
  function Delimited<T>(open: char, p: Parser<T>, close: char, s: string): (r: Option<(T, string)>)
    requires s != [] ==> p.requires(s[1..])
    ensures r.Some? ==> s != [] && s[0] == open && p(s[1..]).Some? && p(s[1..]).value.0 == r.value.0
    ensures r.Some? ==> p(s[1..]).value.1 == [close] + r.value.1
  {
    match Char(open, s)
    case None => None
    case Some((_, s1)) =>
      match p(s1)
      case None => None
      case Some((x, s2)) =>
        match Char(close, s2)
        case None => None
        case Some((_, s3)) => Some((x, s3))
  }

  /** `alt((p, q))`: `p`, or `q` on the same input when `p` fails. */
  function Alt<T>(p: Parser<T>, q: Parser<T>, s: string): (r: Option<(T, string)>)
    requires p.requires(s) && q.requires(s)
    ensures p(s).Some? ==> r == p(s)
    ensures p(s).None? ==> r == q(s)
  {
    if p(s).Some? then p(s) else q(s)
  }

  /**
   * `many0(p)`: `p` as often as it succeeds.  As in nom, a success that
   * consumes nothing is an error, since repeating it would never end.
   */
  function Many0<T>(p: Parser<T>, s: string): (r: Option<(seq<T>, string)>)
    requires forall t :: |t| <= |s| ==> p.requires(t)
    ensures r.Some? ==> |r.value.1| <= |s|
    decreases |s|
  {
    match p(s)
    case None => Some(([], s))
    case Some((x, rest)) =>
      if |rest| >= |s| then None
      else
        match Many0(p, rest)
        case None => None
        case Some((xs, rest')) => Some(([x] + xs, rest'))
  }

  /**
   * `many_till(p, char(close))`: `p` until `close` can be read, which is
   * tried first each time and consumed; `p` failing, or succeeding without
   * consuming, before that is an error.
   */
  function ManyTill<T>(p: Parser<T>, close: char, s: string): (r: Option<(seq<T>, string)>)
    requires forall t :: |t| <= |s| ==> p.requires(t)
    ensures r.Some? ==> |r.value.1| < |s|
    decreases |s|
  {
    if Char(close, s).Some? then Some(([], s[1..]))
    else
      match p(s)
      case None => None
      case Some((x, rest)) =>
        if |rest| >= |s| then None
        else
          match ManyTill(p, close, rest)
          case None => None
          case Some((xs, rest')) => Some(([x] + xs, rest'))
  }

  /** `all_consuming(p)`: `p`, provided it leaves no input. */
  function AllConsuming<T>(p: Parser<T>, s: string): (r: Option<(T, string)>)
    requires p.requires(s)
    ensures r.Some? <==> p(s).Some? && p(s).value.1 == []
    ensures r.Some? ==> r == p(s)
  {
    match p(s)
    case Some((x, rest)) => if rest == [] then Some((x, rest)) else None
    case None => None
  }

  /** One successful step of `many0`. */
  lemma Many0Step<T>(p: Parser<T>, s: string, x: T, rest: string, xs: seq<T>, last: string)
    requires forall t :: |t| <= |s| ==> p.requires(t)
    requires p(s) == Some((x, rest)) && |rest| < |s|
    requires Many0(p, rest) == Some((xs, last))
    ensures Many0(p, s) == Some(([x] + xs, last))
  {
  }

  /** One successful step of `many_till`, before the closing character. */
  lemma ManyTillStep<T>(p: Parser<T>, close: char, s: string, x: T, rest: string, xs: seq<T>, last: string)
    requires forall t :: |t| <= |s| ==> p.requires(t)
    requires Char(close, s).None?
    requires p(s) == Some((x, rest)) && |rest| < |s|
    requires ManyTill(p, close, rest) == Some((xs, last))
    ensures ManyTill(p, close, s) == Some(([x] + xs, last))
  {
  }
}
