/**
 * The repetition count attached to every pattern atom.  The crate declares
 * three enums of this one shape (`Quantifier` twice, `Repeater` once); they
 * are the same datatype here.
 */
module Quantifiers {
  datatype Quantifier = Infinite | Finite(n: nat)

  /**
   * `Quantifier::next`: takes one repetition.  The flag says whether a
   * repetition was available (the source's `Some(())`), the second component
   * is the value that overwrites `*self`.
   */
  function Next(q: Quantifier): (r: (bool, Quantifier))
    ensures r.0 <==> q != Finite(0)
    ensures q.Infinite? <==> r.1.Infinite?
    ensures q.Finite? ==> r.1.n + (if r.0 then 1 else 0) == q.n
  {
    match q
    case Infinite => (true, Infinite)
    case Finite(n) => if n == 0 then (false, q) else (true, Finite(n - 1))
  }

  /** The flags returned by `k` successive calls of `next`, starting from `q`. */
  function Drain(q: Quantifier, k: nat): seq<bool>
    decreases k
  {
    if k == 0 then [] else [Next(q).0] + Drain(Next(q).1, k - 1)
  }

  /** A finite quantifier grants exactly `n` repetitions and then refuses forever. */
  lemma {:induction false} FiniteGrantsExactly(n: nat, extra: nat)
    ensures Drain(Finite(n), n + extra) == seq(n, _ => true) + seq(extra, _ => false)
  {
    if n == 0 {
      StaysExhausted(extra);
      assert seq(0, _ => true) == [];
    } else {
      FiniteGrantsExactly(n - 1, extra);
      assert seq(n, _ => true) == [true] + seq(n - 1, _ => true);
    }
  }

  /** `Finite(0)` refuses every call and never changes. */
  lemma {:induction false} StaysExhausted(k: nat)
    ensures Drain(Finite(0), k) == seq(k, _ => false)
  {
    if k > 0 {
      StaysExhausted(k - 1);
      assert seq(k, _ => false) == [false] + seq(k - 1, _ => false);
    }
  }

  /** An infinite quantifier grants every call. */
  lemma {:induction false} InfiniteGrantsAlways(k: nat)
    ensures Drain(Infinite, k) == seq(k, _ => true)
  {
    if k > 0 {
      InfiniteGrantsAlways(k - 1);
      assert seq(k, _ => true) == [true] + seq(k - 1, _ => true);
    }
  }
}
