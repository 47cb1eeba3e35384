/**
 * `impl Iterator for Quantifier` (src/quantifier.rs, and the same impl in
 * src/expression/quantifier.rs): the quantifier counting itself down in
 * place, with the crate's tests of it.
 */
module Countdowns {
  import opened Quantifiers

  /**
   * A quantifier used as an iterator (`impl Iterator for Quantifier`): each
   * `next` overwrites the value in place with the count that is left.
   */
  class Countdown {
    var q: Quantifier

    constructor (q: Quantifier)
      ensures this.q == q
    {
      this.q := q;
    }

    /** `next`: `Some(())` exactly when a repetition is left, and the count goes down by one. */
    method Next() returns (granted: bool)
      modifies this
      ensures (granted, q) == Quantifiers.Next(old(q))
    {
      match q
      case Infinite =>
        granted := true;
      case Finite(n) =>
        if n == 0 {
          granted := false;
        } else {
          q := Finite(n - 1);
          granted := true;
        }
    }
  }

  /** `Finite(3)` passes through `Finite(2)`, `Finite(1)` and `Finite(0)`, granting each time, then refuses. */
  method ThreeIteratesThrice() returns (grants: seq<bool>, states: seq<Quantifier>)
    ensures grants == [true, true, true, false]
    ensures states == [Finite(2), Finite(1), Finite(0), Finite(0)]
  {
    var r := new Countdown(Finite(3));
    grants, states := [], [];
    var i := 0;
    while i < 4
      invariant 0 <= i <= 4
      invariant r.q == Finite(if i < 3 then 3 - i else 0)
      invariant grants == seq(i, k requires 0 <= k < i => k < 3)
      invariant states == seq(i, k requires 0 <= k < i => Finite(if k < 2 then 2 - k else 0))
    {
      var g := r.Next();
      grants, states := grants + [g], states + [r.q];
      i := i + 1;
    }
  }

  /** `Finite(0)` refuses the first call. */
  method ZeroGivesNone() returns (granted: bool)
    ensures !granted
  {
    var r := new Countdown(Finite(0));
    granted := r.Next();
  }

  /** `Infinite` grants a hundred calls in a row, and is still `Infinite` after them. */
  method InfiniteIteratesALot() returns (grants: nat, last: Quantifier)
    ensures grants == 100 && last == Infinite
  {
    var r := new Countdown(Infinite);
    grants := 0;
    for i := 0 to 100
      invariant grants == i && r.q == Infinite
    {
      var g := r.Next();
      grants := grants + if g then 1 else 0;
    }
    last := r.q;
  }
}
