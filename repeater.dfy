/**
 * `Repeater::repeat` (src/repeater.rs): call an operation while it asks for
 * another round and the count allows one; an error from the operation ends
 * the loop at once.  The operation is a closure with its own state in the
 * crate; here it is the sequence of results it gives on its successive
 * calls, `op(k)` being the result of call number `k`.
 */
module Repeater {
  import opened Wrappers
  import opened Quantifiers

  /** A call result that asks for another round. */
  predicate Continues<E>(o: Result<bool, E>)
  {
    o.Ok? && o.value
  }

  /**
   * The loop returns after `calls` calls: every call but the last asked for
   * another round; it stopped because the last call did not, or because the
   * count was used up (never more than `n` calls for `Finite(n)`), and the
   * result is the last call's error if it had one.
   */
  method Repeat<E>(r: Quantifier, op: nat -> Result<bool, E>) returns (calls: nat, res: Result<(), E>)
    requires r.Infinite? ==> exists k :: !Continues(op(k))
    ensures r.Finite? ==> calls <= r.n
    ensures forall j :: 0 <= j < calls - 1 ==> Continues(op(j))
    ensures calls == 0 <==> r == Finite(0)
    ensures calls > 0 ==> !Continues(op(calls - 1)) || r == Finite(calls)
    ensures res.Err? <==> calls > 0 && op(calls - 1).Err?
    ensures res.Err? ==> res.error == op(calls - 1).error
  {
    ghost var bound: nat := if r.Infinite? then (var k: nat :| !Continues(op(k)); k) else 0;
    var repeat := true;
    var count: nat := 0;
    while repeat
      invariant r.Finite? ==> count <= r.n
      invariant r.Infinite? ==> count <= bound + 1 && (repeat ==> count <= bound)
      invariant repeat ==> forall j :: 0 <= j < count ==> Continues(op(j))
      invariant !repeat ==> count > 0 && op(count - 1) == Ok(false)
      invariant !repeat ==> forall j :: 0 <= j < count - 1 ==> Continues(op(j))
      decreases (if r.Finite? then r.n else bound + 1) - count + (if repeat then 1 else 0)
    {
      if r.Finite? && count >= r.n {
        break;
      }
      var o := op(count);
      if o.Err? {
        return count + 1, Err(o.error);
      }
      repeat := o.value;
      count := count + 1;
    }
    calls, res := count, Ok(());
  }

  /** An unbounded repeater calls until the first `false`: 100 rounds, then the stopping call. */
  method InfiniteRepeatsUntilFalse() returns (rounds: nat)
    ensures rounds == 100
  {
    var op: nat -> Result<bool, ()> := k => if k < 100 then Ok(true) else Ok(false);
    assert !Continues(op(100));
    var calls, res := Repeat(Infinite, op);
    assert !Continues(op(calls - 1));
    rounds := calls - 1;
  }

  /** A bounded repeater stops at its count even if the operation would go on. */
  method FiniteRepeatsUntilEndOfRange() returns (calls: nat)
    ensures calls == 10
  {
    var op: nat -> Result<bool, ()> := k => if k < 20 then Ok(true) else Ok(false);
    var res;
    calls, res := Repeat(Finite(10), op);
    assert Continues(op(calls - 1));
  }

  /** A bounded repeater also stops at the first `false`, which is counted as a call. */
  method FiniteRepeatsUntilFalse() returns (calls: nat)
    ensures calls == 6
  {
    var op: nat -> Result<bool, ()> := k => if k < 5 then Ok(true) else Ok(false);
    var res;
    assert !Continues(op(5));
    calls, res := Repeat(Finite(10), op);
  }

  /** With a zero count the operation is never called. */
  method FiniteZeroNeverRuns() returns (calls: nat)
    ensures calls == 0
  {
    var op: nat -> Result<bool, ()> := k => Ok(true);
    var res;
    calls, res := Repeat(Finite(0), op);
  }

  /** An error ends the loop at the call that raised it. */
  method ErrorStopsAtOnce() returns (calls: nat, res: Result<(), string>)
    ensures calls == 3 && res == Err("stop")
  {
    var op: nat -> Result<bool, string> := k => if k < 2 then Ok(true) else Err("stop");
    assert !Continues(op(2));
    calls, res := Repeat(Infinite, op);
  }
}
