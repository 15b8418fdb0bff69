/**
 * The windowed detection rules both rule files share: a FIFO of expiry times
 * per outcome, evicted from the front up to the current time before every new
 * entry is appended.  MaxAmountOfFailuresRule and FailurePercentRule behave the
 * same in the current and in the legacy rule hierarchy; their steps are
 * specified here once, as functions of the queues, and the rule classes of each
 * hierarchy are proved against them.
 */
module WindowRules {
  import opened Common

  predicate Sorted(q: seq<int>)
  {
    forall i, j :: 0 <= i < j < |q| ==> q[i] <= q[j]
  }

  /** Drops the timestamps at the front of the queue that are not later than `now`. */
  function Evict(q: seq<int>, now: int): (r: seq<int>)
    ensures |r| <= |q|
    ensures r == [] || r[0] > now
  {
    if |q| > 0 && q[0] <= now then Evict(q[1..], now) else q
  }

  /** Eviction removes a prefix of expired entries and keeps the rest as it was. */
  lemma {:induction false} EvictSuffix(q: seq<int>, now: int)
    ensures var r := Evict(q, now);
      && r == q[|q| - |r|..]
      && forall i :: 0 <= i < |q| - |r| ==> q[i] <= now
  {
    if |q| > 0 && q[0] <= now {
      EvictSuffix(q[1..], now);
    }
  }

  /** The entries of `q` that have not expired at `now`, in queue order: a reference for Evict. */
  function Live(q: seq<int>, now: int): seq<int>
  {
    if |q| == 0 then [] else (if q[0] > now then [q[0]] else []) + Live(q[1..], now)
  }

  /** On a queue kept in expiry order, evicting from the front removes exactly the expired entries. */
  lemma {:induction false} EvictIsLive(q: seq<int>, now: int)
    requires Sorted(q)
    ensures Evict(q, now) == Live(q, now)
  {
    if |q| > 0 {
      if q[0] <= now {
        EvictIsLive(q[1..], now);
      } else {
        AllLive(q, now);
      }
    }
  }

  lemma {:induction false} AllLive(q: seq<int>, now: int)
    requires forall i :: 0 <= i < |q| ==> q[i] > now
    ensures Live(q, now) == q
  {
    if |q| > 0 {
      AllLive(q[1..], now);
    }
  }

  /** Every queue entry is at most `bound`, the latest expiry handed out so far. */
  predicate Bounded(q: seq<int>, bound: int)
  {
    forall i :: 0 <= i < |q| ==> q[i] <= bound
  }

  lemma EvictKeepsOrder(q: seq<int>, now: int)
    requires Sorted(q)
    ensures Sorted(Evict(q, now))
  {
    EvictSuffix(q, now);
  }

  /** Appending an expiry no earlier than every entry keeps the queue sorted. */
  lemma AppendKeepsOrder(q: seq<int>, x: int)
    requires Sorted(q) && Bounded(q, x)
    ensures Sorted(q + [x]) && Bounded(q + [x], x)
  {
  }

  // ---------------------------------------------------------------------------
  // MaxAmountOfFailuresRule

  /**
   * One AddAndCheckIfTriggered of MaxAmountOfFailuresRule on its failure queue:
   * the queue afterwards and whether the rule triggered.
   */
  function MaxAmountAdd(failures: seq<int>, maxAllowed: UInt32, window: int, result: OperationResult, now: int): (seq<int>, bool)
  {
    if result != Failure then (failures, false)
    else
      var q := Evict(failures, now) + [now + window];
      if |q| >= maxAllowed then ([], true) else (q, false)
  }

  /** `{MaxTimesFailureAllowed} failures occured within {KeepOperationInPileTime}.` */
  function MaxAmountText(maxAllowed: UInt32, window: int): string
  {
    NatToString(maxAllowed) + " failures occured within " + TimeSpanText(window) + "."
  }

  /** A result other than Failure returns false and leaves the queue as it was, expired entries included. */
  lemma MaxAmountIgnoresOthers(failures: seq<int>, maxAllowed: UInt32, window: int, result: OperationResult, now: int)
    requires result != Failure
    ensures MaxAmountAdd(failures, maxAllowed, window, result, now) == (failures, false)
  {
  }

  /**
   * A failure triggers exactly when the failures still live at `now`, plus this
   * one, reach the threshold; a trigger empties the queue, otherwise the live
   * entries are kept and the new expiry is appended.
   */
  lemma MaxAmountFailure(failures: seq<int>, maxAllowed: UInt32, window: int, now: int)
    requires Sorted(failures)
    ensures var (q, triggered) := MaxAmountAdd(failures, maxAllowed, window, Failure, now);
      && (triggered <==> |Live(failures, now)| + 1 >= maxAllowed)
      && q == (if triggered then [] else Live(failures, now) + [now + window])
  {
    EvictIsLive(failures, now);
  }

  /**
   * The queue invariant: with a positive threshold the queue always holds fewer
   * entries than the threshold, sorted by expiry.
   */
  predicate MaxAmountInv(failures: seq<int>, maxAllowed: UInt32, bound: int)
  {
    maxAllowed >= 1 && |failures| < maxAllowed && Sorted(failures) && Bounded(failures, bound)
  }

  /** Every call preserves the invariant, as long as the clock does not run backwards and the window is fixed. */
  lemma MaxAmountKeepsInv(failures: seq<int>, maxAllowed: UInt32, window: int, result: OperationResult, now: int)
    requires MaxAmountInv(failures, maxAllowed, now + window)
    ensures MaxAmountInv(MaxAmountAdd(failures, maxAllowed, window, result, now).0, maxAllowed, now + window)
  {
    if result == Failure {
      var e := Evict(failures, now);
      EvictKeepsOrder(failures, now);
      EvictSuffix(failures, now);
      assert Bounded(e, now + window);
      AppendKeepsOrder(e, now + window);
    }
  }

  /** The invariant bound only grows with time. */
  lemma InvLater(failures: seq<int>, maxAllowed: UInt32, bound: int, later: int)
    requires MaxAmountInv(failures, maxAllowed, bound) && bound <= later
    ensures MaxAmountInv(failures, maxAllowed, later)
  {
  }

  // ---------------------------------------------------------------------------
  // FailurePercentRule

  /** The two queues after a FailurePercentRule step, and what the call returns or throws. */
  datatype PercentStep = PercentStep(successes: seq<int>, failures: seq<int>, outcome: Result<bool>)

  /** The trigger condition `total >= minimum && (double)failed / total * 100 >= percent`, in exact integer form. */
  predicate PercentReached(failed: nat, total: nat, maxPercent: UInt32, minimum: UInt32)
  {
    total >= minimum && 100 * failed >= Product(maxPercent, total)
  }

  function Product(a: nat, b: nat): nat
  {
    a * b
  }

  /**
   * One AddAndCheckIfTriggered of FailurePercentRule: both queues are evicted;
   * a Neutral result then throws ArgumentOutOfRangeException; otherwise the new
   * expiry joins its own queue and the rule triggers (clearing both) when the
   * window holds enough operations with a high enough share of failures.
   */
  function FailurePercentAdd(successes: seq<int>, failures: seq<int>, maxPercent: UInt32, minimum: UInt32,
                             window: int, result: OperationResult, now: int): PercentStep
  {
    var s := Evict(successes, now);
    var f := Evict(failures, now);
    if result == Neutral then PercentStep(s, f, Err(ArgumentOutOfRange))
    else
      var s' := if result == Success then s + [now + window] else s;
      var f' := if result == Failure then f + [now + window] else f;
      if PercentReached(|f'|, |s'| + |f'|, maxPercent, minimum) then PercentStep([], [], Ok(true))
      else PercentStep(s', f', Ok(false))
  }

  /** `{MaxFailurePercent}%  failures occured within {KeepOperationInPileTime}.` (two spaces, as written). */
  function PercentText(maxPercent: UInt32, window: int): string
  {
    NatToString(maxPercent) + "%  failures occured within " + TimeSpanText(window) + "."
  }

  /** The integer form agrees with the exact value of the ratio the source computes. */
  lemma PercentReachedIsRatio(failed: nat, total: nat, maxPercent: UInt32)
    requires total > 0
    ensures 100 * failed >= Product(maxPercent, total) <==> (failed as real) / (total as real) * 100.0 >= maxPercent as real
  {
    var t := total as real;
    var ratio := (failed as real) / t;
    assert ratio * t == failed as real;
    calc {
      ratio * 100.0 >= maxPercent as real;
    <==> { assert t > 0.0; }
      ratio * 100.0 * t >= (maxPercent as real) * t;
    <==>
      (failed as real) * 100.0 >= (maxPercent as real) * t;
    }
  }

  /** A Neutral result throws after the eviction; the evicted queues are what remains. */
  lemma PercentRejectsNeutral(successes: seq<int>, failures: seq<int>, maxPercent: UInt32, minimum: UInt32, window: int, now: int)
    ensures FailurePercentAdd(successes, failures, maxPercent, minimum, window, Neutral, now)
         == PercentStep(Evict(successes, now), Evict(failures, now), Err(ArgumentOutOfRange))
  {
  }

  /**
   * For a Success or a Failure, the rule triggers exactly when the live
   * operations plus this one reach the minimum and the live failures (plus this
   * one when it failed) reach the percentage; a trigger clears both queues.
   */
  lemma PercentTrigger(successes: seq<int>, failures: seq<int>, maxPercent: UInt32, minimum: UInt32,
                       window: int, result: OperationResult, now: int)
    requires result != Neutral && Sorted(successes) && Sorted(failures)
    ensures var step := FailurePercentAdd(successes, failures, maxPercent, minimum, window, result, now);
      var failed := |Live(failures, now)| + (if result == Failure then 1 else 0);
      var total := |Live(successes, now)| + |Live(failures, now)| + 1;
      && (step.outcome == Ok(true) <==> PercentReached(failed, total, maxPercent, minimum))
      && step.outcome.Ok?
      && (step.outcome == Ok(true) ==> step.successes == [] && step.failures == [])
  {
    EvictIsLive(successes, now);
    EvictIsLive(failures, now);
    assert |Live(successes, now)| == |Evict(successes, now)| && |Live(failures, now)| == |Evict(failures, now)|;
    PercentTriggerEvicted(successes, failures, maxPercent, minimum, window, result, now);
  }

  lemma PercentTriggerEvicted(successes: seq<int>, failures: seq<int>, maxPercent: UInt32, minimum: UInt32,
                              window: int, result: OperationResult, now: int)
    requires result != Neutral
    ensures var step := FailurePercentAdd(successes, failures, maxPercent, minimum, window, result, now);
      var failed := |Evict(failures, now)| + (if result == Failure then 1 else 0);
      var total := |Evict(successes, now)| + |Evict(failures, now)| + 1;
      && (step.outcome == Ok(true) <==> PercentReached(failed, total, maxPercent, minimum))
      && step.outcome.Ok?
      && (step.outcome == Ok(true) ==> step.successes == [] && step.failures == [])
  {
    var s, f := Evict(successes, now), Evict(failures, now);
    var x := now + window;
    var step := FailurePercentAdd(successes, failures, maxPercent, minimum, window, result, now);
    if result == Success {
      assert step == if PercentReached(|f|, |s + [x]| + |f|, maxPercent, minimum) then PercentStep([], [], Ok(true))
                     else PercentStep(s + [x], f, Ok(false));
      assert |s + [x]| + |f| == |s| + |f| + 1;
    } else {
      assert step == if PercentReached(|f + [x]|, |s| + |f + [x]|, maxPercent, minimum) then PercentStep([], [], Ok(true))
                     else PercentStep(s, f + [x], Ok(false));
      assert |f + [x]| == |f| + 1;
    }
  }

  /** Below the minimum number of operations the rule never triggers, even when every operation failed. */
  lemma PercentNeedsMinimum(successes: seq<int>, failures: seq<int>, maxPercent: UInt32, minimum: UInt32,
                            window: int, result: OperationResult, now: int)
    requires |Evict(successes, now)| + |Evict(failures, now)| + 1 < minimum
    ensures FailurePercentAdd(successes, failures, maxPercent, minimum, window, result, now).outcome != Ok(true)
  {
  }

  /** The queue one outcome goes to after a step: the evicted queue, with the new expiry when the outcome is its own. */
  function Appended(q: seq<int>, now: int, x: int, own: bool): seq<int>
  {
    if own then Evict(q, now) + [x] else Evict(q, now)
  }

  /** After a step each queue is empty or its evicted form, with the new expiry when the outcome was its own. */
  lemma PercentQueues(successes: seq<int>, failures: seq<int>, maxPercent: UInt32, minimum: UInt32,
                      window: int, result: OperationResult, now: int)
    ensures var step := FailurePercentAdd(successes, failures, maxPercent, minimum, window, result, now);
      && (step.successes == [] || step.successes == Appended(successes, now, now + window, result == Success))
      && (step.failures == [] || step.failures == Appended(failures, now, now + window, result == Failure))
  {
  }

  lemma AppendedKeepsOrder(q: seq<int>, now: int, x: int, own: bool)
    requires Sorted(q) && Bounded(q, x)
    ensures Sorted(Appended(q, now, x, own)) && Bounded(Appended(q, now, x, own), x)
  {
    EvictKeepsOrder(q, now);
    EvictSuffix(q, now);
    assert Bounded(Evict(q, now), x);
    AppendKeepsOrder(Evict(q, now), x);
  }

  /** Both queues stay sorted and bounded by the latest expiry. */
  lemma PercentKeepsOrder(successes: seq<int>, failures: seq<int>, maxPercent: UInt32, minimum: UInt32,
                          window: int, result: OperationResult, now: int)
    requires Sorted(successes) && Bounded(successes, now + window)
    requires Sorted(failures) && Bounded(failures, now + window)
    ensures var step := FailurePercentAdd(successes, failures, maxPercent, minimum, window, result, now);
      && Sorted(step.successes) && Bounded(step.successes, now + window)
      && Sorted(step.failures) && Bounded(step.failures, now + window)
  {
    PercentQueues(successes, failures, maxPercent, minimum, window, result, now);
    AppendedKeepsOrder(successes, now, now + window, result == Success);
    AppendedKeepsOrder(failures, now, now + window, result == Failure);
  }
}
