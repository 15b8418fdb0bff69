/**
 * The rule unit tests as scenarios: each method builds a fresh rule as the test
 * class does, feeds it the test's events at the given instants and promises
 * the true/false sequence the test asserts.  Thread.Sleep(n) becomes a gap of
 * at least n between two instants; calls without a sleep between them are
 * taken to happen within the rule's window.
 */
module RuleTests {
  import opened Common
  import AnalyzeRule
  import AnalyseRuleset
  import WindowRules

  const Window := 9 * TicksPerSecond

  /** `new OperationResult(OpResult.Failure)` (and Success), as the rules see it: no operation name. */
  const FailureOp := Event(None, Failure, None, None, None)
  const SuccessOp := Event(None, Success, None, None, None)

  /** Amount.TestFourOps: four failures within the window trigger on the fourth. */
  method AmountFourOps(t0: int, t1: int, t2: int, t3: int) returns (results: seq<bool>)
    requires t0 <= t1 <= t2 <= t3 < t0 + Window
    ensures results == [false, false, false, true]
  {
    var rule := new AnalyzeRule.MaxAmountOfFailuresRule();
    rule.maxTimesFailureAllowed := 4;
    rule.keepOperationInPileTime := Window;
    var a := rule.AddAndCheckIfTriggered(FailureOp, t0);
    var b := rule.AddAndCheckIfTriggered(FailureOp, t1);
    var c := rule.AddAndCheckIfTriggered(FailureOp, t2);
    var d := rule.AddAndCheckIfTriggered(FailureOp, t3);
    results := [a, b, c, d];
  }

  /** Amount.TestTtl: after a 9 s sleep the three earlier failures have expired. */
  method AmountTtl(t0: int, t1: int, t2: int, t3: int) returns (results: seq<bool>)
    requires t0 <= t1 <= t2 && t2 + Window <= t3
    ensures results == [false, false, false, false]
  {
    var rule := new AnalyzeRule.MaxAmountOfFailuresRule();
    rule.maxTimesFailureAllowed := 4;
    rule.keepOperationInPileTime := Window;
    var a := rule.AddAndCheckIfTriggered(FailureOp, t0);
    var b := rule.AddAndCheckIfTriggered(FailureOp, t1);
    var c := rule.AddAndCheckIfTriggered(FailureOp, t2);
    var d := rule.AddAndCheckIfTriggered(FailureOp, t3);
    results := [a, b, c, d];
  }

  /** Percent.TestAllFail: with a minimum of four operations, four failures trigger on the fourth. */
  method PercentAllFail(t0: int, t1: int, t2: int, t3: int) returns (results: seq<Result<bool>>)
    requires t0 <= t1 <= t2 <= t3 < t0 + Window
    ensures results == [Ok(false), Ok(false), Ok(false), Ok(true)]
  {
    var rule := new AnalyzeRule.FailurePercentRule();
    rule.maxFailurePercent := 50;
    rule.keepOperationInPileTime := Window;
    rule.minimumAmountOfOperationsBeforeRuleCanBeTriggered := 4;
    var a := rule.AddAndCheckIfTriggered(FailureOp, t0);
    assert rule.successes == [] && rule.failures == [t0 + Window];
    var b := rule.AddAndCheckIfTriggered(FailureOp, t1);
    assert rule.successes == [] && rule.failures == [t0 + Window, t1 + Window];
    var c := rule.AddAndCheckIfTriggered(FailureOp, t2);
    assert rule.successes == [] && rule.failures == [t0 + Window, t1 + Window, t2 + Window];
    assert WindowRules.PercentReached(4, 4, 50, 4);
    var d := rule.AddAndCheckIfTriggered(FailureOp, t3);
    results := [a, b, c, d];
  }

  /** Percent.TestExactPercentFail: two failures out of four is exactly 50% and triggers. */
  method PercentExactFail(t0: int, t1: int, t2: int, t3: int) returns (results: seq<Result<bool>>)
    requires t0 <= t1 <= t2 <= t3 < t0 + Window
    ensures results == [Ok(false), Ok(false), Ok(false), Ok(true)]
  {
    var rule := new AnalyzeRule.FailurePercentRule();
    rule.maxFailurePercent := 50;
    rule.keepOperationInPileTime := Window;
    rule.minimumAmountOfOperationsBeforeRuleCanBeTriggered := 4;
    var a := rule.AddAndCheckIfTriggered(FailureOp, t0);
    assert rule.successes == [] && rule.failures == [t0 + Window];
    var b := rule.AddAndCheckIfTriggered(FailureOp, t1);
    assert rule.successes == [] && rule.failures == [t0 + Window, t1 + Window];
    var c := rule.AddAndCheckIfTriggered(SuccessOp, t2);
    assert rule.successes == [t2 + Window] && rule.failures == [t0 + Window, t1 + Window];
    var d := rule.AddAndCheckIfTriggered(SuccessOp, t3);
    results := [a, b, c, d];
  }

  /** Percent.TesPercentFailSuccess: one failure out of four stays below 50%. */
  method PercentFailThenSuccesses(t0: int, t1: int, t2: int, t3: int) returns (results: seq<Result<bool>>)
    requires t0 <= t1 <= t2 <= t3 < t0 + Window
    ensures results == [Ok(false), Ok(false), Ok(false), Ok(false)]
  {
    var rule := new AnalyzeRule.FailurePercentRule();
    rule.maxFailurePercent := 50;
    rule.keepOperationInPileTime := Window;
    rule.minimumAmountOfOperationsBeforeRuleCanBeTriggered := 4;
    var a := rule.AddAndCheckIfTriggered(FailureOp, t0);
    assert rule.successes == [] && rule.failures == [t0 + Window];
    var b := rule.AddAndCheckIfTriggered(SuccessOp, t1);
    assert rule.successes == [t1 + Window] && rule.failures == [t0 + Window];
    var c := rule.AddAndCheckIfTriggered(SuccessOp, t2);
    assert rule.successes == [t1 + Window, t2 + Window] && rule.failures == [t0 + Window];
    var d := rule.AddAndCheckIfTriggered(SuccessOp, t3);
    results := [a, b, c, d];
  }

  /**
   * StartAndStop.TestWithOneOperation on the legacy rule: begin, end, begin;
   * the timer elapses during the 9 s sleep; the next event reports it and the
   * one after starts afresh.
   */
  method StartAndStopOneOperation(t0: int, t1: int, t2: int, t3: int, t4: int) returns (results: seq<Result<bool>>)
    ensures results == [Ok(false), Ok(false), Ok(false), Ok(true), Ok(false)]
  {
    var rule := new AnalyseRuleset.TimeBetweenOperations();
    rule.keepOperationInPileTime := Window;
    rule.operationName := Some("one");
    var operation := Event(Some("one"), Success, None, None, None);
    var a := rule.AddAndCheckIfTriggered(Some(operation), t0);
    var b := rule.AddAndCheckIfTriggered(Some(operation), t1);
    var c := rule.AddAndCheckIfTriggered(Some(operation), t2);
    var notified := rule.OnTimeout();
    var d := rule.AddAndCheckIfTriggered(Some(operation), t3);
    var e := rule.AddAndCheckIfTriggered(Some(operation), t4);
    results := [a, b, c, d, e];
  }

  /** StartAndStop.TestWithStartAndStop on the legacy rule: an end without a start triggers. */
  method StartAndStopEndFirst(t0: int) returns (result: Result<bool>)
    ensures result == Ok(true)
  {
    var rule := new AnalyseRuleset.TimeBetweenOperations();
    rule.keepOperationInPileTime := Window;
    rule.operationName := None;
    rule.startOperationName := Some("Start");
    rule.endOperationName := Some("End");
    var endOp := Event(Some("End"), Success, None, None, None);
    result := rule.AddAndCheckIfTriggered(Some(endOp), t0);
  }

  /**
   * The same one-operation test fails on the current rule: with no observer
   * attached its very first event already returns true.
   */
  method OneOperationOnCurrentRule(t0: int) returns (first: Result<bool>)
    ensures first == Ok(true)
  {
    var rule := new AnalyzeRule.TimeBetweenOperations();
    rule.keepOperationInPileTime := Window;
    rule.operationName := Some("one");
    var operation := Event(Some("one"), Success, None, None, None);
    first := rule.AddAndCheckIfTriggered(operation, t0);
  }
}
