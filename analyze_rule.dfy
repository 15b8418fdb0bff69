/**
 * The current rule hierarchy (AnalyzeRule and its subclasses).  A rule is
 * described by the value type `Rule`, and one call of AddAndCheckIfTriggered by
 * the function `AddAndCheck`; each of the three rule classes keeps the fields
 * of the source and is proved to step exactly as `AddAndCheck` says.  A
 * System.Timers.Timer is an armed flag, and its Elapsed event the method
 * OnTimeout, which the environment may call while the flag is set.
 */
module AnalyzeRule {
  import opened Common
  import opened WindowRules

  /** An attached ITimeBetweenOperationsObserver, by identity. */
  type ObserverId = nat

  /** The state that belongs to each concrete rule type. */
  datatype RuleKind =
    | MaxAmountOfFailures(maxTimesFailureAllowed: UInt32, failures: seq<int>)
    | FailurePercent(maxFailurePercent: UInt32, minimumAmount: UInt32, successes: seq<int>, failures: seq<int>)
    | TimeBetweenOperations(startOperationName: NString, endOperationName: NString,
                            startOperationReceived: bool, timerArmed: bool, observers: seq<ObserverId>)

  /** The base-class properties, and the concrete rule's own state. */
  datatype Rule = Rule(
    ruleID: NString,
    programName: NString,
    operationName: NString,
    ruleName: NString,
    alarmLevel: AlarmLevel,
    alarmMessage: NString,
    keepOperationInPileTime: int,
    kind: RuleKind)

  /** Base-class defaults: level Low, a one-hour window, everything else null. */
  function NewRule(kind: RuleKind): Rule
  {
    Rule(None, None, None, None, Low, None, TicksPerHour, kind)
  }

  const NoObserversText := "No observers attached to rule. Rule can not let know when triggered through timeout."

  function SecondStartText(startName: NString): string
  {
    "Start operation was succeeded by another start operation. OperationName: " + NullToEmpty(startName)
  }

  function EndBeforeStartText(endName: NString): string
  {
    "End operation recieved before start operation. OperationName: " + NullToEmpty(endName)
  }

  function TimeoutText(window: int, operationName: NString, startName: NString, endName: NString): string
  {
    "Time between operations greater than or equal to " + TimeSpanText(window)
    + ". OperationName:  " + NullToEmpty(operationName)
    + ". StartOperationName: " + NullToEmpty(startName)
    + ". EndOperationName: " + NullToEmpty(endName)
  }

  /** AddAndCheckIfTriggered, dispatched on the rule's type: the rule afterwards and the result or exception. */
  function AddAndCheck(r: Rule, e: Event, now: int): (Rule, Result<bool>)
  {
    match r.kind
    case MaxAmountOfFailures(_, _) => MaxAmountCheck(r, e, now)
    case FailurePercent(_, _, _, _) => PercentCheck(r, e, now)
    case TimeBetweenOperations(_, _, _, _, _) => TimeBetweenCheck(r, e)
  }

  /** MaxAmountOfFailuresRule.AddAndCheckIfTriggered: the failure queue steps as MaxAmountAdd, and a trigger sets the message. */
  function MaxAmountCheck(r: Rule, e: Event, now: int): (Rule, Result<bool>)
    requires r.kind.MaxAmountOfFailures?
  {
    var k := r.kind;
    var (q, triggered) := MaxAmountAdd(k.failures, k.maxTimesFailureAllowed, r.keepOperationInPileTime, e.result, now);
    (r.(alarmMessage := if triggered then Some(MaxAmountText(k.maxTimesFailureAllowed, r.keepOperationInPileTime)) else r.alarmMessage,
        kind := MaxAmountOfFailures(k.maxTimesFailureAllowed, q)),
     Ok(triggered))
  }

  /** FailurePercentRule.AddAndCheckIfTriggered: both queues step as FailurePercentAdd, and a trigger sets the message. */
  function PercentCheck(r: Rule, e: Event, now: int): (Rule, Result<bool>)
    requires r.kind.FailurePercent?
  {
    var k := r.kind;
    var step := FailurePercentAdd(k.successes, k.failures, k.maxFailurePercent, k.minimumAmount, r.keepOperationInPileTime, e.result, now);
    (r.(alarmMessage := if step.outcome == Ok(true) then Some(PercentText(k.maxFailurePercent, r.keepOperationInPileTime)) else r.alarmMessage,
        kind := FailurePercent(k.maxFailurePercent, k.minimumAmount, step.successes, step.failures)),
     step.outcome)
  }

  /**
   * TimeBetweenOperations.AddAndCheckIfTriggered: without observers it only
   * complains; the single operation is checked before the start and end names.
   */
  function TimeBetweenCheck(r: Rule, e: Event): (Rule, Result<bool>)
    requires r.kind.TimeBetweenOperations?
  {
    var k := r.kind;
    if |k.observers| == 0 then (r.(alarmMessage := Some(NoObserversText)), Ok(true))
    else if r.operationName.Some? && e.operationName == r.operationName then SingleOperationStep(r)
    else if e.operationName == k.startOperationName then StartOperationStep(r)
    else if e.operationName == k.endOperationName then EndOperationStep(r)
    else (r, Ok(false))
  }

  /** AddSingleOperation (StopTimer, then StartTimer), followed by `return false`. */
  function SingleOperationStep(r: Rule): (Rule, Result<bool>)
    requires r.kind.TimeBetweenOperations?
  {
    StartTimerStep(r.(kind := r.kind.(timerArmed := false)))
  }

  /** AddAndCheckIfTriggeredForStartOperation: a second start triggers and stops the timer; a first one sets the flag and starts it. */
  function StartOperationStep(r: Rule): (Rule, Result<bool>)
    requires r.kind.TimeBetweenOperations?
  {
    var k := r.kind;
    if k.startOperationReceived then
      (r.(alarmMessage := Some(SecondStartText(k.startOperationName)), kind := k.(timerArmed := false)), Ok(true))
    else
      StartTimerStep(r.(kind := k.(startOperationReceived := true)))
  }

  /** AddAndCheckIfTriggeredForEndOperation: triggers when no start was pending, then clears the flag and stops the timer. */
  function EndOperationStep(r: Rule): (Rule, Result<bool>)
    requires r.kind.TimeBetweenOperations?
  {
    var k := r.kind;
    (r.(alarmMessage := if k.startOperationReceived then r.alarmMessage else Some(EndBeforeStartText(k.endOperationName)),
        kind := k.(startOperationReceived := false, timerArmed := false)),
     Ok(!k.startOperationReceived))
  }

  /**
   * StartTimer followed by `return false`: `new Timer(window in ms)` throws an
   * ArgumentException for an interval it refuses, before the field is replaced.
   */
  function StartTimerStep(r: Rule): (Rule, Result<bool>)
    requires r.kind.TimeBetweenOperations?
  {
    match TimerIntervalError(r.keepOperationInPileTime)
    case Some(x) => (r, Err(x))
    case None => (r.(kind := r.kind.(timerArmed := true)), Ok(false))
  }

  /** The Elapsed handler: sets the message, stops the timer and notifies every observer. */
  function Timeout(r: Rule): (Rule, seq<ObserverId>)
    requires r.kind.TimeBetweenOperations? && r.kind.timerArmed
  {
    var k := r.kind;
    (r.(alarmMessage := Some(TimeoutText(r.keepOperationInPileTime, r.operationName, k.startOperationName, k.endOperationName)),
        kind := k.(timerArmed := false)),
     k.observers)
  }

  // ---------------------------------------------------------------------------
  // What the rule steps promise

  /** MaxAmountOfFailuresRule ignores every result but Failure, and then touches nothing. */
  lemma MaxAmountIgnoresNonFailure(r: Rule, e: Event, now: int)
    requires r.kind.MaxAmountOfFailures? && e.result != Failure
    ensures MaxAmountCheck(r, e, now) == (r, Ok(false))
  {
  }

  /**
   * On a failure the rule triggers exactly when the live failures plus this one
   * reach MaxTimesFailureAllowed; a trigger empties the queue and sets the message.
   */
  lemma MaxAmountOnFailure(r: Rule, e: Event, now: int)
    requires r.kind.MaxAmountOfFailures? && e.result == Failure && Sorted(r.kind.failures)
    ensures var (r', result) := MaxAmountCheck(r, e, now);
      var live := Live(r.kind.failures, now);
      && (result == Ok(true) <==> |live| + 1 >= r.kind.maxTimesFailureAllowed)
      && result.Ok?
      && r'.kind.failures == (if result == Ok(true) then [] else live + [now + r.keepOperationInPileTime])
      && r'.alarmMessage == (if result == Ok(true) then Some(MaxAmountText(r.kind.maxTimesFailureAllowed, r.keepOperationInPileTime))
                             else r.alarmMessage)
  {
    MaxAmountFailure(r.kind.failures, r.kind.maxTimesFailureAllowed, r.keepOperationInPileTime, now);
  }

  /** FailurePercentRule throws ArgumentOutOfRangeException for a Neutral result, after evicting both queues. */
  lemma PercentNeutralThrows(r: Rule, e: Event, now: int)
    requires r.kind.FailurePercent? && e.result == Neutral
    ensures var (r', result) := PercentCheck(r, e, now);
      && result == Err(ArgumentOutOfRange)
      && r'.kind.successes == Evict(r.kind.successes, now)
      && r'.kind.failures == Evict(r.kind.failures, now)
      && r'.alarmMessage == r.alarmMessage
  {
  }

  /** FailurePercentRule triggers exactly when enough live operations failed often enough, and then clears both queues. */
  lemma PercentOnResult(r: Rule, e: Event, now: int)
    requires r.kind.FailurePercent? && e.result != Neutral
    requires Sorted(r.kind.successes) && Sorted(r.kind.failures)
    ensures var (r', result) := PercentCheck(r, e, now);
      var failed := |Live(r.kind.failures, now)| + (if e.result == Failure then 1 else 0);
      var total := |Live(r.kind.successes, now)| + |Live(r.kind.failures, now)| + 1;
      && result.Ok?
      && (result == Ok(true) <==> PercentReached(failed, total, r.kind.maxFailurePercent, r.kind.minimumAmount))
      && (result == Ok(true) ==> r'.kind.successes == [] && r'.kind.failures == [])
  {
    var k := r.kind;
    PercentTrigger(k.successes, k.failures, k.maxFailurePercent, k.minimumAmount, r.keepOperationInPileTime, e.result, now);
    PercentCheckIsStep(r, e, now);
  }

  /** The rule's result and queues are those of one FailurePercentAdd step. */
  lemma PercentCheckIsStep(r: Rule, e: Event, now: int)
    requires r.kind.FailurePercent?
    ensures var k := r.kind;
      var step := FailurePercentAdd(k.successes, k.failures, k.maxFailurePercent, k.minimumAmount, r.keepOperationInPileTime, e.result, now);
      var (r', result) := PercentCheck(r, e, now);
      result == step.outcome && r'.kind.successes == step.successes && r'.kind.failures == step.failures
  {
  }

  /** With no observer attached every event triggers, and only the message changes. */
  lemma NoObserverAlwaysTriggers(r: Rule, e: Event, now: int)
    requires r.kind.TimeBetweenOperations? && |r.kind.observers| == 0
    ensures TimeBetweenCheck(r, e) == (r.(alarmMessage := Some(NoObserversText)), Ok(true))
  {
  }

  /**
   * The single operation is recognised before the start and end names: it stops
   * and restarts the timer and returns false, or throws when the interval is refused.
   */
  lemma SingleOperationRestartsTimer(r: Rule, e: Event, now: int)
    requires r.kind.TimeBetweenOperations? && |r.kind.observers| > 0
    requires r.operationName.Some? && e.operationName == r.operationName
    ensures var (r', result) := TimeBetweenCheck(r, e);
      && r' == r.(kind := r.kind.(timerArmed := result.Ok?))
      && result == (match TimerIntervalError(r.keepOperationInPileTime) case None => Ok(false) case Some(x) => Err(x))
  {
  }

  /** A start while a start is pending triggers, stops the timer and leaves the start flag set. */
  lemma SecondStartTriggers(r: Rule, e: Event, now: int)
    requires r.kind.TimeBetweenOperations? && |r.kind.observers| > 0
    requires !(r.operationName.Some? && e.operationName == r.operationName)
    requires e.operationName == r.kind.startOperationName && r.kind.startOperationReceived
    ensures var (r', result) := TimeBetweenCheck(r, e);
      && result == Ok(true)
      && r'.kind.startOperationReceived && !r'.kind.timerArmed
      && r'.alarmMessage == Some(SecondStartText(r.kind.startOperationName))
  {
  }

  /** A first start sets the flag and arms the timer. */
  lemma FirstStartArms(r: Rule, e: Event, now: int)
    requires r.kind.TimeBetweenOperations? && |r.kind.observers| > 0
    requires !(r.operationName.Some? && e.operationName == r.operationName)
    requires e.operationName == r.kind.startOperationName && !r.kind.startOperationReceived
    requires 0 < r.keepOperationInPileTime <= MaxTimerTicks
    ensures TimeBetweenCheck(r, e) == (r.(kind := r.kind.(startOperationReceived := true, timerArmed := true)), Ok(false))
  {
  }

  /** Every end clears the flag and stops the timer; it triggers exactly when no start was pending. */
  lemma EndClearsStart(r: Rule, e: Event, now: int)
    requires r.kind.TimeBetweenOperations? && |r.kind.observers| > 0
    requires !(r.operationName.Some? && e.operationName == r.operationName)
    requires e.operationName != r.kind.startOperationName && e.operationName == r.kind.endOperationName
    ensures var (r', result) := TimeBetweenCheck(r, e);
      && result == Ok(!r.kind.startOperationReceived)
      && !r'.kind.startOperationReceived && !r'.kind.timerArmed
      && r'.alarmMessage == (if r.kind.startOperationReceived then r.alarmMessage else Some(EndBeforeStartText(r.kind.endOperationName)))
  {
  }

  /** A timeout stops the timer and notifies each observer once, in attachment order, leaving the start flag alone. */
  lemma TimeoutNotifiesOnce(r: Rule)
    requires r.kind.TimeBetweenOperations? && r.kind.timerArmed
    ensures var (r', notified) := Timeout(r);
      && notified == r.kind.observers
      && !r'.kind.timerArmed
      && r'.kind.startOperationReceived == r.kind.startOperationReceived
      && r'.kind.observers == r.kind.observers
  {
  }

  // ---------------------------------------------------------------------------
  // The rule classes

  class MaxAmountOfFailuresRule {
    var ruleID: NString
    var programName: NString
    var operationName: NString
    var ruleName: NString
    var alarmLevel: AlarmLevel
    var alarmMessage: NString
    var keepOperationInPileTime: int
    var maxTimesFailureAllowed: UInt32
    var failures: seq<int>

    function Value(): Rule
      reads this
    {
      Rule(ruleID, programName, operationName, ruleName, alarmLevel, alarmMessage, keepOperationInPileTime,
           MaxAmountOfFailures(maxTimesFailureAllowed, failures))
    }

    constructor ()
      ensures Value() == NewRule(MaxAmountOfFailures(0, []))
    {
      ruleID, programName, operationName, ruleName := None, None, None, None;
      alarmLevel, alarmMessage, keepOperationInPileTime := Low, None, TicksPerHour;
      maxTimesFailureAllowed, failures := 0, [];
    }

    method AddAndCheckIfTriggered(e: Event, now: int) returns (triggered: bool)
      modifies this
      ensures MaxAmountCheck(old(Value()), e, now) == (Value(), Ok(triggered))
    {
      if e.result != Failure {
        return false;
      }
      while |failures| > 0 && failures[0] <= now
        invariant Evict(failures, now) == Evict(old(failures), now)
        modifies this`failures
        decreases |failures|
      {
        failures := failures[1..];
      }
      failures := failures + [now + keepOperationInPileTime];
      if |failures| >= maxTimesFailureAllowed {
        alarmMessage := Some(MaxAmountText(maxTimesFailureAllowed, keepOperationInPileTime));
        failures := [];
        return true;
      }
      return false;
    }
  }

  class FailurePercentRule {
    var ruleID: NString
    var programName: NString
    var operationName: NString
    var ruleName: NString
    var alarmLevel: AlarmLevel
    var alarmMessage: NString
    var keepOperationInPileTime: int
    var maxFailurePercent: UInt32
    var minimumAmountOfOperationsBeforeRuleCanBeTriggered: UInt32
    var successes: seq<int>
    var failures: seq<int>

    function Value(): Rule
      reads this
    {
      Rule(ruleID, programName, operationName, ruleName, alarmLevel, alarmMessage, keepOperationInPileTime,
           FailurePercent(maxFailurePercent, minimumAmountOfOperationsBeforeRuleCanBeTriggered, successes, failures))
    }

    /** MaxFailurePercent defaults to 0 and the minimum to 10. */
    constructor ()
      ensures Value() == NewRule(FailurePercent(0, 10, [], []))
    {
      ruleID, programName, operationName, ruleName := None, None, None, None;
      alarmLevel, alarmMessage, keepOperationInPileTime := Low, None, TicksPerHour;
      maxFailurePercent, minimumAmountOfOperationsBeforeRuleCanBeTriggered := 0, 10;
      successes, failures := [], [];
    }

    /** The two dequeue loops that open AddAndCheckIfTriggered. */
    method EvictExpired(now: int)
      modifies this`successes, this`failures
      ensures successes == Evict(old(successes), now) && failures == Evict(old(failures), now)
    {
      while |successes| > 0 && successes[0] <= now
        invariant Evict(successes, now) == Evict(old(successes), now)
        modifies this`successes
        decreases |successes|
      {
        successes := successes[1..];
      }
      while |failures| > 0 && failures[0] <= now
        invariant Evict(failures, now) == Evict(old(failures), now)
        invariant successes == Evict(old(successes), now)
        modifies this`failures
        decreases |failures|
      {
        failures := failures[1..];
      }
    }

    method AddAndCheckIfTriggered(e: Event, now: int) returns (result: Result<bool>)
      modifies this
      ensures PercentCheck(old(Value()), e, now) == (Value(), result)
    {
      ghost var step := FailurePercentAdd(successes, failures, maxFailurePercent, minimumAmountOfOperationsBeforeRuleCanBeTriggered,
                                          keepOperationInPileTime, e.result, now);
      EvictExpired(now);
      match e.result {
        case Success => successes := successes + [now + keepOperationInPileTime];
        case Failure => failures := failures + [now + keepOperationInPileTime];
        case Neutral =>
          assert step == PercentStep(successes, failures, Err(ArgumentOutOfRange));
          return Err(ArgumentOutOfRange);
      }
      var total := |successes| + |failures|;
      if PercentReached(|failures|, total, maxFailurePercent, minimumAmountOfOperationsBeforeRuleCanBeTriggered) {
        assert step == PercentStep([], [], Ok(true));
        alarmMessage := Some(PercentText(maxFailurePercent, keepOperationInPileTime));
        failures := [];
        successes := [];
        return Ok(true);
      }
      assert step == PercentStep(successes, failures, Ok(false));
      return Ok(false);
    }
  }

  class TimeBetweenOperations {
    var ruleID: NString
    var programName: NString
    var operationName: NString
    var ruleName: NString
    var alarmLevel: AlarmLevel
    var alarmMessage: NString
    var keepOperationInPileTime: int
    var startOperationName: NString
    var endOperationName: NString
    var startOperationReceived: bool
    var timerArmed: bool
    var observers: seq<ObserverId>

    function Value(): Rule
      reads this
    {
      Rule(ruleID, programName, operationName, ruleName, alarmLevel, alarmMessage, keepOperationInPileTime,
           TimeBetweenOperations(startOperationName, endOperationName, startOperationReceived, timerArmed, observers))
    }

    constructor ()
      ensures Value() == NewRule(TimeBetweenOperations(None, None, false, false, []))
    {
      ruleID, programName, operationName, ruleName := None, None, None, None;
      alarmLevel, alarmMessage, keepOperationInPileTime := Low, None, TicksPerHour;
      startOperationName, endOperationName := None, None;
      startOperationReceived, timerArmed, observers := false, false, [];
    }

    method AttachObserver(observer: ObserverId)
      modifies this`observers
      ensures observers == old(observers) + [observer]
    {
      observers := observers + [observer];
    }

    /** Calls RuleTriggeredByTimeout on each observer in turn; the result lists the calls made. */
    method NotifyObservers() returns (notified: seq<ObserverId>)
      ensures notified == observers
    {
      notified := [];
      var i := 0;
      while i < |observers|
        invariant 0 <= i <= |observers|
        invariant notified == observers[..i]
      {
        notified := notified + [observers[i]];
        i := i + 1;
      }
    }

    method StopTimer()
      modifies this`timerArmed
      ensures !timerArmed
    {
      timerArmed := false;
    }

    method StartTimer() returns (error: Option<Exception>)
      modifies this`timerArmed
      ensures error == TimerIntervalError(keepOperationInPileTime)
      ensures timerArmed == (error.None? || old(timerArmed))
    {
      error := TimerIntervalError(keepOperationInPileTime);
      if error.None? {
        timerArmed := true;
      }
    }

    method AddAndCheckIfTriggered(e: Event, now: int) returns (result: Result<bool>)
      modifies this
      ensures TimeBetweenCheck(old(Value()), e) == (Value(), result)
    {
      if |observers| == 0 {
        alarmMessage := Some(NoObserversText);
        return Ok(true);
      }
      if operationName.Some? && e.operationName == operationName {
        var error := AddSingleOperation();
        return if error.Some? then Err(error.value) else Ok(false);
      }
      if e.operationName == startOperationName {
        result := ForStartOperation();
        return;
      }
      if e.operationName == endOperationName {
        var triggered := ForEndOperation();
        return Ok(triggered);
      }
      return Ok(false);
    }

    method AddSingleOperation() returns (error: Option<Exception>)
      modifies this`timerArmed
      ensures SingleOperationStep(old(Value())) == (Value(), if error.Some? then Err(error.value) else Ok(false))
    {
      StopTimer();
      error := StartTimer();
    }

    method ForStartOperation() returns (result: Result<bool>)
      modifies this`alarmMessage, this`timerArmed, this`startOperationReceived
      ensures StartOperationStep(old(Value())) == (Value(), result)
    {
      if startOperationReceived {
        alarmMessage := Some(SecondStartText(startOperationName));
        StopTimer();
        return Ok(true);
      }
      startOperationReceived := true;
      var error := StartTimer();
      return if error.Some? then Err(error.value) else Ok(false);
    }

    method ForEndOperation() returns (triggered: bool)
      modifies this`alarmMessage, this`timerArmed, this`startOperationReceived
      ensures EndOperationStep(old(Value())) == (Value(), Ok(triggered))
    {
      triggered := false;
      if !startOperationReceived {
        alarmMessage := Some(EndBeforeStartText(endOperationName));
        triggered := true;
      }
      startOperationReceived := false;
      StopTimer();
    }

    /** The timer's Elapsed event; it can only fire while the timer runs. */
    method OnTimeout() returns (notified: seq<ObserverId>)
      requires timerArmed
      modifies this
      ensures (Value(), notified) == Timeout(old(Value()))
    {
      alarmMessage := Some(TimeoutText(keepOperationInPileTime, operationName, startOperationName, endOperationName));
      StopTimer();
      notified := NotifyObservers();
    }
  }
}
