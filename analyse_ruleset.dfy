/**
 * The legacy rule hierarchy (AnalyseRuleset and its subclasses), which declares
 * the same class names as the current one.  The window rules behave as in the
 * current hierarchy; TimeBetweenOperations differs: it remembers the time of
 * the pending operation, its timer keeps firing until stopped, and an elapsed
 * timer is reported by the next event rather than only by the observers.
 */
module AnalyseRuleset {
  import opened Common
  import opened WindowRules
  import AnalyzeRule

  type ObserverId = AnalyzeRule.ObserverId

  datatype RuleKind =
    | MaxAmountOfFailures(maxTimesFailureAllowed: UInt32, failures: seq<int>)
    | FailurePercent(maxFailurePercent: UInt32, minimumAmount: UInt32, successes: seq<int>, failures: seq<int>)
    | TimeBetweenOperations(startOperationName: NString, endOperationName: NString,
                            lastOperationTime: Option<int>, timePass: bool, timerArmed: bool,
                            observers: seq<ObserverId>)

  /** The base-class properties (ApplicationName where the current hierarchy has ProgramName) and the rule's own state. */
  datatype Rule = Rule(
    ruleID: NString,
    applicationName: NString,
    operationName: NString,
    ruleName: NString,
    alarmLevel: AlarmLevel,
    alarmMessage: NString,
    keepOperationInPileTime: int,
    kind: RuleKind)

  function NewRule(kind: RuleKind): Rule
  {
    Rule(None, None, None, None, Low, None, TicksPerHour, kind)
  }

  const NullEvent := NullReference(DefaultNullReferenceText)

  /** The end-before-start message of this file has two spaces before "OperationName". */
  function EndBeforeStartText(endName: NString): string
  {
    "End operation recieved before start operation.  OperationName: " + NullToEmpty(endName)
  }

  /**
   * AddAndCheckIfTriggered; `e` is None for a null event.  The window rules
   * dereference the event before (Max) or after (Percent) evicting.
   */
  function AddAndCheck(r: Rule, e: Option<Event>, now: int): (Rule, Result<bool>)
  {
    match r.kind
    case MaxAmountOfFailures(_, _) => MaxAmountCheck(r, e, now)
    case FailurePercent(_, _, _, _) => PercentCheck(r, e, now)
    case TimeBetweenOperations(_, _, _, _, _, _) => TimeBetweenCheck(r, e, now)
  }

  function MaxAmountCheck(r: Rule, e: Option<Event>, now: int): (Rule, Result<bool>)
    requires r.kind.MaxAmountOfFailures?
  {
    var k := r.kind;
    if e.None? then (r, Err(NullEvent))
    else
      var (q, triggered) := MaxAmountAdd(k.failures, k.maxTimesFailureAllowed, r.keepOperationInPileTime, e.value.result, now);
      (r.(alarmMessage := if triggered then Some(MaxAmountText(k.maxTimesFailureAllowed, r.keepOperationInPileTime)) else r.alarmMessage,
          kind := MaxAmountOfFailures(k.maxTimesFailureAllowed, q)),
       Ok(triggered))
  }

  function PercentCheck(r: Rule, e: Option<Event>, now: int): (Rule, Result<bool>)
    requires r.kind.FailurePercent?
  {
    var k := r.kind;
    if e.None? then (r.(kind := FailurePercent(k.maxFailurePercent, k.minimumAmount, Evict(k.successes, now), Evict(k.failures, now))), Err(NullEvent))
    else
      var step := FailurePercentAdd(k.successes, k.failures, k.maxFailurePercent, k.minimumAmount, r.keepOperationInPileTime, e.value.result, now);
      (r.(alarmMessage := if step.outcome == Ok(true) then Some(PercentText(k.maxFailurePercent, r.keepOperationInPileTime)) else r.alarmMessage,
          kind := FailurePercent(k.maxFailurePercent, k.minimumAmount, step.successes, step.failures)),
       step.outcome)
  }

  /** TimeBetweenOperations.AddAndCheckIfTriggered: TimeBetweenStep, then `return retVal || _timePass`. */
  function TimeBetweenCheck(r: Rule, e: Option<Event>, now: int): (Rule, Result<bool>)
    requires r.kind.TimeBetweenOperations?
  {
    var (r', retVal) := TimeBetweenStep(r, e, now);
    (r', if retVal.Ok? then Ok(retVal.value || r'.kind.timePass) else retVal)
  }

  /** TimeBetweenOperations up to `return retVal || _timePass`: the rule afterwards and `retVal` (or the exception). */
  function TimeBetweenStep(r: Rule, e: Option<Event>, now: int): (out: (Rule, Result<bool>))
    requires r.kind.TimeBetweenOperations?
    ensures out.0.kind.TimeBetweenOperations?
  {
    if r.kind.timePass then (ElapsedStep(r, e), Ok(true)) else OperationStep(r, e, now)
  }

  /** The branch taken once the timer elapsed: the timeout message, and End when there is an event. */
  function ElapsedStep(r: Rule, e: Option<Event>): (r': Rule)
    requires r.kind.TimeBetweenOperations?
    ensures r'.kind.TimeBetweenOperations?
  {
    var k := r.kind;
    var r1 := r.(alarmMessage := Some(AnalyzeRule.TimeoutText(r.keepOperationInPileTime, r.operationName,
                                                              k.startOperationName, k.endOperationName)));
    if e.Some? then EndStep(r1) else r1
  }

  /** The branch taken while the timer has not elapsed: the event is matched against the three operation names. */
  function OperationStep(r: Rule, e: Option<Event>, now: int): (out: (Rule, Result<bool>))
    requires r.kind.TimeBetweenOperations?
    ensures out.0.kind.TimeBetweenOperations?
  {
    var k := r.kind;
    if e.None? then (r, Err(NullEvent))
    else if r.operationName.Some? && e.value.operationName == r.operationName then
      if k.lastOperationTime.None? then BeginStep(r, now) else (EndStep(r), Ok(false))
    else if e.value.operationName == k.startOperationName then
      if k.lastOperationTime.Some? then (EndStep(r.(alarmMessage := Some(AnalyzeRule.SecondStartText(k.startOperationName)))), Ok(true))
      else BeginStep(r, now)
    else if e.value.operationName == k.endOperationName then
      var noStart := k.lastOperationTime.None?;
      (EndStep(r.(alarmMessage := if noStart then Some(EndBeforeStartText(k.endOperationName)) else r.alarmMessage)), Ok(noStart))
    else (r, Ok(false))
  }

  /** Begin, then `return false`: the time is recorded before `new Timer(...)` can throw. */
  function BeginStep(r: Rule, now: int): (out: (Rule, Result<bool>))
    requires r.kind.TimeBetweenOperations?
    ensures out.0.kind.TimeBetweenOperations?
  {
    var noted := r.(kind := r.kind.(lastOperationTime := Some(now)));
    match TimerIntervalError(r.keepOperationInPileTime)
    case Some(x) => (noted, Err(x))
    case None => (noted.(kind := noted.kind.(timerArmed := true, timePass := false)), Ok(false))
  }

  /** End: stops the timer and forgets the pending operation and the elapsed flag. */
  function EndStep(r: Rule): (r': Rule)
    requires r.kind.TimeBetweenOperations?
    ensures r'.kind.TimeBetweenOperations?
  {
    r.(kind := r.kind.(timerArmed := false, lastOperationTime := None, timePass := false))
  }

  /** The Elapsed handler: only sets `_timePass` and notifies; the timer is not stopped and fires again. */
  function Timeout(r: Rule): (Rule, seq<ObserverId>)
    requires r.kind.TimeBetweenOperations? && r.kind.timerArmed
  {
    (r.(kind := r.kind.(timePass := true)), r.kind.observers)
  }

  // ---------------------------------------------------------------------------
  // What the legacy rules promise

  /** The legacy window rules, read in the current hierarchy's terms. */
  function AsCurrent(r: Rule): AnalyzeRule.Rule
    requires !r.kind.TimeBetweenOperations?
  {
    AnalyzeRule.Rule(r.ruleID, r.applicationName, r.operationName, r.ruleName, r.alarmLevel, r.alarmMessage,
                     r.keepOperationInPileTime,
                     match r.kind
                     case MaxAmountOfFailures(m, f) => AnalyzeRule.MaxAmountOfFailures(m, f)
                     case FailurePercent(p, m, s, f) => AnalyzeRule.FailurePercent(p, m, s, f))
  }

  /** On a real event the legacy window rules step exactly as the current ones, the Neutral exception included. */
  lemma SameWindowSemantics(r: Rule, e: Event, now: int)
    requires !r.kind.TimeBetweenOperations?
    ensures var (r', result) := AddAndCheck(r, Some(e), now);
      && !r'.kind.TimeBetweenOperations?
      && AnalyzeRule.AddAndCheck(AsCurrent(r), e, now) == (AsCurrent(r'), result)
  {
  }

  /**
   * No timer runs without a pending operation, and the elapsed flag is only
   * set while the timer runs.
   */
  predicate TimerInv(r: Rule)
  {
    r.kind.TimeBetweenOperations? ==>
      && (r.kind.timerArmed ==> r.kind.lastOperationTime.Some?)
      && (r.kind.timePass ==> r.kind.timerArmed)
  }

  lemma StepKeepsTimerInv(r: Rule, e: Option<Event>, now: int)
    requires r.kind.TimeBetweenOperations? && TimerInv(r)
    ensures TimerInv(TimeBetweenCheck(r, e, now).0)
  {
  }

  lemma TimeoutKeepsTimerInv(r: Rule)
    requires r.kind.TimeBetweenOperations? && r.kind.timerArmed && TimerInv(r)
    ensures TimerInv(Timeout(r).0)
  {
  }

  /**
   * `|| _timePass` never changes what the call returns:
   * without an Elapsed event in the 20 ms sleep, the flag is only still set when
   * `retVal` already was true.
   */
  lemma ReturnIsRetVal(r: Rule, e: Option<Event>, now: int)
    requires r.kind.TimeBetweenOperations?
    ensures TimeBetweenCheck(r, e, now) == TimeBetweenStep(r, e, now)
  {
  }

  /** In single-operation mode a matching event arms the timer when idle and stops it when armed, returning false. */
  lemma SingleOperationAlternates(r: Rule, e: Event, now: int)
    requires r.kind.TimeBetweenOperations? && !r.kind.timePass
    requires r.operationName.Some? && e.operationName == r.operationName
    requires 0 < r.keepOperationInPileTime <= MaxTimerTicks
    ensures var (r', result) := TimeBetweenCheck(r, Some(e), now);
      && result == Ok(false)
      && r'.alarmMessage == r.alarmMessage
      && (r.kind.lastOperationTime.None? ==> r'.kind.lastOperationTime == Some(now) && r'.kind.timerArmed)
      && (r.kind.lastOperationTime.Some? ==> r'.kind.lastOperationTime.None? && !r'.kind.timerArmed)
      && !r'.kind.timePass
  {
  }

  /** After the timer elapsed, the next event triggers with the timeout message and resets the rule through End. */
  lemma ElapsedTriggersOnNextEvent(r: Rule, e: Event, now: int)
    requires r.kind.TimeBetweenOperations? && r.kind.timePass
    ensures var (r', result) := TimeBetweenCheck(r, Some(e), now);
      && result == Ok(true)
      && r' == EndStep(r.(alarmMessage := Some(AnalyzeRule.TimeoutText(r.keepOperationInPileTime, r.operationName,
                                                                   r.kind.startOperationName, r.kind.endOperationName))))
  {
  }

  /** A start while one is pending triggers and, unlike the current hierarchy, resets the whole state. */
  lemma SecondStartResets(r: Rule, e: Event, now: int)
    requires r.kind.TimeBetweenOperations? && !r.kind.timePass
    requires !(r.operationName.Some? && e.operationName == r.operationName)
    requires e.operationName == r.kind.startOperationName && r.kind.lastOperationTime.Some?
    ensures var (r', result) := TimeBetweenCheck(r, Some(e), now);
      && result == Ok(true)
      && r'.kind.lastOperationTime.None? && !r'.kind.timePass && !r'.kind.timerArmed
      && r'.alarmMessage == Some(AnalyzeRule.SecondStartText(r.kind.startOperationName))
  {
  }

  /** Every end clears the pending time and the elapsed flag; it triggers exactly when no start was pending. */
  lemma EndClears(r: Rule, e: Event, now: int)
    requires r.kind.TimeBetweenOperations? && !r.kind.timePass
    requires !(r.operationName.Some? && e.operationName == r.operationName)
    requires e.operationName != r.kind.startOperationName && e.operationName == r.kind.endOperationName
    ensures var (r', result) := TimeBetweenCheck(r, Some(e), now);
      && result == Ok(r.kind.lastOperationTime.None?)
      && r'.kind.lastOperationTime.None? && !r'.kind.timePass && !r'.kind.timerArmed
  {
  }

  /** A timeout sets the elapsed flag, notifies every observer and leaves the timer running. */
  lemma TimeoutSetsPass(r: Rule)
    requires r.kind.TimeBetweenOperations? && r.kind.timerArmed
    ensures var (r', notified) := Timeout(r);
      && r'.kind.timePass && r'.kind.timerArmed
      && notified == r.kind.observers
      && r'.kind.lastOperationTime == r.kind.lastOperationTime
  {
  }

  // ---------------------------------------------------------------------------
  // The rule classes

  class MaxAmountOfFailuresRule {
    var ruleID: NString
    var applicationName: NString
    var operationName: NString
    var ruleName: NString
    var alarmLevel: AlarmLevel
    var alarmMessage: NString
    var keepOperationInPileTime: int
    var maxTimesFailureAllowed: UInt32
    var failures: seq<int>

    function Value(): Rule
      reads this
    {
      Rule(ruleID, applicationName, operationName, ruleName, alarmLevel, alarmMessage, keepOperationInPileTime,
           MaxAmountOfFailures(maxTimesFailureAllowed, failures))
    }

    constructor ()
      ensures Value() == NewRule(MaxAmountOfFailures(0, []))
    {
      ruleID, applicationName, operationName, ruleName := None, None, None, None;
      alarmLevel, alarmMessage, keepOperationInPileTime := Low, None, TicksPerHour;
      maxTimesFailureAllowed, failures := 0, [];
    }

    method AddAndCheckIfTriggered(e: Option<Event>, now: int) returns (result: Result<bool>)
      modifies this
      ensures MaxAmountCheck(old(Value()), e, now) == (Value(), result)
    {
      if e.None? {
        return Err(NullEvent);
      }
      if e.value.result != Failure {
        return Ok(false);
      }
      while |failures| > 0 && failures[0] <= now
        invariant Evict(failures, now) == Evict(old(failures), now)
        modifies this`failures
        decreases |failures|
      {
        failures := failures[1..];
      }
      failures := failures + [now + keepOperationInPileTime];
      if |failures| >= maxTimesFailureAllowed {
        alarmMessage := Some(MaxAmountText(maxTimesFailureAllowed, keepOperationInPileTime));
        failures := [];
        return Ok(true);
      }
      return Ok(false);
    }
  }

  class FailurePercentRule {
    var ruleID: NString
    var applicationName: NString
    var operationName: NString
    var ruleName: NString
    var alarmLevel: AlarmLevel
    var alarmMessage: NString
    var keepOperationInPileTime: int
    var maxFailurePercent: UInt32
    var minimumAmountOfOperationsBeforeRuleCanBeTriggered: UInt32
    var successes: seq<int>
    var failures: seq<int>

    function Value(): Rule
      reads this
    {
      Rule(ruleID, applicationName, operationName, ruleName, alarmLevel, alarmMessage, keepOperationInPileTime,
           FailurePercent(maxFailurePercent, minimumAmountOfOperationsBeforeRuleCanBeTriggered, successes, failures))
    }

    constructor ()
      ensures Value() == NewRule(FailurePercent(0, 10, [], []))
    {
      ruleID, applicationName, operationName, ruleName := None, None, None, None;
      alarmLevel, alarmMessage, keepOperationInPileTime := Low, None, TicksPerHour;
      maxFailurePercent, minimumAmountOfOperationsBeforeRuleCanBeTriggered := 0, 10;
      successes, failures := [], [];
    }

    /** The two dequeue loops that open AddAndCheckIfTriggered. */
    method EvictExpired(now: int)
      modifies this`successes, this`failures
      ensures successes == Evict(old(successes), now) && failures == Evict(old(failures), now)
    {
      while |successes| > 0 && successes[0] <= now
        invariant Evict(successes, now) == Evict(old(successes), now)
        modifies this`successes
        decreases |successes|
      {
        successes := successes[1..];
      }
      while |failures| > 0 && failures[0] <= now
        invariant Evict(failures, now) == Evict(old(failures), now)
        invariant successes == Evict(old(successes), now)
        modifies this`failures
        decreases |failures|
      {
        failures := failures[1..];
      }
    }

    method AddAndCheckIfTriggered(e: Option<Event>, now: int) returns (result: Result<bool>)
      modifies this
      ensures PercentCheck(old(Value()), e, now) == (Value(), result)
    {
      EvictExpired(now);
      if e.None? {
        return Err(NullEvent);
      }
      ghost var step := FailurePercentAdd(old(successes), old(failures), maxFailurePercent, minimumAmountOfOperationsBeforeRuleCanBeTriggered,
                                          keepOperationInPileTime, e.value.result, now);
      match e.value.result {
        case Success => successes := successes + [now + keepOperationInPileTime];
        case Failure => failures := failures + [now + keepOperationInPileTime];
        case Neutral =>
          assert step == PercentStep(successes, failures, Err(ArgumentOutOfRange));
          return Err(ArgumentOutOfRange);
      }
      var total := |successes| + |failures|;
      if PercentReached(|failures|, total, maxFailurePercent, minimumAmountOfOperationsBeforeRuleCanBeTriggered) {
        assert step == PercentStep([], [], Ok(true));
        alarmMessage := Some(PercentText(maxFailurePercent, keepOperationInPileTime));
        failures := [];
        successes := [];
        return Ok(true);
      }
      assert step == PercentStep(successes, failures, Ok(false));
      return Ok(false);
    }
  }

  class TimeBetweenOperations {
    var ruleID: NString
    var applicationName: NString
    var operationName: NString
    var ruleName: NString
    var alarmLevel: AlarmLevel
    var alarmMessage: NString
    var keepOperationInPileTime: int
    var startOperationName: NString
    var endOperationName: NString
    var lastOperationTime: Option<int>
    var timePass: bool
    var timerArmed: bool
    var observers: seq<ObserverId>

    function Value(): Rule
      reads this
    {
      Rule(ruleID, applicationName, operationName, ruleName, alarmLevel, alarmMessage, keepOperationInPileTime,
           TimeBetweenOperations(startOperationName, endOperationName, lastOperationTime, timePass, timerArmed, observers))
    }

    constructor ()
      ensures Value() == NewRule(TimeBetweenOperations(None, None, None, false, false, []))
    {
      ruleID, applicationName, operationName, ruleName := None, None, None, None;
      alarmLevel, alarmMessage, keepOperationInPileTime := Low, None, TicksPerHour;
      startOperationName, endOperationName := None, None;
      lastOperationTime, timePass, timerArmed, observers := None, false, false, [];
    }

    /** The constructor taking an observer ignores it: nothing is attached. */
    constructor WithObserver(observer: ObserverId)
      ensures Value() == NewRule(TimeBetweenOperations(None, None, None, false, false, []))
    {
      ruleID, applicationName, operationName, ruleName := None, None, None, None;
      alarmLevel, alarmMessage, keepOperationInPileTime := Low, None, TicksPerHour;
      startOperationName, endOperationName := None, None;
      lastOperationTime, timePass, timerArmed, observers := None, false, false, [];
    }

    method AttachObserver(observer: ObserverId)
      modifies this`observers
      ensures observers == old(observers) + [observer]
    {
      observers := observers + [observer];
    }

    /** Calls Update on each observer in turn; the result lists the calls made. */
    method NotifyObservers() returns (notified: seq<ObserverId>)
      ensures notified == observers
    {
      notified := [];
      for i := 0 to |observers|
        invariant notified == observers[..i]
      {
        notified := notified + [observers[i]];
      }
    }

    method Begin(now: int) returns (error: Option<Exception>)
      modifies this`lastOperationTime, this`timerArmed, this`timePass
      ensures BeginStep(old(Value()), now) == (Value(), if error.Some? then Err(error.value) else Ok(false))
    {
      lastOperationTime := Some(now);
      error := TimerIntervalError(keepOperationInPileTime);
      if error.None? {
        timerArmed := true;
        timePass := false;
      }
    }

    method End()
      modifies this`lastOperationTime, this`timerArmed, this`timePass
      ensures Value() == EndStep(old(Value()))
    {
      timerArmed := false;
      lastOperationTime := None;
      timePass := false;
    }

    method ForSingleOperations(now: int) returns (result: Result<bool>)
      modifies this`lastOperationTime, this`timerArmed, this`timePass
      ensures (Value(), result) == if old(lastOperationTime).None? then BeginStep(old(Value()), now) else (EndStep(old(Value())), Ok(false))
    {
      if lastOperationTime.None? {
        var error := Begin(now);
        if error.Some? {
          return Err(error.value);
        }
      } else {
        End();
      }
      return Ok(false);
    }

    method ForStartOperation(now: int) returns (result: Result<bool>)
      modifies this`lastOperationTime, this`timerArmed, this`timePass, this`alarmMessage
      ensures (Value(), result)
           == if old(lastOperationTime).Some?
              then (EndStep(old(Value()).(alarmMessage := Some(AnalyzeRule.SecondStartText(startOperationName)))), Ok(true))
              else BeginStep(old(Value()), now)
    {
      if lastOperationTime.Some? {
        alarmMessage := Some(AnalyzeRule.SecondStartText(startOperationName));
        End();
        return Ok(true);
      }
      var error := Begin(now);
      if error.Some? {
        return Err(error.value);
      }
      return Ok(false);
    }

    method ForEndOperation() returns (retVal: bool)
      modifies this`lastOperationTime, this`timerArmed, this`timePass, this`alarmMessage
      ensures retVal == old(lastOperationTime).None?
      ensures Value() == EndStep(old(Value()).(alarmMessage := if retVal then Some(EndBeforeStartText(endOperationName)) else old(alarmMessage)))
    {
      retVal := false;
      if lastOperationTime.None? {
        alarmMessage := Some(EndBeforeStartText(endOperationName));
        retVal := true;
      }
      End();
    }

    /** The `if (!retVal)` block of AddAndCheckIfTriggered: the event is matched against the three operation names. */
    method ForOperation(e: Option<Event>, now: int) returns (result: Result<bool>)
      modifies this`lastOperationTime, this`timerArmed, this`timePass, this`alarmMessage
      ensures OperationStep(old(Value()), e, now) == (Value(), result)
    {
      if e.None? {
        return Err(NullEvent);
      }
      if operationName.Some? && e.value.operationName == operationName {
        result := ForSingleOperations(now);
      } else if e.value.operationName == startOperationName {
        result := ForStartOperation(now);
      } else if e.value.operationName == endOperationName {
        var b := ForEndOperation();
        result := Ok(b);
      } else {
        result := Ok(false);
      }
    }

    method AddAndCheckIfTriggered(e: Option<Event>, now: int) returns (result: Result<bool>)
      modifies this
      ensures TimeBetweenCheck(old(Value()), e, now) == (Value(), result)
    {
      var retVal := timePass;
      if !retVal {
        result := ForOperation(e, now);
        if result.Err? {
          return result;
        }
        retVal := result.value;
      } else {
        alarmMessage := Some(AnalyzeRule.TimeoutText(keepOperationInPileTime, operationName, startOperationName, endOperationName));
        if e.Some? {
          End();
        }
        assert Value() == ElapsedStep(old(Value()), e);
      }
      // Thread.Sleep(20) lets no Elapsed event in: the model has no interleaving.
      return Ok(retVal || timePass);
    }

    /** The timer's Elapsed event; it fires while the timer runs, repeatedly, until End stops it. */
    method OnTimeout() returns (notified: seq<ObserverId>)
      requires timerArmed
      modifies this`timePass
      ensures (Value(), notified) == Timeout(old(Value()))
    {
      timePass := true;
      notified := NotifyObservers();
    }
  }
}
