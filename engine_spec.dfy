/**
 * What AnalyzerEngine and its private ProgramAnalyzer do, on values.
 *
 * ProgramAnalyzer is a private class of the engine and nothing outside the
 * engine holds one, so the engine keeps each analyzer as a value of type
 * `Analyzer`; the functions here say what each analyzer and engine operation
 * does, and the classes of module AnalyzerEngine are proved to do exactly
 * that on their own fields.  A thread is a step: one call is one iteration
 * of the thread's loop, and the environment chooses which thread runs next.
 * Rules are the values of AnalyzeRule; the clock is a parameter.
 */
module EngineSpec {
  import opened Common
  import opened Assoc
  import opened Text
  import AnalyzeRule

  type Rule = AnalyzeRule.Rule

  // ---------------------------------------------------------------------------
  // One ProgramAnalyzer, as a value

  /**
   * A ProgramAnalyzer: its state, whether its analyzer thread is alive, the
   * program it analyses, its rules keyed by rule name, and its event queue.
   */
  datatype Analyzer = Analyzer(
    state: State,
    threadRunning: bool,
    programName: NString,
    rules: seq<(string, Rule)>,
    eventQueue: seq<Event>)

  /** `new ProgramAnalyzer(manager)`: Stopped, no thread, no program name, no rules, no events. */
  const NewAnalyzer := Analyzer(Stopped, false, None, [], [])

  /**
   * The thread flag follows the state: a Running analyzer has a thread, a
   * Stopped one has none; ShuttingDown occurs with and without a thread.
   */
  predicate AnalyzerInv(a: Analyzer)
  {
    (a.state == Running ==> a.threadRunning) && (a.state == Stopped ==> !a.threadRunning)
  }

  /** AddEvent enqueues at the back. */
  function AddEvent(a: Analyzer, e: Event): (a': Analyzer)
    ensures a'.eventQueue == a.eventQueue + [e]
    ensures a'.(eventQueue := a.eventQueue) == a
  {
    a.(eventQueue := a.eventQueue + [e])
  }

  /** StopAnalyzer only announces ShuttingDown; the thread, if there is one, notices it. */
  function StopAnalyzer(a: Analyzer): (a': Analyzer)
    ensures a'.state == ShuttingDown && a'.(state := a.state) == a
  {
    a.(state := ShuttingDown)
  }

  /** StartAnalyzer starts a thread whose first act is to set the state Running. */
  function StartAnalyzer(a: Analyzer): (a': Analyzer)
    ensures a'.state == Running && a'.threadRunning && AnalyzerInv(a')
    ensures a'.(state := a.state, threadRunning := a.threadRunning) == a
  {
    a.(state := Running, threadRunning := true)
  }

  function AnalysingOtherProgramText(current: NString, offered: NString): string
  {
    "This instance of ProgramAnalyzer is analyzing " + NullToEmpty(current)
    + ". Can not add ruleset for " + NullToEmpty(offered) + "."
  }

  /**
   * AddOrReplaceRule: a blank program name adopts the rule's; a rule for
   * another program is refused; the rule is stored under its name (a null
   * name is refused by the dictionary).  The adopted name stays even when
   * the call throws.
   */
  function AddOrReplaceRule(a: Analyzer, rule: Rule): (r: (Analyzer, Option<Exception>))
  {
    var name := if IsNullOrWhiteSpace(a.programName) then rule.programName else a.programName;
    var a1 := a.(programName := name);
    if name != rule.programName then (a1, Some(Argument(AnalysingOtherProgramText(name, rule.programName))))
    else if rule.ruleName.None? then (a1, Some(ArgumentNull("key")))
    else (a1.(rules := Put(a.rules, rule.ruleName.value, rule)), None)
  }

  /** UnloadAllRules empties the rule dictionary and nothing else. */
  function UnloadAllRules(a: Analyzer): (a': Analyzer)
    ensures a'.rules == [] && a'.(rules := a.rules) == a
  {
    a.(rules := [])
  }

  /** A rule applies to an event when it names no operation or names the event's operation. */
  predicate Applies(rule: Rule, e: Event)
  {
    IsNullOrEmpty(rule.operationName) || (e.operationName.Some? && rule.operationName == e.operationName)
  }

  /** The alarm a triggered rule raises for an event; the rule's message is read after the rule ran. */
  function RuleAlarm(rule: Rule, e: Event): AlarmMessage
  {
    AlarmMessage(rule.alarmLevel, e.tenant,
                 Some("Rule " + NullToEmpty(rule.ruleName) + " triggered. Message: " + NullToEmpty(rule.alarmMessage)),
                 e.caughtException, e.id)
  }

  /** The alarm the analyzer thread raises when an exception ends it. */
  function AnalyzerCrashAlarm(host: string, programName: NString, x: Exception): AlarmMessage
  {
    AlarmMessage(Medium, Some(host),
                 Some("Exception in ProgramAnalyzer.StartAnalyzer for " + NullToEmpty(programName) + "."),
                 Some(ExceptionMessage(x)), None)
  }

  /** The rules after one event, the alarms raised on the way, and the exception that ended the run, if any. */
  datatype RuleRun = RuleRun(rules: seq<(string, Rule)>, alarms: seq<AlarmMessage>, error: Option<Exception>)

  function Prepend(entry: (string, Rule), alarms: seq<AlarmMessage>, run: RuleRun): RuleRun
  {
    RuleRun([entry] + run.rules, alarms + run.alarms, run.error)
  }

  /**
   * The body of the analyzer's MainLoop for one event: every applicable rule
   * in turn gets the event; a rule that triggers raises an alarm carrying the
   * event's caught exception, and an event without one makes that a
   * NullReferenceException.  The first exception ends the run.
   */
  function EvaluateRules(rules: seq<(string, Rule)>, e: Event, now: int): (run: RuleRun)
    decreases |rules|
  {
    if |rules| == 0 then RuleRun([], [], None)
    else
      var (name, rule) := rules[0];
      var rest := rules[1..];
      if !Applies(rule, e) then Prepend(rules[0], [], EvaluateRules(rest, e, now))
      else
        var (rule', result) := AnalyzeRule.AddAndCheck(rule, e, now);
        match result
        case Err(x) => RuleRun([(name, rule')] + rest, [], Some(x))
        case Ok(triggered) =>
          if !triggered then Prepend((name, rule'), [], EvaluateRules(rest, e, now))
          else if e.caughtException.None? then RuleRun([(name, rule')] + rest, [], Some(NullReference(DefaultNullReferenceText)))
          else Prepend((name, rule'), [RuleAlarm(rule', e)], EvaluateRules(rest, e, now))
  }

  /** A rule after an event it may or may not apply to, on its own. */
  function Updated(rule: Rule, e: Event, now: int): Rule
  {
    if Applies(rule, e) then AnalyzeRule.AddAndCheck(rule, e, now).0 else rule
  }

  /** Reference: the alarms of the applicable rules that trigger, each rule taken on its own. */
  function TriggeredAlarms(rules: seq<(string, Rule)>, e: Event, now: int): seq<AlarmMessage>
  {
    if |rules| == 0 then []
    else
      var rule := rules[0].1;
      var (rule', result) := AnalyzeRule.AddAndCheck(rule, e, now);
      (if Applies(rule, e) && result == Ok(true) then [RuleAlarm(rule', e)] else [])
      + TriggeredAlarms(rules[1..], e, now)
  }

  /** A run resumed after `done` rules that raised `alarms`, with `rest` still to see the event. */
  function Resume(done: seq<(string, Rule)>, alarms: seq<AlarmMessage>, rest: seq<(string, Rule)>, e: Event, now: int): RuleRun
  {
    var r := EvaluateRules(rest, e, now);
    RuleRun(done + r.rules, alarms + r.alarms, r.error)
  }

  /** Resuming past a rule that does not apply keeps it as it is. */
  lemma ResumeSkip(done: seq<(string, Rule)>, alarms: seq<AlarmMessage>, rest: seq<(string, Rule)>, e: Event, now: int)
    requires |rest| > 0 && !Applies(rest[0].1, e)
    ensures Resume(done, alarms, rest, e, now) == Resume(done + [rest[0]], alarms, rest[1..], e, now)
  {
    var sub := EvaluateRules(rest[1..], e, now);
    assert [] + sub.alarms == sub.alarms;
    assert EvaluateRules(rest, e, now) == RuleRun([rest[0]] + sub.rules, sub.alarms, sub.error);
    assert done + ([rest[0]] + sub.rules) == (done + [rest[0]]) + sub.rules;
  }

  /**
   * Resuming past an applicable rule that ran to (rule', result): the run
   * continues on false and on a trigger with a caught exception, and stops otherwise.
   */
  lemma ResumeRan(done: seq<(string, Rule)>, alarms: seq<AlarmMessage>, rest: seq<(string, Rule)>, e: Event, now: int,
                  rule': Rule, result: Result<bool>)
    requires |rest| > 0 && Applies(rest[0].1, e) && AnalyzeRule.AddAndCheck(rest[0].1, e, now) == (rule', result)
    ensures var entry := (rest[0].0, rule');
      && (result == Ok(false) ==> Resume(done, alarms, rest, e, now) == Resume(done + [entry], alarms, rest[1..], e, now))
      && (result == Ok(true) && e.caughtException.Some? ==>
            Resume(done, alarms, rest, e, now) == Resume(done + [entry], alarms + [RuleAlarm(rule', e)], rest[1..], e, now))
      && (result.Err? ==> Resume(done, alarms, rest, e, now) == RuleRun(done + [entry] + rest[1..], alarms, Some(result.error)))
      && (result == Ok(true) && e.caughtException.None? ==>
            Resume(done, alarms, rest, e, now) == RuleRun(done + [entry] + rest[1..], alarms, Some(NullReference(DefaultNullReferenceText))))
  {
    if result == Ok(false) {
      ResumePastFalse(done, alarms, rest, e, now, rule');
    } else if result == Ok(true) && e.caughtException.Some? {
      ResumePastAlarm(done, alarms, rest, e, now, rule');
    } else if result.Err? {
      ResumeStops(done, alarms, rest, e, now, rule', result, result.error);
    } else if result == Ok(true) && e.caughtException.None? {
      ResumeStops(done, alarms, rest, e, now, rule', result, NullReference(DefaultNullReferenceText));
    }
  }

  lemma ResumePastFalse(done: seq<(string, Rule)>, alarms: seq<AlarmMessage>, rest: seq<(string, Rule)>, e: Event, now: int,
                        rule': Rule)
    requires |rest| > 0 && Applies(rest[0].1, e) && AnalyzeRule.AddAndCheck(rest[0].1, e, now) == (rule', Ok(false))
    ensures Resume(done, alarms, rest, e, now) == Resume(done + [(rest[0].0, rule')], alarms, rest[1..], e, now)
  {
    EvaluateRan(rest, e, now, rule', Ok(false));
    var sub := EvaluateRules(rest[1..], e, now);
    var r0 := EvaluateRules(rest, e, now);
    assert [] + sub.alarms == sub.alarms;
    assert r0 == RuleRun([(rest[0].0, rule')] + sub.rules, sub.alarms, sub.error);
    assert done + ([(rest[0].0, rule')] + sub.rules) == (done + [(rest[0].0, rule')]) + sub.rules;
  }

  lemma ResumePastAlarm(done: seq<(string, Rule)>, alarms: seq<AlarmMessage>, rest: seq<(string, Rule)>, e: Event, now: int,
                        rule': Rule)
    requires |rest| > 0 && Applies(rest[0].1, e) && AnalyzeRule.AddAndCheck(rest[0].1, e, now) == (rule', Ok(true))
    requires e.caughtException.Some?
    ensures Resume(done, alarms, rest, e, now)
         == Resume(done + [(rest[0].0, rule')], alarms + [RuleAlarm(rule', e)], rest[1..], e, now)
  {
    EvaluateRan(rest, e, now, rule', Ok(true));
    var sub := EvaluateRules(rest[1..], e, now);
    assert done + ([(rest[0].0, rule')] + sub.rules) == (done + [(rest[0].0, rule')]) + sub.rules;
    assert alarms + ([RuleAlarm(rule', e)] + sub.alarms) == (alarms + [RuleAlarm(rule', e)]) + sub.alarms;
  }

  lemma ResumeStops(done: seq<(string, Rule)>, alarms: seq<AlarmMessage>, rest: seq<(string, Rule)>, e: Event, now: int,
                    rule': Rule, result: Result<bool>, x: Exception)
    requires |rest| > 0 && Applies(rest[0].1, e) && AnalyzeRule.AddAndCheck(rest[0].1, e, now) == (rule', result)
    requires result == Err(x) || (result == Ok(true) && e.caughtException.None? && x == NullReference(DefaultNullReferenceText))
    ensures Resume(done, alarms, rest, e, now) == RuleRun(done + [(rest[0].0, rule')] + rest[1..], alarms, Some(x))
  {
    EvaluateRan(rest, e, now, rule', result);
    assert done + ([(rest[0].0, rule')] + rest[1..]) == done + [(rest[0].0, rule')] + rest[1..];
  }

  /** EvaluateRules unfolded at an applicable first rule that ran to (rule', result). */
  lemma EvaluateRan(rest: seq<(string, Rule)>, e: Event, now: int, rule': Rule, result: Result<bool>)
    requires |rest| > 0 && Applies(rest[0].1, e) && AnalyzeRule.AddAndCheck(rest[0].1, e, now) == (rule', result)
    ensures var entry := (rest[0].0, rule');
      EvaluateRules(rest, e, now) ==
        match result
        case Err(x) => RuleRun([entry] + rest[1..], [], Some(x))
        case Ok(triggered) =>
          if !triggered then Prepend(entry, [], EvaluateRules(rest[1..], e, now))
          else if e.caughtException.None? then RuleRun([entry] + rest[1..], [], Some(NullReference(DefaultNullReferenceText)))
          else Prepend(entry, [RuleAlarm(rule', e)], EvaluateRules(rest[1..], e, now))
  {
  }

  /** One iteration of the analyzer thread: the next event through the rules, or the end of the thread. */
  function AnalyzerStep(a: Analyzer, now: int, host: string): (r: (Analyzer, seq<AlarmMessage>))
    requires a.threadRunning
  {
    if |a.eventQueue| == 0 then (a.(state := Stopped, threadRunning := false), [])
    else
      var run := EvaluateRules(a.rules, a.eventQueue[0], now);
      var a' := a.(rules := run.rules, eventQueue := a.eventQueue[1..]);
      if run.error.None? then (a', run.alarms)
      else (a'.(state := Stopped, threadRunning := false), run.alarms + [AnalyzerCrashAlarm(host, a.programName, run.error.value)])
  }

  /** Up to n iterations of the analyzer thread, fewer when it ends. */
  function RunThread(a: Analyzer, n: nat, now: int, host: string): Analyzer
    decreases n
  {
    if n == 0 || !a.threadRunning then a else RunThread(AnalyzerStep(a, now, host).0, n - 1, now, host)
  }

  /** The alarm of RuleTriggeredByTimeout: the rule's level, program and message. */
  function TimeoutAlarm(rule: Rule): AlarmMessage
  {
    AlarmMessage(rule.alarmLevel, rule.programName,
                 Some("Rule " + NullToEmpty(rule.ruleName) + " triggered. Message: " + NullToEmpty(rule.alarmMessage)),
                 None, None)
  }

  // ---------------------------------------------------------------------------
  // What the analyzer operations promise

  /**
   * AddOrReplaceRule refuses exactly a rule for another program (once the
   * name is set) and a rule without a name; otherwise that rule is stored
   * under its name and the others are kept.
   */
  lemma AddOrReplaceRuleOutcome(a: Analyzer, rule: Rule)
    ensures var (a', error) := AddOrReplaceRule(a, rule);
      && a'.state == a.state && a'.eventQueue == a.eventQueue && a'.threadRunning == a.threadRunning
      && (IsNullOrWhiteSpace(a.programName) ==> a'.programName == rule.programName)
      && (!IsNullOrWhiteSpace(a.programName) ==> a'.programName == a.programName)
      && (error.Some? <==> (!IsNullOrWhiteSpace(a.programName) && a.programName != rule.programName) || rule.ruleName.None?)
      && (error.None? ==> forall n :: Lookup(a'.rules, n) == if Some(n) == rule.ruleName then Some(rule) else Lookup(a.rules, n))
      && (error.Some? ==> a'.rules == a.rules)
  {
    var (a', error) := AddOrReplaceRule(a, rule);
    if error.None? {
      forall n ensures Lookup(a'.rules, n) == if Some(n) == rule.ruleName then Some(rule) else Lookup(a.rules, n) {
        LookupPut(a.rules, rule.ruleName.value, rule, n);
      }
    }
  }

  /**
   * After an event that raised no exception, each rule is what it would be
   * after the event on its own, and the alarms raised are exactly those of the
   * applicable rules that triggered, in rule order.
   */
  lemma {:induction false} EvaluationWithoutError(rules: seq<(string, Rule)>, e: Event, now: int)
    requires EvaluateRules(rules, e, now).error.None?
    ensures var run := EvaluateRules(rules, e, now);
      && |run.rules| == |rules|
      && (forall i :: 0 <= i < |rules| ==> run.rules[i] == (rules[i].0, Updated(rules[i].1, e, now)))
      && run.alarms == TriggeredAlarms(rules, e, now)
  {
    if |rules| > 0 {
      EvaluationWithoutError(rules[1..], e, now);
    }
  }

  /** Rules keep their names and places whatever happens on the way. */
  lemma {:induction false} EvaluationKeepsNames(rules: seq<(string, Rule)>, e: Event, now: int)
    ensures |EvaluateRules(rules, e, now).rules| == |rules|
    ensures forall i :: 0 <= i < |rules| ==> EvaluateRules(rules, e, now).rules[i].0 == rules[i].0
  {
    if |rules| > 0 {
      var rest := rules[1..];
      EvaluationKeepsNames(rest, e, now);
      var run := EvaluateRules(rules, e, now);
      EvaluateShape(rules, e, now);
      forall i | 1 <= i < |rules| ensures run.rules[i].0 == rules[i].0 {
        assert run.rules[i] == run.rules[1..][i - 1] && rules[i] == rest[i - 1];
      }
    }
  }

  /** The first rule keeps its name, and the rest are either untouched or what the run over them made of them. */
  lemma EvaluateShape(rules: seq<(string, Rule)>, e: Event, now: int)
    requires |rules| > 0
    ensures var run, sub := EvaluateRules(rules, e, now), EvaluateRules(rules[1..], e, now);
      |run.rules| > 0 && run.rules[0].0 == rules[0].0 && (run.rules[1..] == rules[1..] || run.rules[1..] == sub.rules)
  {
  }

  /** A rule on which an event's run throws: it applies, and it throws or triggers on an event without a caught exception. */
  predicate Fails(rule: Rule, e: Event, now: int)
  {
    Applies(rule, e)
    && (AnalyzeRule.AddAndCheck(rule, e, now).1.Err?
        || (AnalyzeRule.AddAndCheck(rule, e, now).1 == Ok(true) && e.caughtException.None?))
  }

  /** The index of the first rule that fails on the event, if any. */
  function FirstFailure(rules: seq<(string, Rule)>, e: Event, now: int): (k: Option<nat>)
    ensures k.Some? ==> k.value < |rules| && Fails(rules[k.value].1, e, now)
    ensures k.Some? ==> forall i :: 0 <= i < k.value ==> !Fails(rules[i].1, e, now)
    ensures k.None? ==> forall i :: 0 <= i < |rules| ==> !Fails(rules[i].1, e, now)
  {
    if |rules| == 0 then None
    else if Fails(rules[0].1, e, now) then Some(0)
    else match FirstFailure(rules[1..], e, now) case None => None case Some(k) => Some(k + 1)
  }

  /** A run raises an exception exactly when some rule fails on the event. */
  lemma {:induction false} ErrorIffFailure(rules: seq<(string, Rule)>, e: Event, now: int)
    ensures EvaluateRules(rules, e, now).error.Some? <==> FirstFailure(rules, e, now).Some?
  {
    if |rules| > 0 {
      ErrorIffFailure(rules[1..], e, now);
    }
  }

  /**
   * The exception stops the run at the first failing rule k: the rules before
   * it ran as on their own and raised their alarms, rule k ran and its
   * exception (or the NullReferenceException of a trigger without a caught
   * exception) is the run's, and the rules after it never saw the event.
   */
  lemma {:induction false} EvaluationStopsAtFailure(rules: seq<(string, Rule)>, e: Event, now: int)
    requires FirstFailure(rules, e, now).Some?
    ensures var k := FirstFailure(rules, e, now).value;
      var run := EvaluateRules(rules, e, now);
      var outcome := AnalyzeRule.AddAndCheck(rules[k].1, e, now).1;
      && |run.rules| == |rules|
      && (forall i :: 0 <= i <= k ==> run.rules[i] == (rules[i].0, Updated(rules[i].1, e, now)))
      && run.rules[k + 1..] == rules[k + 1..]
      && run.alarms == TriggeredAlarms(rules[..k], e, now)
      && run.error == Some(if outcome.Err? then outcome.error else NullReference(DefaultNullReferenceText))
  {
    var k := FirstFailure(rules, e, now).value;
    var run := EvaluateRules(rules, e, now);
    if Fails(rules[0].1, e, now) {
      assert k == 0 && rules[..0] == [];
      assert run.rules[1..] == rules[1..];
    } else {
      var rest := rules[1..];
      var sub := EvaluateRules(rest, e, now);
      EvaluationStopsAtFailure(rest, e, now);
      assert FirstFailure(rest, e, now).value == k - 1;
      EvaluatePassed(rules, e, now);
      assert run.rules[k + 1..] == sub.rules[k..];
      assert rules[k + 1..] == rest[k..];
      assert rules[..k][1..] == rest[..k - 1] && rules[..k][0] == rules[0];
    }
  }

  /** A first rule that does not fail is updated on its own, raises the alarm it raises on its own, and the run goes on. */
  lemma EvaluatePassed(rules: seq<(string, Rule)>, e: Event, now: int)
    requires |rules| > 0 && !Fails(rules[0].1, e, now)
    ensures var run, sub := EvaluateRules(rules, e, now), EvaluateRules(rules[1..], e, now);
      var (rule', result) := AnalyzeRule.AddAndCheck(rules[0].1, e, now);
      && run.rules == [(rules[0].0, Updated(rules[0].1, e, now))] + sub.rules
      && run.alarms == (if Applies(rules[0].1, e) && result == Ok(true) then [RuleAlarm(rule', e)] else []) + sub.alarms
      && run.error == sub.error
  {
  }

  /**
   * An event without a caught exception never produces a rule alarm: either
   * no applicable rule triggers, or the first trigger throws and ends the run.
   */
  lemma {:induction false} NoCaughtExceptionNoRuleAlarm(rules: seq<(string, Rule)>, e: Event, now: int)
    requires e.caughtException.None?
    ensures var run := EvaluateRules(rules, e, now);
      && run.alarms == []
      && (run.error.None? ==> forall i :: 0 <= i < |rules| && Applies(rules[i].1, e) ==>
            AnalyzeRule.AddAndCheck(rules[i].1, e, now).1 == Ok(false))
  {
    if |rules| > 0 {
      NoCaughtExceptionNoRuleAlarm(rules[1..], e, now);
    }
  }

  /**
   * One analyzer step takes the event at the head of the queue; without an
   * exception the state stays, otherwise the analyzer stops and raises one
   * Medium alarm after the rule alarms.  With an empty queue the thread ends
   * and the analyzer is Stopped.
   */
  lemma AnalyzerStepOutcome(a: Analyzer, now: int, host: string)
    requires a.threadRunning && AnalyzerInv(a)
    ensures var (a', alarms) := AnalyzerStep(a, now, host);
      && AnalyzerInv(a')
      && a'.programName == a.programName
      && |a'.rules| == |a.rules| && (forall i :: 0 <= i < |a.rules| ==> a'.rules[i].0 == a.rules[i].0)
      && (|a.eventQueue| == 0 ==> a'.state == Stopped && !a'.threadRunning && alarms == [] && a'.rules == a.rules)
      && (|a.eventQueue| > 0 ==>
            var run := EvaluateRules(a.rules, a.eventQueue[0], now);
            && a'.eventQueue == a.eventQueue[1..]
            && (run.error.None? ==> a'.state == a.state && a'.threadRunning && alarms == run.alarms)
            && (run.error.Some? ==>
                  (a'.state == Stopped && !a'.threadRunning
                   && alarms == run.alarms + [AnalyzerCrashAlarm(host, a.programName, run.error.value)]
                   && alarms[|alarms| - 1].level == Medium)))
  {
    if |a.eventQueue| > 0 {
      EvaluationKeepsNames(a.rules, a.eventQueue[0], now);
    }
  }

  /**
   * A live analyzer thread ends after at most one step more than there are
   * events in its queue, whatever its state, and leaves the analyzer Stopped.
   */
  lemma {:induction false} ThreadEndsStopped(a: Analyzer, now: int, host: string)
    requires a.threadRunning
    decreases |a.eventQueue|
    ensures var b := RunThread(a, |a.eventQueue| + 1, now, host);
      b.state == Stopped && !b.threadRunning
  {
    var a' := AnalyzerStep(a, now, host).0;
    if |a.eventQueue| > 0 && a'.threadRunning {
      assert |a'.eventQueue| + 1 == |a.eventQueue|;
      ThreadEndsStopped(a', now, host);
    }
  }

  /**
   * StopAnalyzer on an analyzer without a thread leaves it ShuttingDown for
   * good: no thread will set it Stopped, and the engine restarts only Stopped
   * analyzers.
   */
  lemma IdleAnalyzerStaysShuttingDown(a: Analyzer, e: Event)
    requires a.state == Stopped && AnalyzerInv(a)
    ensures var b := StopAnalyzer(a);
      && b.state == ShuttingDown && !b.threadRunning && AnalyzerInv(b)
      && AddEvent(b, e).state == ShuttingDown && !AddEvent(b, e).threadRunning
  {
  }

  // ---------------------------------------------------------------------------
  // The engine, as a value

  /** Where the engine thread is: not started (or ended), in its main loop, or draining the main queue. */
  datatype EnginePhase = NoThread | MainLoopRunning | Draining

  /**
   * The engine: its state, its thread, the start instant of a pending
   * StopEngine task, the main event queue, the analyzers keyed by program
   * name, its messages, and the alarms raised through its alarm manager.
   */
  datatype EngineValue = EngineValue(
    state: State,
    phase: EnginePhase,
    shutdownSince: Option<int>,
    mainEventQueue: seq<Event>,
    analyzers: seq<(string, Analyzer)>,
    messages: seq<string>,
    alarms: seq<AlarmMessage>)

  /** Every analyzer is registered under the program name it analyses. */
  predicate NamedByKey(reg: seq<(string, Analyzer)>)
  {
    forall i :: 0 <= i < |reg| ==> reg[i].1.programName == Some(reg[i].0)
  }

  predicate RegistryInv(reg: seq<(string, Analyzer)>)
  {
    UniqueKeys(reg) && NamedByKey(reg) && forall i :: 0 <= i < |reg| ==> AnalyzerInv(reg[i].1)
  }

  predicate EngineInv(v: EngineValue)
  {
    RegistryInv(v.analyzers)
  }

  // Engine messages

  function StartingText(guid: nat): string
  {
    "Starting AnalyzerEngine " + GuidText(guid)
  }

  function RuleAddedText(rule: Rule): string
  {
    "Rule " + NullToEmpty(rule.ruleName) + " added to ProgramAnalyzer for " + NullToEmpty(rule.programName)
    + ". Rule applies to operation: "
    + (if IsNullOrEmpty(rule.operationName) then "All operations" else rule.operationName.value) + "."
  }

  function EventAddedText(e: Event, tenant: string): string
  {
    ResultName(e.result) + " event " + NullToEmpty(e.operationName) + " added from " + tenant + "."
  }

  function NotStoppedText(count: nat, waitedMs: nat): string
  {
    NatToString(count) + " analyzers not stopped. Waited " + NatToString(waitedMs) + " ms."
  }

  function DrainingText(count: nat): string
  {
    "Shutting down. Running main loop until main queue is empty. " + NatToString(count) + " events in queue."
  }

  const EngineCrashText := "Exception in AnalyzerEngine.StartEngine. Engine is down. Engine will try to restart."

  const NotRunningText := "Engine is not running. Cannot add events to it."

  /** How long StopEngine waits for the analyzers, in milliseconds. */
  const ShutdownWaitMs := 30000

  /** The result of AddRulesToAnalyzer: the registry, the messages, and the exception that ended it, if any. */
  datatype Loaded = Loaded(analyzers: seq<(string, Analyzer)>, messages: seq<string>, error: Option<Exception>)

  /**
   * One rule of AddRulesToAnalyzer: GetOrCreateAnalyzer registers a blank
   * analyzer (GetOrAdd) when the program has none, a null program name being
   * refused by the dictionary; the rule is added to it and, when that
   * succeeds, the rule's message is logged.  The first exception ends the
   * loading.
   */
  function LoadRule(reg: seq<(string, Analyzer)>, rule: Rule): (l: Loaded)
  {
    if rule.programName.None? then Loaded(reg, [], Some(ArgumentNull("key")))
    else
      var p := rule.programName.value;
      var a := match Lookup(reg, p) case Some(x) => x case None => NewAnalyzer;
      var (a', error) := AddOrReplaceRule(a, rule);
      Loaded(Put(reg, p, a'), if error.Some? then [] else [RuleAddedText(rule)], error)
  }

  function AddRulesToAnalyzer(reg: seq<(string, Analyzer)>, rules: seq<Rule>): (l: Loaded)
    decreases |rules|
  {
    if |rules| == 0 then Loaded(reg, [], None)
    else
      var s := LoadRule(reg, rules[0]);
      if s.error.Some? then s
      else AfterMessages(s.messages, AddRulesToAnalyzer(s.analyzers, rules[1..]))
  }

  /** A loading result with `messages` logged before its own. */
  function AfterMessages(messages: seq<string>, l: Loaded): Loaded
  {
    Loaded(l.analyzers, messages + l.messages, l.error)
  }

  /** AddRulesToAnalyzer from rule i on, unfolded once. */
  lemma LoadStep(reg: seq<(string, Analyzer)>, rules: seq<Rule>, i: nat)
    requires i < |rules|
    ensures var s := LoadRule(reg, rules[i]);
      AddRulesToAnalyzer(reg, rules[i..]) ==
        if s.error.Some? then s else AfterMessages(s.messages, AddRulesToAnalyzer(s.analyzers, rules[i + 1..]))
  {
    assert rules[i..][0] == rules[i] && rules[i..][1..] == rules[i + 1..];
  }

  /** The invariant of the loading loop, carried over one rule: `added` are the messages logged so far. */
  lemma LoadInvStep(reg0: seq<(string, Analyzer)>, rules: seq<Rule>, i: nat, added: seq<string>, reg: seq<(string, Analyzer)>)
    requires i < |rules|
    requires AddRulesToAnalyzer(reg0, rules) == AfterMessages(added, AddRulesToAnalyzer(reg, rules[i..]))
    ensures var s := LoadRule(reg, rules[i]);
      if s.error.Some? then AddRulesToAnalyzer(reg0, rules) == AfterMessages(added, s)
      else AddRulesToAnalyzer(reg0, rules) == AfterMessages(added + s.messages, AddRulesToAnalyzer(s.analyzers, rules[i + 1..]))
  {
    LoadStep(reg, rules, i);
    var s := LoadRule(reg, rules[i]);
    if s.error.None? {
      var rest := AddRulesToAnalyzer(s.analyzers, rules[i + 1..]);
      assert added + (s.messages + rest.messages) == (added + s.messages) + rest.messages;
    }
  }

  /** Every analyzer with StartAnalyzer applied, in registry order. */
  function StartAll(reg: seq<(string, Analyzer)>): (r: seq<(string, Analyzer)>)
    ensures |r| == |reg| && Keys(r) == Keys(reg)
    ensures forall i :: 0 <= i < |reg| ==> r[i] == (reg[i].0, StartAnalyzer(reg[i].1))
  {
    seq(|reg|, i requires 0 <= i < |reg| => (reg[i].0, StartAnalyzer(reg[i].1)))
  }

  /** Every analyzer with StopAnalyzer applied, in registry order. */
  function StopAll(reg: seq<(string, Analyzer)>): (r: seq<(string, Analyzer)>)
    ensures |r| == |reg| && Keys(r) == Keys(reg)
    ensures forall i :: 0 <= i < |reg| ==> r[i] == (reg[i].0, StopAnalyzer(reg[i].1))
  {
    seq(|reg|, i requires 0 <= i < |reg| => (reg[i].0, StopAnalyzer(reg[i].1)))
  }

  function StoppingTexts(reg: seq<(string, Analyzer)>): (r: seq<string>)
    ensures |r| == |reg|
    ensures forall i :: 0 <= i < |reg| ==> r[i] == "Stopping analyzer for " + reg[i].0
  {
    seq(|reg|, i requires 0 <= i < |reg| => "Stopping analyzer for " + reg[i].0)
  }

  /** The number of analyzers that are not Stopped. */
  function NotStopped(reg: seq<(string, Analyzer)>): (n: nat)
    ensures n <= |reg|
    ensures n == 0 <==> forall i :: 0 <= i < |reg| ==> reg[i].1.state == Stopped
  {
    if |reg| == 0 then 0
    else (if reg[0].1.state != Stopped then 1 else 0) + NotStopped(reg[1..])
  }

  /**
   * StartEngine: clears the registry, loads the rules, starts every analyzer
   * and then the engine thread.  An exception while loading escapes before
   * any analyzer or the engine thread is started.
   */
  function StartEngine(v: EngineValue, rules: seq<Rule>, guid: nat): (r: (EngineValue, Option<Exception>))
  {
    var l := AddRulesToAnalyzer([], rules);
    var msgs := v.messages + [StartingText(guid)] + (if |rules| == 0 then ["Starting with no rules."] else l.messages);
    if l.error.Some? then (v.(analyzers := l.analyzers, messages := msgs), l.error)
    else (v.(analyzers := StartAll(l.analyzers), messages := msgs + ["Main engine thread started."],
             state := Running, phase := MainLoopRunning), None)
  }

  /** StopEngine: the first statements of its task; the waiting is ShutdownStep. */
  function StopEngine(v: EngineValue, now: int): EngineValue
  {
    v.(state := ShuttingDown, shutdownSince := Some(now),
       messages := v.messages + ["Initiating engine shutdown.", "Waiting for all analyzers to finish."])
  }

  /** One round of the StopEngine task's wait: 30 s at most, while some analyzer is not Stopped. */
  function ShutdownStep(v: EngineValue, now: int): EngineValue
    requires v.shutdownSince.Some? && v.shutdownSince.value <= now
  {
    var waited := (now - v.shutdownSince.value) / TicksPerMillisecond;
    var n := NotStopped(v.analyzers);
    if n > 0 && waited < ShutdownWaitMs then v.(messages := v.messages + [NotStoppedText(n, waited)])
    else v.(messages := v.messages + ["Shutdown complete."], state := Stopped, shutdownSince := None)
  }

  /** AddToMainQueue: refused unless the engine is Running; the events join the queue in order. */
  function AddToMainQueue(v: EngineValue, events: seq<Event>): (r: (EngineValue, Option<Exception>))
  {
    if v.state != Running then (v, Some(General(NotRunningText)))
    else (v.(mainEventQueue := v.mainEventQueue + events), None)
  }

  /** The result of the engine's MainLoop: the queue and registry after it, its messages and its exception. */
  datatype Dispatched = Dispatched(queue: seq<Event>, analyzers: seq<(string, Analyzer)>, messages: seq<string>, error: Option<Exception>)

  /**
   * The engine's MainLoop: the next event goes to its application's
   * analyzer, which is restarted when Stopped; an application without one
   * gets a blank analyzer, started.  A null application name is refused by
   * the dictionary lookup.  An empty queue makes the thread sleep.
   */
  function Dispatch(queue: seq<Event>, reg: seq<(string, Analyzer)>): (d: Dispatched)
    ensures |queue| == 0 ==> d == Dispatched(queue, reg, [], None)
    ensures |queue| > 0 ==> d.queue == queue[1..]
    ensures d.error.Some? <==> |queue| > 0 && queue[0].tenant.None?
    ensures d.error.Some? ==> d.analyzers == reg && d.messages == []
  {
    if |queue| == 0 then Dispatched(queue, reg, [], None)
    else
      var e := queue[0];
      if e.tenant.None? then Dispatched(queue[1..], reg, [], Some(ArgumentNull("key")))
      else
        var t := e.tenant.value;
        match Lookup(reg, t)
        case Some(a) => DispatchToKnown(queue[1..], reg, t, a, e)
        case None => DispatchToBlank(queue[1..], reg, t, e)
  }

  /** The event goes to the registered analyzer, which is restarted first when it has stopped. */
  function DispatchToKnown(rest: seq<Event>, reg: seq<(string, Analyzer)>, t: string, a: Analyzer, e: Event): Dispatched
  {
    var restart := a.state == Stopped;
    Dispatched(rest, Put(reg, t, AddEvent(if restart then StartAnalyzer(a) else a, e)),
               (if restart then [NullToEmpty(a.programName) + " analyzer not running. Starting."] else [])
               + [EventAddedText(e, t)],
               None)
  }

  /** No analyzer is registered for the event's application: a blank one is added, started and given the event. */
  function DispatchToBlank(rest: seq<Event>, reg: seq<(string, Analyzer)>, t: string, e: Event): Dispatched
  {
    Dispatched(rest, Put(reg, t, AddEvent(StartAnalyzer(NewAnalyzer.(programName := Some(t))), e)),
               ["No analyzer for " + t + " in Analyzers. Trying to add a blank one with no rules.",
                "Added blank analyzer for " + t + " in Analyzers."],
               None)
  }

  function EngineCrashAlarm(host: string, x: Exception): AlarmMessage
  {
    AlarmMessage(Medium, Some(host), Some(EngineCrashText), Some(ExceptionMessage(x)), None)
  }

  /** The engine thread's MainLoop call inside its try block: an exception stops the engine and ends the thread. */
  function EngineMainLoop(v: EngineValue, host: string): EngineValue
  {
    var d := Dispatch(v.mainEventQueue, v.analyzers);
    var v' := v.(mainEventQueue := d.queue, analyzers := d.analyzers, messages := v.messages + d.messages);
    if d.error.None? then v'
    else v'.(state := Stopped, phase := NoThread, alarms := v.alarms + [EngineCrashAlarm(host, d.error.value)])
  }

  /** One iteration of the engine thread. */
  function EngineThreadStep(v: EngineValue, host: string): EngineValue
    requires v.phase != NoThread
  {
    if v.phase == MainLoopRunning && v.state != Running then EngineStartDraining(v)
    else if v.phase == Draining && |v.mainEventQueue| == 0 then EngineStopAnalyzers(v)
    else EngineMainLoop(v, host)
  }

  /** A shutdown was requested: log the queue length and start draining. */
  function EngineStartDraining(v: EngineValue): EngineValue
  {
    v.(phase := Draining, messages := v.messages + [DrainingText(|v.mainEventQueue|)])
  }

  /** The queue is drained: stop every analyzer and end the engine thread. */
  function EngineStopAnalyzers(v: EngineValue): EngineValue
  {
    v.(phase := NoThread, analyzers := StopAll(v.analyzers),
       messages := v.messages + ["Main queue emptied. Shutting down analyzers"] + StoppingTexts(v.analyzers))
  }

  /** One iteration of the thread of the analyzer registered under `name`. */
  function AnalyzerThreadStep(v: EngineValue, name: string, now: int, host: string): EngineValue
    requires Lookup(v.analyzers, name).Some? && Lookup(v.analyzers, name).value.threadRunning
  {
    var (a', alarms) := AnalyzerStep(Lookup(v.analyzers, name).value, now, host);
    v.(analyzers := Put(v.analyzers, name, a'), alarms := v.alarms + alarms)
  }

  /** AnalyzerInstanceInfo. */
  datatype AnalyzerInstanceInfo = AnalyzerInstanceInfo(name: NString, state: NString, eventsInQueue: int, numberOfRulesLoaded: int)

  function InfoListEntry(key: string, a: Analyzer): AnalyzerInstanceInfo
  {
    AnalyzerInstanceInfo(Some(key), Some(StateName(a.state)), |a.eventQueue|, |a.rules|)
  }

  /** GetInfoForAnalyzer: the analyzer's own program name, state and counts; blank for an unknown name. */
  function GetInfoForAnalyzer(reg: seq<(string, Analyzer)>, name: NString): (r: Result<AnalyzerInstanceInfo>)
    ensures name.None? <==> r.Err?
    ensures name.Some? && name.value !in Keys(reg) ==> r == Ok(AnalyzerInstanceInfo(None, None, 0, 0))
  {
    if name.None? then Err(ArgumentNull("key"))
    else match Lookup(reg, name.value)
      case None => Ok(AnalyzerInstanceInfo(None, None, 0, 0))
      case Some(a) => Ok(AnalyzerInstanceInfo(a.programName, Some(StateName(a.state)), |a.eventQueue|, |a.rules|))
  }

  /** GetRulesLoadedInAnalyzer: the rule names of the analyzer, none for an unknown name. */
  function GetRulesLoadedInAnalyzer(reg: seq<(string, Analyzer)>, name: NString): (r: Result<seq<string>>)
    ensures name.None? <==> r.Err?
    ensures name.Some? && name.value !in Keys(reg) ==> r == Ok([])
  {
    if name.None? then Err(ArgumentNull("key"))
    else match Lookup(reg, name.value)
      case None => Ok([])
      case Some(a) => Ok(Keys(a.rules))
  }

  // ---------------------------------------------------------------------------
  // What the engine promises

  /** Every analyzer is Stopped and holds only rules taken from `all`. */
  predicate StoppedWithRulesFrom(reg: seq<(string, Analyzer)>, all: seq<Rule>)
  {
    forall i :: 0 <= i < |reg| ==>
      reg[i].1.state == Stopped && forall j :: 0 <= j < |reg[i].1.rules| ==> reg[i].1.rules[j].1 in all
  }

  /** The entry Put leaves at index j is the new one or one that was there. */
  lemma {:induction false} PutEntryFrom<V>(a: seq<(string, V)>, k: string, v: V, j: nat)
    requires j < |Put(a, k, v)|
    ensures Put(a, k, v)[j] == (k, v) || exists i :: 0 <= i < |a| && Put(a, k, v)[j] == a[i]
  {
    var r := Put(a, k, v);
    if |a| == 0 {
    } else if a[0].0 == k {
      assert r == [(k, v)] + a[1..];
      if j > 0 {
        assert r[j] == a[j];
      }
    } else {
      var rest := Put(a[1..], k, v);
      assert r == [a[0]] + rest;
      if j == 0 {
        assert r[0] == a[0];
      } else {
        PutEntryFrom(a[1..], k, v, j - 1);
        if rest[j - 1] != (k, v) {
          var i :| 0 <= i < |a[1..]| && rest[j - 1] == a[1..][i];
          assert r[j] == a[i + 1];
        }
      }
    }
  }

  /** Putting an analyzer that is named by its key keeps the registry invariant. */
  lemma PutKeepsInv(reg: seq<(string, Analyzer)>, t: string, a: Analyzer)
    requires RegistryInv(reg) && a.programName == Some(t) && AnalyzerInv(a)
    ensures RegistryInv(Put(reg, t, a))
  {
    var r := Put(reg, t, a);
    UniqueAfterPut(reg, t, a);
    forall i | 0 <= i < |r| ensures r[i].1.programName == Some(r[i].0) && AnalyzerInv(r[i].1) {
      PutEntryFrom(reg, t, a, i);
      if r[i] != (t, a) {
        var m :| 0 <= m < |reg| && r[i] == reg[m];
      }
    }
  }

  /** ... and, for a Stopped analyzer holding only rules from `all`, StoppedWithRulesFrom. */
  lemma PutKeepsStopped(reg: seq<(string, Analyzer)>, t: string, a: Analyzer, all: seq<Rule>)
    requires StoppedWithRulesFrom(reg, all)
    requires a.state == Stopped && forall j :: 0 <= j < |a.rules| ==> a.rules[j].1 in all
    ensures StoppedWithRulesFrom(Put(reg, t, a), all)
  {
    var r := Put(reg, t, a);
    forall i | 0 <= i < |r|
      ensures r[i].1.state == Stopped && forall j :: 0 <= j < |r[i].1.rules| ==> r[i].1.rules[j].1 in all
    {
      PutEntryFrom(reg, t, a, i);
      if r[i] != (t, a) {
        var m :| 0 <= m < |reg| && r[i] == reg[m];
      }
    }
  }

  /**
   * Adding a rule of program p to a Stopped analyzer that is blank or
   * already analyses p: the analyzer ends up analysing p, still Stopped,
   * holding only rules from `all`; only a null rule name is refused.
   */
  lemma AddRuleToOwnAnalyzer(a: Analyzer, p: string, rule: Rule, all: seq<Rule>)
    requires a.programName == Some(p) || a.programName.None?
    requires rule.programName == Some(p) && rule in all
    requires a.state == Stopped && AnalyzerInv(a) && forall j :: 0 <= j < |a.rules| ==> a.rules[j].1 in all
    ensures var (a', error) := AddOrReplaceRule(a, rule);
      && a'.programName == Some(p) && a'.state == Stopped && AnalyzerInv(a')
      && (forall j :: 0 <= j < |a'.rules| ==> a'.rules[j].1 in all)
      && (error.Some? ==> error == Some(ArgumentNull("key")))
  {
    var (a', error) := AddOrReplaceRule(a, rule);
    if error.None? {
      forall j | 0 <= j < |a'.rules| ensures a'.rules[j].1 in all {
        PutEntryFrom(a.rules, rule.ruleName.value, rule, j);
      }
    }
  }

  /**
   * Loading rules: one analyzer per program name, each registered under that
   * name and Stopped, and every stored rule one of the rules loaded (so it
   * has exactly the observers it came with).
   */
  lemma {:induction false} LoadedRegistry(reg: seq<(string, Analyzer)>, rules: seq<Rule>, all: seq<Rule>)
    requires RegistryInv(reg) && StoppedWithRulesFrom(reg, all)
    requires forall r :: r in rules ==> r in all
    ensures var l := AddRulesToAnalyzer(reg, rules);
      RegistryInv(l.analyzers) && StoppedWithRulesFrom(l.analyzers, all)
    decreases |rules|
  {
    if |rules| > 0 && rules[0].programName.Some? {
      assert rules[0] in rules;
      LoadRuleKeepsInv(reg, rules[0], all);
      var s := LoadRule(reg, rules[0]);
      if s.error.None? {
        var rest := rules[1..];
        assert forall r :: r in rest ==> r in rules;
        LoadedRegistry(s.analyzers, rest, all);
      }
    }
  }

  /**
   * Loading keeps every registered name, adds only the program names of the
   * rules, and on success every rule's program has an analyzer.
   */
  lemma {:induction false} LoadedKeys(reg: seq<(string, Analyzer)>, rules: seq<Rule>)
    ensures var l := AddRulesToAnalyzer(reg, rules);
      && (forall k :: k in Keys(reg) ==> k in Keys(l.analyzers))
      && (forall k :: k in Keys(l.analyzers) ==> k in Keys(reg) || exists r :: r in rules && r.programName == Some(k))
      && (l.error.None? ==> forall r :: r in rules ==> r.programName.Some? && r.programName.value in Keys(l.analyzers))
    decreases |rules|
  {
    if |rules| > 0 && rules[0].programName.Some? {
      var rule, rest := rules[0], rules[1..];
      assert rule in rules;
      var s := LoadRule(reg, rule);
      var l := AddRulesToAnalyzer(reg, rules);
      assert Keys(s.analyzers) == if rule.programName.value in Keys(reg) then Keys(reg) else Keys(reg) + [rule.programName.value];
      if s.error.None? {
        LoadedKeys(s.analyzers, rest);
        var l' := AddRulesToAnalyzer(s.analyzers, rest);
        assert l.analyzers == l'.analyzers && l.error == l'.error;
        forall k | k in Keys(l.analyzers) ensures k in Keys(reg) || exists r :: r in rules && r.programName == Some(k) {
          if k !in Keys(reg) && k in Keys(s.analyzers) {
            assert rule.programName == Some(k);
          } else if k !in Keys(reg) {
            var r :| r in rest && r.programName == Some(k);
            assert r in rules;
          }
        }
        forall r | r in rules && l.error.None?
          ensures r.programName.Some? && r.programName.value in Keys(l.analyzers)
        {
          if r != rule {
            assert r in rest;
          }
        }
      } else {
        assert rule.programName == Some(rule.programName.value);
      }
    }
  }

  /** Loading one rule with a program name keeps the registry invariant and adds at most that name. */
  lemma LoadRuleKeepsInv(reg: seq<(string, Analyzer)>, rule: Rule, all: seq<Rule>)
    requires RegistryInv(reg) && StoppedWithRulesFrom(reg, all)
    requires rule in all && rule.programName.Some?
    ensures var s := LoadRule(reg, rule);
      && RegistryInv(s.analyzers) && StoppedWithRulesFrom(s.analyzers, all)
      && Keys(s.analyzers) == (if rule.programName.value in Keys(reg) then Keys(reg) else Keys(reg) + [rule.programName.value])
  {
    var p := rule.programName.value;
    var a := match Lookup(reg, p) case Some(x) => x case None => NewAnalyzer;
    if Lookup(reg, p).Some? {
      var i :| 0 <= i < |reg| && reg[i] == (p, Lookup(reg, p).value);
    }
    AddRuleToOwnAnalyzer(a, p, rule, all);
    var (a', error) := AddOrReplaceRule(a, rule);
    PutKeepsInv(reg, p, a');
    PutKeepsStopped(reg, p, a', all);
  }

  /** StartAll keeps the registry invariant and leaves every analyzer Running with a thread. */
  lemma StartAllKeepsInv(reg: seq<(string, Analyzer)>)
    requires RegistryInv(reg)
    ensures RegistryInv(StartAll(reg))
    ensures forall i :: 0 <= i < |reg| ==> StartAll(reg)[i].1.state == Running && StartAll(reg)[i].1.threadRunning
  {
    var s := StartAll(reg);
    forall i, j | 0 <= i < j < |s| ensures s[i].0 != s[j].0 {
      assert s[i].0 == reg[i].0 && s[j].0 == reg[j].0;
    }
  }

  /**
   * StartEngine on success: the registry holds exactly the program names of
   * the rules, every analyzer is Running with a thread, the engine is
   * Running with its thread in the main loop, and the queue is untouched.
   * On failure nothing is started.
   */
  lemma StartEngineOutcome(v: EngineValue, rules: seq<Rule>, guid: nat)
    ensures var (v', error) := StartEngine(v, rules, guid);
      && EngineInv(v')
      && v'.mainEventQueue == v.mainEventQueue && v'.alarms == v.alarms
      && (error.None? ==>
            && v'.state == Running && v'.phase == MainLoopRunning
            && (forall i :: 0 <= i < |v'.analyzers| ==> v'.analyzers[i].1.state == Running && v'.analyzers[i].1.threadRunning)
            && (forall k :: k in Keys(v'.analyzers) <==> exists r :: r in rules && r.programName == Some(k)))
      && (error.Some? ==>
            && v'.state == v.state && v'.phase == v.phase
            && (forall i :: 0 <= i < |v'.analyzers| ==> v'.analyzers[i].1.state == Stopped && !v'.analyzers[i].1.threadRunning))
  {
    LoadedRegistry([], rules, rules);
    LoadedKeys([], rules);
    var l := AddRulesToAnalyzer([], rules);
    if l.error.None? {
      StartAllKeepsInv(l.analyzers);
      var s := StartAll(l.analyzers);
      forall k ensures k in Keys(s) <==> exists r :: r in rules && r.programName == Some(k) {
        assert Keys(s) == Keys(l.analyzers);
        if r :| r in rules && r.programName == Some(k) {
          assert r.programName.value in Keys(l.analyzers);
        }
      }
    } else {
      forall i | 0 <= i < |l.analyzers| ensures !l.analyzers[i].1.threadRunning {
        assert AnalyzerInv(l.analyzers[i].1);
      }
    }
  }

  /** StartEngine keeps the engine's invariant whether or not the rules load. */
  lemma StartEngineInv(v: EngineValue, rules: seq<Rule>, guid: nat)
    ensures EngineInv(StartEngine(v, rules, guid).0)
  {
    LoadedRegistry([], rules, rules);
    var l := AddRulesToAnalyzer([], rules);
    if l.error.None? {
      StartAllKeepsInv(l.analyzers);
    }
  }

  /** ProgramAnalyzer attaches no observer, so a loaded TimeBetweenOperations rule keeps the (stored, empty) observers of the rule it was loaded from. */
  lemma LoadedRulesKeepTheirObservers(rules: seq<Rule>, guid: nat, v: EngineValue)
    requires forall r :: r in rules && r.kind.TimeBetweenOperations? ==> r.kind.observers == []
    ensures var v' := StartEngine(v, rules, guid).0;
      forall i, j :: 0 <= i < |v'.analyzers| && 0 <= j < |v'.analyzers[i].1.rules| && v'.analyzers[i].1.rules[j].1.kind.TimeBetweenOperations?
        ==> v'.analyzers[i].1.rules[j].1.kind.observers == []
  {
    LoadedRegistry([], rules, rules);
    var l := AddRulesToAnalyzer([], rules);
    var v' := StartEngine(v, rules, guid).0;
    forall i, j | 0 <= i < |v'.analyzers| && 0 <= j < |v'.analyzers[i].1.rules| && v'.analyzers[i].1.rules[j].1.kind.TimeBetweenOperations?
      ensures v'.analyzers[i].1.rules[j].1.kind.observers == []
    {
      assert v'.analyzers[i].1.rules == l.analyzers[i].1.rules;
      assert l.analyzers[i].1.rules[j].1 in rules;
    }
  }

  /**
   * MainLoop with a known application: the event joins the end of that
   * analyzer's queue, a Stopped analyzer is restarted, nothing else in the
   * registry changes.
   */
  lemma DispatchKnownApplication(queue: seq<Event>, reg: seq<(string, Analyzer)>)
    requires |queue| > 0 && queue[0].tenant.Some? && queue[0].tenant.value in Keys(reg)
    ensures var d := Dispatch(queue, reg);
      var t := queue[0].tenant.value;
      var a := Lookup(reg, t).value;
      && d.error.None? && Keys(d.analyzers) == Keys(reg)
      && Lookup(d.analyzers, t).value.eventQueue == a.eventQueue + [queue[0]]
      && Lookup(d.analyzers, t).value.state == (if a.state == Stopped then Running else a.state)
      && Lookup(d.analyzers, t).value.rules == a.rules
      && (forall k :: k != t ==> Lookup(d.analyzers, k) == Lookup(reg, k))
  {
    var t := queue[0].tenant.value;
    var a := Lookup(reg, t).value;
    var a' := AddEvent(if a.state == Stopped then StartAnalyzer(a) else a, queue[0]);
    var d := Dispatch(queue, reg);
    assert d.analyzers == Put(reg, t, a');
    forall k ensures Lookup(d.analyzers, k) == if k == t then Some(a') else Lookup(reg, k) {
      LookupPut(reg, t, a', k);
    }
  }

  /** MainLoop with an unknown application registers a blank analyzer for it, Running, holding just this event. */
  lemma DispatchNewApplication(queue: seq<Event>, reg: seq<(string, Analyzer)>)
    requires |queue| > 0 && queue[0].tenant.Some? && queue[0].tenant.value !in Keys(reg)
    ensures var d := Dispatch(queue, reg);
      var t := queue[0].tenant.value;
      && d.error.None? && Keys(d.analyzers) == Keys(reg) + [t]
      && Lookup(d.analyzers, t) == Some(Analyzer(Running, true, Some(t), [], [queue[0]]))
      && (forall k :: k != t ==> Lookup(d.analyzers, k) == Lookup(reg, k))
  {
    var t := queue[0].tenant.value;
    var a' := AddEvent(StartAnalyzer(NewAnalyzer.(programName := Some(t))), queue[0]);
    assert a'.eventQueue == [queue[0]];
    var d := Dispatch(queue, reg);
    assert Lookup(reg, t).None?;
    assert d.analyzers == Put(reg, t, a');
    forall k ensures Lookup(d.analyzers, k) == if k == t then Some(a') else Lookup(reg, k) {
      LookupPut(reg, t, a', k);
    }
  }

  /** MainLoop keeps the registry invariant. */
  lemma DispatchKeepsInv(queue: seq<Event>, reg: seq<(string, Analyzer)>)
    requires RegistryInv(reg)
    ensures RegistryInv(Dispatch(queue, reg).analyzers)
  {
    if |queue| > 0 && queue[0].tenant.Some? {
      var e := queue[0];
      var t := e.tenant.value;
      match Lookup(reg, t) {
        case Some(a) =>
          var m :| 0 <= m < |reg| && reg[m] == (t, a);
          var a' := AddEvent(if a.state == Stopped then StartAnalyzer(a) else a, e);
          assert Dispatch(queue, reg).analyzers == Put(reg, t, a');
          PutKeepsInv(reg, t, a');
        case None =>
          var a' := AddEvent(StartAnalyzer(NewAnalyzer.(programName := Some(t))), e);
          assert Dispatch(queue, reg).analyzers == Put(reg, t, a');
          PutKeepsInv(reg, t, a');
      }
    }
  }

  /**
   * An exception in the engine thread (an event without an application name)
   * stops the engine, ends the thread and raises one Medium alarm; the event is lost.
   */
  lemma EngineCrashStopsEngine(v: EngineValue, host: string)
    requires v.phase == MainLoopRunning && v.state == Running
    requires |v.mainEventQueue| > 0 && v.mainEventQueue[0].tenant.None?
    ensures var v' := EngineThreadStep(v, host);
      && v'.state == Stopped && v'.phase == NoThread
      && v'.alarms == v.alarms + [AlarmMessage(Medium, Some(host), Some(EngineCrashText), Some(ExceptionMessage(ArgumentNull("key"))), None)]
      && v'.mainEventQueue == v.mainEventQueue[1..] && v'.analyzers == v.analyzers
  {
  }

  /**
   * Once the engine leaves Running, its thread drains the main queue and only
   * then asks every analyzer to shut down; it never ends with events left
   * unless it crashed.
   */
  lemma EngineThreadEndsOnEmptyQueue(v: EngineValue, host: string)
    requires v.phase != NoThread
    ensures var v' := EngineThreadStep(v, host);
      v'.phase == NoThread ==>
        (v.phase == Draining && |v.mainEventQueue| == 0 && v'.analyzers == StopAll(v.analyzers) && v'.state == v.state)
        || (v'.state == Stopped && |v'.alarms| == |v.alarms| + 1 && v'.alarms[|v.alarms|].level == Medium)
  {
  }

  /** The engine thread keeps the registry invariant; the final StopAll leaves no analyzer Running without a thread. */
  lemma EngineThreadStepKeepsInv(v: EngineValue, host: string)
    requires v.phase != NoThread && EngineInv(v)
    ensures EngineInv(EngineThreadStep(v, host))
  {
    if v.phase == Draining && |v.mainEventQueue| == 0 {
      var s := StopAll(v.analyzers);
      forall i, j | 0 <= i < j < |s| ensures s[i].0 != s[j].0 {
        assert s[i].0 == v.analyzers[i].0 && s[j].0 == v.analyzers[j].0;
      }
    } else if !(v.phase == MainLoopRunning && v.state != Running) {
      DispatchKeepsInv(v.mainEventQueue, v.analyzers);
    }
  }

  /** An analyzer thread step keeps the registry invariant. */
  lemma AnalyzerThreadStepKeepsInv(v: EngineValue, name: string, now: int, host: string)
    requires EngineInv(v)
    requires Lookup(v.analyzers, name).Some? && Lookup(v.analyzers, name).value.threadRunning
    ensures EngineInv(AnalyzerThreadStep(v, name, now, host))
  {
    var a := Lookup(v.analyzers, name).value;
    var m :| 0 <= m < |v.analyzers| && v.analyzers[m] == (name, a);
    AnalyzerStepOutcome(a, now, host);
    PutKeepsInv(v.analyzers, name, AnalyzerStep(a, now, host).0);
  }

  /** AddToMainQueue refuses exactly when the engine is not Running, and otherwise appends all events in order. */
  lemma AddToMainQueueOutcome(v: EngineValue, events: seq<Event>)
    ensures var (v', error) := AddToMainQueue(v, events);
      && (error.Some? <==> v.state != Running)
      && (error.Some? ==> v' == v && ExceptionMessage(error.value) == NotRunningText)
      && (error.None? ==> v'.mainEventQueue == v.mainEventQueue + events && v'.(mainEventQueue := v.mainEventQueue) == v)
  {
  }

  /**
   * The StopEngine task ends (Stopped, "Shutdown complete.") as soon as every
   * analyzer is Stopped or 30 s have passed, and only then.
   */
  lemma ShutdownStepOutcome(v: EngineValue, now: int)
    requires v.shutdownSince.Some? && v.shutdownSince.value <= now
    ensures var v' := ShutdownStep(v, now);
      && (v'.shutdownSince.None? ==> v'.state == Stopped)
      && (v'.shutdownSince.None? <==> (forall i :: 0 <= i < |v.analyzers| ==> v.analyzers[i].1.state == Stopped)
                                       || now - v.shutdownSince.value >= ShutdownWaitMs * TicksPerMillisecond)
      && (v'.shutdownSince.Some? ==> v'.state == v.state)
      && |v'.messages| == |v.messages| + 1
  {
    var waited := (now - v.shutdownSince.value) / TicksPerMillisecond;
    assert waited < ShutdownWaitMs <==> now - v.shutdownSince.value < ShutdownWaitMs * TicksPerMillisecond;
  }

  /** The registry row and GetInfoForAnalyzer agree on a registered analyzer, because it is named by its key. */
  lemma InfoAgreesWithList(reg: seq<(string, Analyzer)>, i: nat)
    requires RegistryInv(reg) && i < |reg|
    ensures GetInfoForAnalyzer(reg, Some(reg[i].0)) == Ok(InfoListEntry(reg[i].0, reg[i].1))
    ensures GetRulesLoadedInAnalyzer(reg, Some(reg[i].0)) == Ok(Keys(reg[i].1.rules))
  {
    LookupAt(reg, i);
  }

  /** In a well-formed registry both queries agree with every analyzer's entry. */
  lemma RegisteredQueries(reg: seq<(string, Analyzer)>)
    ensures RegistryInv(reg) ==> forall i :: 0 <= i < |reg| ==>
      && GetInfoForAnalyzer(reg, Some(reg[i].0)) == Ok(InfoListEntry(reg[i].0, reg[i].1))
      && GetRulesLoadedInAnalyzer(reg, Some(reg[i].0)) == Ok(Keys(reg[i].1.rules))
  {
    if RegistryInv(reg) {
      forall i | 0 <= i < |reg|
        ensures GetInfoForAnalyzer(reg, Some(reg[i].0)) == Ok(InfoListEntry(reg[i].0, reg[i].1))
        ensures GetRulesLoadedInAnalyzer(reg, Some(reg[i].0)) == Ok(Keys(reg[i].1.rules))
      {
        InfoAgreesWithList(reg, i);
      }
    }
  }
}
