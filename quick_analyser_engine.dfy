/**
 * The older engine of QuickAnalyserEngine.cs: AnalyserEngine and its private
 * ProgramAnalyser, which run the legacy rules of AnalyseRuleset.  Unlike
 * AnalyzerEngine there is no shutdown: the engine task and every analyser
 * task loop for ever, and only an exception ends one of them.  A task is a
 * step, and an analyser counts the tasks started on it, because StartEngine
 * and the dispatch start a new task without looking for an existing one.
 * The engine keeps its analysers as values, as AnalyzerEngine does.
 */
module QuickAnalyserEngine {
  import opened Common
  import opened Assoc
  import AnalyseRuleset
  import AnalyzeRule
  import AnalyzerEngine

  type RuleSet = AnalyseRuleset.Rule

  // ---------------------------------------------------------------------------
  // One ProgramAnalyser, as a value

  /**
   * A ProgramAnalyser: its program name, the AnalyserIsRunning flag, the number
   * of analyser tasks alive on it, its rulesets keyed by rule name, and its
   * event queue.
   */
  datatype Analyser = Analyser(
    programName: NString,
    isRunning: bool,
    tasks: nat,
    ruleSets: seq<(string, RuleSet)>,
    eventQueue: seq<Event>)

  const NewAnalyser := Analyser(None, false, 0, [], [])

  /** StartAnalyserTask: one task more, whose first act sets AnalyserIsRunning. */
  function WithTask(a: Analyser): Analyser
  {
    a.(isRunning := true, tasks := a.tasks + 1)
  }

  function WithEvent(a: Analyser, e: Event): Analyser
  {
    a.(eventQueue := a.eventQueue + [e])
  }

  function AnalysingOtherText(current: NString, offered: NString): string
  {
    "This instance of ProgramAnalyser is analysing " + NullToEmpty(current)
    + ". Can not add ruleset for " + NullToEmpty(offered) + "."
  }

  /**
   * AddOrReplaceRuleSet: a blank program name adopts the ruleset's application
   * name (and keeps it even when the call throws), a ruleset for another
   * application is refused, and a ruleset without a name is refused by the
   * dictionary.
   */
  function RuleSetAdded(a: Analyser, rs: RuleSet): (Analyser, Option<Exception>)
  {
    var name := if IsNullOrWhiteSpace(a.programName) then rs.applicationName else a.programName;
    var a1 := a.(programName := name);
    if name != rs.applicationName then (a1, Some(Argument(AnalysingOtherText(name, rs.applicationName))))
    else if rs.ruleName.None? then (a1, Some(ArgumentNull("key")))
    else (a1.(ruleSets := Put(a.ruleSets, rs.ruleName.value, rs)), None)
  }

  /** The rulesets an event is given to: those naming no operation or the event's. */
  predicate Applies(rs: RuleSet, e: Event)
  {
    IsNullOrEmpty(rs.operationName) || (e.operationName.Some? && rs.operationName == e.operationName)
  }

  function RuleSetAlarm(rs: RuleSet, e: Event): AlarmMessage
  {
    AlarmMessage(rs.alarmLevel, e.tenant,
                 Some("Rule " + NullToEmpty(rs.ruleName) + " triggered. Message: " + NullToEmpty(rs.alarmMessage)),
                 e.caughtException, e.id)
  }

  function AnalyserCrashAlarm(host: string, programName: NString, x: Exception): AlarmMessage
  {
    AlarmMessage(Medium, Some(host),
                 Some("Exception in ProgramAnalyser.StartAnalyserTask for " + NullToEmpty(programName) + "."),
                 Some(ExceptionMessage(x)), None)
  }

  /** The rulesets after one event, the alarms raised on the way, and the exception that ended the visit. */
  datatype Evaluation = Evaluation(ruleSets: seq<(string, RuleSet)>, alarms: seq<AlarmMessage>, error: Option<Exception>)

  /**
   * The analyser task's visit of the rulesets from index i on, with `alarms`
   * raised so far: each applicable ruleset gets the event, a trigger raises
   * an alarm naming the event's caught exception (a NullReferenceException
   * without one), and the first exception ends the visit.
   */
  function EvaluateFrom(rs: seq<(string, RuleSet)>, i: nat, alarms: seq<AlarmMessage>, e: Event, now: int): Evaluation
    requires i <= |rs|
    decreases |rs| - i
  {
    if i == |rs| then Evaluation(rs, alarms, None)
    else if !Applies(rs[i].1, e) then EvaluateFrom(rs, i + 1, alarms, e, now)
    else
      var (r', result) := AnalyseRuleset.AddAndCheck(rs[i].1, Some(e), now);
      var rs' := rs[i := (rs[i].0, r')];
      match result
      case Err(x) => Evaluation(rs', alarms, Some(x))
      case Ok(triggered) =>
        if !triggered then EvaluateFrom(rs', i + 1, alarms, e, now)
        else if e.caughtException.None? then Evaluation(rs', alarms, Some(NullReference(DefaultNullReferenceText)))
        else EvaluateFrom(rs', i + 1, alarms + [RuleSetAlarm(r', e)], e, now)
  }

  /** A ruleset after an event, taken on its own. */
  function Updated(rs: RuleSet, e: Event, now: int): RuleSet
  {
    if Applies(rs, e) then AnalyseRuleset.AddAndCheck(rs, Some(e), now).0 else rs
  }

  /** Reference: the alarms of the applicable rulesets that trigger, each taken on its own. */
  function TriggeredAlarms(rs: seq<(string, RuleSet)>, e: Event, now: int): seq<AlarmMessage>
  {
    if |rs| == 0 then [] else OwnAlarm(rs[0].1, e, now) + TriggeredAlarms(rs[1..], e, now)
  }

  /** A ruleset on which the visit throws: it applies, and it throws or triggers on an event without a caught exception. */
  predicate Fails(rs: RuleSet, e: Event, now: int)
  {
    Applies(rs, e)
    && (AnalyseRuleset.AddAndCheck(rs, Some(e), now).1.Err?
        || (AnalyseRuleset.AddAndCheck(rs, Some(e), now).1 == Ok(true) && e.caughtException.None?))
  }

  /** The rulesets after ruleset i saw the event. */
  function VisitedAt(rs: seq<(string, RuleSet)>, i: nat, e: Event, now: int): (r: seq<(string, RuleSet)>)
    requires i < |rs|
    ensures |r| == |rs| && r[i] == (rs[i].0, Updated(rs[i].1, e, now))
    ensures forall j :: 0 <= j < |rs| && j != i ==> r[j] == rs[j]
  {
    rs[i := (rs[i].0, Updated(rs[i].1, e, now))]
  }

  /** The alarm a ruleset raises on the event, if it applies and triggers. */
  function OwnAlarm(r: RuleSet, e: Event, now: int): seq<AlarmMessage>
  {
    var (r', result) := AnalyseRuleset.AddAndCheck(r, Some(e), now);
    if Applies(r, e) && result == Ok(true) then [RuleSetAlarm(r', e)] else []
  }

  /** Past a ruleset that does not fail, the visit goes on with that ruleset updated and its alarm raised. */
  lemma VisitPast(rs: seq<(string, RuleSet)>, i: nat, alarms: seq<AlarmMessage>, e: Event, now: int)
    requires i < |rs| && !Fails(rs[i].1, e, now)
    ensures EvaluateFrom(rs, i, alarms, e, now)
         == EvaluateFrom(VisitedAt(rs, i, e, now), i + 1, alarms + OwnAlarm(rs[i].1, e, now), e, now)
  {
    if !Applies(rs[i].1, e) {
      assert VisitedAt(rs, i, e, now) == rs;
      assert alarms + OwnAlarm(rs[i].1, e, now) == alarms;
    } else {
      var (r', result) := AnalyseRuleset.AddAndCheck(rs[i].1, Some(e), now);
      assert VisitedAt(rs, i, e, now) == rs[i := (rs[i].0, r')];
      if result == Ok(false) {
        assert alarms + OwnAlarm(rs[i].1, e, now) == alarms;
      }
    }
  }

  /** At a ruleset that fails the visit ends: that ruleset updated, no alarm from it, and its exception. */
  lemma VisitStops(rs: seq<(string, RuleSet)>, i: nat, alarms: seq<AlarmMessage>, e: Event, now: int)
    requires i < |rs| && Fails(rs[i].1, e, now)
    ensures var outcome := AnalyseRuleset.AddAndCheck(rs[i].1, Some(e), now).1;
      EvaluateFrom(rs, i, alarms, e, now)
      == Evaluation(VisitedAt(rs, i, e, now), alarms,
                    Some(if outcome.Err? then outcome.error else NullReference(DefaultNullReferenceText)))
  {
  }

  /**
   * A visit that ends without an exception leaves every ruleset as it would be
   * after the event on its own and raises exactly the alarms of the rulesets
   * that trigger, in order.
   */
  lemma {:induction false} VisitWithoutError(rs: seq<(string, RuleSet)>, i: nat, alarms: seq<AlarmMessage>, e: Event, now: int)
    requires i <= |rs| && EvaluateFrom(rs, i, alarms, e, now).error.None?
    decreases |rs| - i
    ensures var run := EvaluateFrom(rs, i, alarms, e, now);
      && |run.ruleSets| == |rs| && run.ruleSets[..i] == rs[..i]
      && (forall j :: i <= j < |rs| ==> run.ruleSets[j] == (rs[j].0, Updated(rs[j].1, e, now)))
      && run.alarms == alarms + TriggeredAlarms(rs[i..], e, now)
  {
    if i == |rs| {
      assert rs[i..] == [] && TriggeredAlarms([], e, now) == [] && alarms + [] == alarms;
    } else {
      VisitErrorIffFailure(rs, i, alarms, e, now);
      var next, added := VisitedAt(rs, i, e, now), OwnAlarm(rs[i].1, e, now);
      VisitPast(rs, i, alarms, e, now);
      VisitWithoutError(next, i + 1, alarms + added, e, now);
      var run := EvaluateFrom(next, i + 1, alarms + added, e, now);
      VisitCombine(rs, next, i, run.ruleSets, e, now);
      assert next[i + 1..] == rs[i + 1..];
      VisitCombineAlarms(rs, i, alarms, run.alarms, e, now);
    }
  }

  /** The step of VisitWithoutError for the rulesets. */
  lemma VisitCombine(rs: seq<(string, RuleSet)>, next: seq<(string, RuleSet)>, i: nat,
                     runSets: seq<(string, RuleSet)>, e: Event, now: int)
    requires i < |rs| && next == VisitedAt(rs, i, e, now)
    requires |runSets| == |next| && runSets[..i + 1] == next[..i + 1]
    requires forall j :: i + 1 <= j < |next| ==> runSets[j] == (next[j].0, Updated(next[j].1, e, now))
    ensures |runSets| == |rs| && runSets[..i] == rs[..i]
    ensures forall j :: i <= j < |rs| ==> runSets[j] == (rs[j].0, Updated(rs[j].1, e, now))
  {
    assert runSets[..i] == runSets[..i + 1][..i] == next[..i] == rs[..i];
    forall j | i <= j < |rs| ensures runSets[j] == (rs[j].0, Updated(rs[j].1, e, now)) {
      if j == i {
        assert runSets[i] == runSets[..i + 1][i] == next[i];
      } else {
        assert next[j] == rs[j];
      }
    }
  }

  /** The step of VisitWithoutError for the alarms. */
  lemma VisitCombineAlarms(rs: seq<(string, RuleSet)>, i: nat, alarms: seq<AlarmMessage>,
                           runAlarms: seq<AlarmMessage>, e: Event, now: int)
    requires i < |rs|
    requires runAlarms == (alarms + OwnAlarm(rs[i].1, e, now)) + TriggeredAlarms(rs[i + 1..], e, now)
    ensures runAlarms == alarms + TriggeredAlarms(rs[i..], e, now)
  {
    TriggeredAlarmsFrom(rs, i, e, now);
    ConcatAssoc(alarms, OwnAlarm(rs[i].1, e, now), TriggeredAlarms(rs[i + 1..], e, now));
  }

  /** TriggeredAlarms of a suffix, one ruleset at a time. */
  lemma TriggeredAlarmsFrom(rs: seq<(string, RuleSet)>, i: nat, e: Event, now: int)
    requires i < |rs|
    ensures TriggeredAlarms(rs[i..], e, now) == OwnAlarm(rs[i].1, e, now) + TriggeredAlarms(rs[i + 1..], e, now)
  {
    assert rs[i..][0] == rs[i] && rs[i..][1..] == rs[i + 1..];
  }

  lemma ConcatAssoc(a: seq<AlarmMessage>, b: seq<AlarmMessage>, c: seq<AlarmMessage>)
    ensures (a + b) + c == a + (b + c)
  {
  }

  /** The visit throws exactly when some ruleset it reaches fails on the event. */
  lemma {:induction false} VisitErrorIffFailure(rs: seq<(string, RuleSet)>, i: nat, alarms: seq<AlarmMessage>, e: Event, now: int)
    requires i <= |rs|
    decreases |rs| - i
    ensures EvaluateFrom(rs, i, alarms, e, now).error.Some? <==> exists j :: i <= j < |rs| && Fails(rs[j].1, e, now)
  {
    if i < |rs| && !Fails(rs[i].1, e, now) {
      var next := VisitedAt(rs, i, e, now);
      VisitPast(rs, i, alarms, e, now);
      VisitErrorIffFailure(next, i + 1, alarms + OwnAlarm(rs[i].1, e, now), e, now);
      assert forall j :: i + 1 <= j < |rs| ==> next[j] == rs[j];
    }
  }

  /** An event without a caught exception never leads to a ruleset alarm. */
  lemma {:induction false} NoCaughtExceptionNoAlarm(rs: seq<(string, RuleSet)>, i: nat, alarms: seq<AlarmMessage>, e: Event, now: int)
    requires i <= |rs| && e.caughtException.None?
    decreases |rs| - i
    ensures EvaluateFrom(rs, i, alarms, e, now).alarms == alarms
  {
    if i < |rs| && Fails(rs[i].1, e, now) {
      VisitStops(rs, i, alarms, e, now);
    } else if i < |rs| {
      VisitPast(rs, i, alarms, e, now);
      assert OwnAlarm(rs[i].1, e, now) == [] && alarms + [] == alarms;
      NoCaughtExceptionNoAlarm(VisitedAt(rs, i, e, now), i + 1, alarms, e, now);
    }
  }

  /**
   * One iteration of an analyser task: an empty queue makes it spin; otherwise
   * the event at the head goes through the rulesets, and an exception ends
   * this task, clears AnalyserIsRunning and raises a Medium alarm.
   */
  function AnalyserStepped(a: Analyser, now: int, host: string): (r: (Analyser, seq<AlarmMessage>))
    requires a.tasks > 0
  {
    if |a.eventQueue| == 0 then (a, [])
    else
      var run := EvaluateFrom(a.ruleSets, 0, [], a.eventQueue[0], now);
      var a' := a.(ruleSets := run.ruleSets, eventQueue := a.eventQueue[1..]);
      if run.error.None? then (a', run.alarms)
      else (a'.(isRunning := false, tasks := a.tasks - 1),
            run.alarms + [AnalyserCrashAlarm(host, a.programName, run.error.value)])
  }

  /**
   * The analyser task: AnalyserIsRunning is cleared exactly when the event
   * throws, and then one task fewer runs and the last alarm is the Medium one.
   * The program name never changes and the queue loses its head.
   */
  lemma AnalyserStepOutcome(a: Analyser, now: int, host: string)
    requires a.tasks > 0
    ensures var (a', alarms) := AnalyserStepped(a, now, host);
      && a'.programName == a.programName
      && (|a.eventQueue| == 0 ==> a' == a && alarms == [])
      && (|a.eventQueue| > 0 ==>
            var e := a.eventQueue[0];
            var failing := exists j :: 0 <= j < |a.ruleSets| && Fails(a.ruleSets[j].1, e, now);
            && a'.eventQueue == a.eventQueue[1..]
            && (!failing ==> a'.isRunning == a.isRunning && a'.tasks == a.tasks
                             && alarms == TriggeredAlarms(a.ruleSets, e, now))
            && (failing ==> !a'.isRunning && a'.tasks == a.tasks - 1 && alarms[|alarms| - 1].level == Medium))
  {
    if |a.eventQueue| > 0 {
      var e := a.eventQueue[0];
      VisitErrorIffFailure(a.ruleSets, 0, [], e, now);
      if EvaluateFrom(a.ruleSets, 0, [], e, now).error.None? {
        VisitWithoutError(a.ruleSets, 0, [], e, now);
        assert a.ruleSets[0..] == a.ruleSets;
      }
    }
  }

  // ---------------------------------------------------------------------------
  // The timers of the loaded rulesets

  /** The ruleset stored under `ruleName` is a TimeBetweenOperations whose timer runs. */
  predicate TimerRunning(a: Analyser, ruleName: string)
  {
    && Lookup(a.ruleSets, ruleName).Some?
    && Lookup(a.ruleSets, ruleName).value.kind.TimeBetweenOperations?
    && Lookup(a.ruleSets, ruleName).value.kind.timerArmed
  }

  /** The Elapsed event of that ruleset's timer: the stored ruleset becomes Timeout's, and its observers are notified. */
  function RuleSetTimedOut(a: Analyser, ruleName: string): (Analyser, seq<AnalyseRuleset.ObserverId>)
    requires TimerRunning(a, ruleName)
  {
    var (r', notified) := AnalyseRuleset.Timeout(Lookup(a.ruleSets, ruleName).value);
    (a.(ruleSets := Put(a.ruleSets, ruleName, r')), notified)
  }

  /**
   * A timeout inside the engine changes only the timed-out ruleset and
   * notifies its observers; the next event that ruleset applies to makes it
   * trigger with the timeout message, so the analyser raises that ruleset's
   * alarm for it.
   */
  lemma TimedOutRuleSetAlarms(a: Analyser, ruleName: string, e: Event, now: int)
    requires TimerRunning(a, ruleName) && Applies(Lookup(a.ruleSets, ruleName).value, e)
    ensures var (a', notified) := RuleSetTimedOut(a, ruleName);
      var r := Lookup(a.ruleSets, ruleName).value;
      var text := AnalyzeRule.TimeoutText(r.keepOperationInPileTime, r.operationName,
                                          r.kind.startOperationName, r.kind.endOperationName);
      && notified == r.kind.observers
      && a' == a.(ruleSets := a'.ruleSets) && Keys(a'.ruleSets) == Keys(a.ruleSets)
      && (forall k :: k != ruleName ==> Lookup(a'.ruleSets, k) == Lookup(a.ruleSets, k))
      && OwnAlarm(Lookup(a'.ruleSets, ruleName).value, e, now)
         == [AlarmMessage(r.alarmLevel, e.tenant, Some("Rule " + NullToEmpty(r.ruleName) + " triggered. Message: " + text),
                          e.caughtException, e.id)]
  {
    var r := Lookup(a.ruleSets, ruleName).value;
    var r' := AnalyseRuleset.Timeout(r).0;
    forall k ensures Lookup(Put(a.ruleSets, ruleName, r'), k) == if k == ruleName then Some(r') else Lookup(a.ruleSets, k) {
      LookupPut(a.ruleSets, ruleName, r', k);
    }
    TimedOutAlarm(r, e, now);
  }

  /** After its timeout, a ruleset raises the timeout alarm for the next event it applies to. */
  lemma TimedOutAlarm(r: RuleSet, e: Event, now: int)
    requires r.kind.TimeBetweenOperations? && r.kind.timerArmed && Applies(r, e)
    ensures OwnAlarm(AnalyseRuleset.Timeout(r).0, e, now)
         == [AlarmMessage(r.alarmLevel, e.tenant,
                          Some("Rule " + NullToEmpty(r.ruleName) + " triggered. Message: "
                               + AnalyzeRule.TimeoutText(r.keepOperationInPileTime, r.operationName,
                                                         r.kind.startOperationName, r.kind.endOperationName)),
                          e.caughtException, e.id)]
  {
    var r' := AnalyseRuleset.Timeout(r).0;
    AnalyseRuleset.ElapsedTriggersOnNextEvent(r', e, now);
  }

  /** A ruleset timeout keeps the registry named. */
  lemma TimeoutKeepsRegistry(reg: seq<(string, Analyser)>, name: string, ruleName: string)
    requires RegistryInv(reg) && Lookup(reg, name).Some? && TimerRunning(Lookup(reg, name).value, ruleName)
    ensures RegistryInv(Put(reg, name, RuleSetTimedOut(Lookup(reg, name).value, ruleName).0))
  {
    PutNamed(reg, name, RuleSetTimedOut(Lookup(reg, name).value, ruleName).0);
  }

  // ---------------------------------------------------------------------------
  // The engine, on values

  /** Every registered analyser carries the name it is registered under. */
  ghost predicate RegistryInv(reg: seq<(string, Analyser)>)
  {
    forall k :: Lookup(reg, k).Some? ==> Lookup(reg, k).value.programName == Some(k)
  }

  /** The number of rulesets in `rules` for application k. */
  function CountFor(rules: seq<RuleSet>, k: string): nat
  {
    if |rules| == 0 then 0
    else CountFor(rules[..|rules| - 1], k) + (if rules[|rules| - 1].applicationName == Some(k) then 1 else 0)
  }

  function RuleSetAddedText(rs: RuleSet): string
  {
    "Ruleset " + NullToEmpty(rs.ruleName) + " added to ProgramAnalyser for " + NullToEmpty(rs.applicationName)
    + ". Ruleset applies to operation: "
    + (if IsNullOrEmpty(rs.operationName) then "All operations" else rs.operationName.value) + "."
  }

  /** What StartEngine's loop leaves: the registry, the engine messages, and the exception that ended it. */
  datatype Loaded = Loaded(analysers: seq<(string, Analyser)>, messages: seq<string>, error: Option<Exception>)

  /**
   * One iteration of StartEngine's loop: GetOrAdd registers a new analyser under
   * the ruleset's application name (a null name is refused), the ruleset is
   * added to it, and a task is started on it.  The analyser is shared with the
   * dictionary, so what AddOrReplaceRuleSet did before throwing stays.
   */
  function LoadRuleSet(reg: seq<(string, Analyser)>, rs: RuleSet): Loaded
  {
    if rs.applicationName.None? then Loaded(reg, [], Some(ArgumentNull("key")))
    else
      var k := rs.applicationName.value;
      var a := Registered(reg, k);
      var (a', error) := RuleSetAdded(a, rs);
      if error.Some? then Loaded(Put(reg, k, a'), [], error)
      else Loaded(Put(reg, k, WithTask(a')), [RuleSetAddedText(rs)], None)
  }

  /** StartEngine's loop from ruleset i on, with the engine messages so far. */
  function LoadFrom(reg: seq<(string, Analyser)>, msgs: seq<string>, rules: seq<RuleSet>, i: nat): Loaded
    requires i <= |rules|
    decreases |rules| - i
  {
    if i == |rules| then Loaded(reg, msgs, None)
    else
      var s := LoadRuleSet(reg, rules[i]);
      if s.error.Some? then Loaded(s.analysers, msgs, s.error)
      else LoadFrom(s.analysers, msgs + s.messages, rules, i + 1)
  }

  /** The engine messages StartEngine writes before loading the rulesets. */
  function StartingTexts(rules: seq<RuleSet>): seq<string>
  {
    ["Starting AnalyserEngine"] + (if |rules| == 0 then ["Starting with no rules."] else [])
  }

  /** LoadFrom unfolded at ruleset i. */
  lemma LoadFromStep(reg: seq<(string, Analyser)>, msgs: seq<string>, rules: seq<RuleSet>, i: nat)
    requires i < |rules|
    ensures var s := LoadRuleSet(reg, rules[i]);
      && (s.error.Some? ==> LoadFrom(reg, msgs, rules, i) == Loaded(s.analysers, msgs, s.error))
      && (s.error.None? ==> LoadFrom(reg, msgs, rules, i) == LoadFrom(s.analysers, msgs + s.messages, rules, i + 1))
  {
  }

  /**
   * What the loop promises from ruleset i on: the registry keeps its names;
   * the only exception is the ArgumentNullException of a null application or
   * rule name (an analyser registered under a name never refuses a ruleset
   * for that name); and when no exception occurs, the registry holds exactly
   * one analyser per application named by the rulesets, running, with as
   * many tasks as there are rulesets for its application.
   */
  lemma {:induction false} LoadFromOutcome(reg: seq<(string, Analyser)>, msgs: seq<string>, rules: seq<RuleSet>, i: nat)
    requires i <= |rules| && RegistryInv(reg) && LoadedFirst(reg, rules, i)
    decreases |rules| - i
    ensures var l := LoadFrom(reg, msgs, rules, i);
      && RegistryInv(l.analysers)
      && (l.error.Some? ==> l.error == Some(ArgumentNull("key")))
      && (l.error.None? ==> LoadedFirst(l.analysers, rules, |rules|))
  {
    if i < |rules| {
      var s := LoadRuleSet(reg, rules[i]);
      LoadFromStep(reg, msgs, rules, i);
      LoadRuleSetStep(reg, rules, i);
      if s.error.None? {
        LoadFromOutcome(s.analysers, msgs + s.messages, rules, i + 1);
      }
    }
  }

  /**
   * The registry after the first n rulesets loaded without an exception: one
   * analyser per application they name, running, with one task per ruleset
   * for that application.
   */
  ghost predicate LoadedFirst(reg: seq<(string, Analyser)>, rules: seq<RuleSet>, n: nat)
    requires n <= |rules|
  {
    && (forall k :: Lookup(reg, k).Some? <==> exists j :: 0 <= j < n && rules[j].applicationName == Some(k))
    && (forall k :: Lookup(reg, k).Some? ==> Lookup(reg, k).value.isRunning && Lookup(reg, k).value.tasks == CountFor(rules[..n], k))
  }

  /** The analyser registered under k, or the new one GetOrAdd would register. */
  function Registered(reg: seq<(string, Analyser)>, k: string): Analyser
  {
    match Lookup(reg, k) case Some(x) => x case None => NewAnalyser
  }

  /**
   * A ruleset offered to the analyser registered under its own application
   * name (or to a new one) is never refused for naming another application:
   * only a null rule name is refused.  The analyser keeps that name.
   */
  lemma RuleSetForOwnAnalyser(a: Analyser, t: string, rs: RuleSet)
    requires a.programName == Some(t) || a == NewAnalyser
    requires rs.applicationName == Some(t)
    ensures var (a', error) := RuleSetAdded(a, rs);
      && a'.programName == Some(t) && a'.isRunning == a.isRunning && a'.tasks == a.tasks
      && (error.Some? <==> rs.ruleName.None?)
      && (error.Some? ==> error == Some(ArgumentNull("key")))
  {
  }

  /**
   * AddOrReplaceRuleSet on any analyser: a blank program name adopts the
   * ruleset's application name; the call throws exactly when the names then
   * differ or the ruleset has no name; otherwise exactly the ruleset's name
   * maps to it and every other name keeps its ruleset.
   */
  lemma RuleSetAddedOutcome(a: Analyser, rs: RuleSet)
    ensures var (a', error) := RuleSetAdded(a, rs);
      && a'.isRunning == a.isRunning && a'.tasks == a.tasks && a'.eventQueue == a.eventQueue
      && (IsNullOrWhiteSpace(a.programName) ==> a'.programName == rs.applicationName)
      && (!IsNullOrWhiteSpace(a.programName) ==> a'.programName == a.programName)
      && (error.Some? <==> (!IsNullOrWhiteSpace(a.programName) && a.programName != rs.applicationName) || rs.ruleName.None?)
      && (error.None? ==> forall n :: Lookup(a'.ruleSets, n) == if Some(n) == rs.ruleName then Some(rs) else Lookup(a.ruleSets, n))
      && (error.Some? ==> a'.ruleSets == a.ruleSets)
  {
    var (a', error) := RuleSetAdded(a, rs);
    if error.None? {
      forall n ensures Lookup(a'.ruleSets, n) == if Some(n) == rs.ruleName then Some(rs) else Lookup(a.ruleSets, n) {
        LookupPut(a.ruleSets, rs.ruleName.value, rs, n);
      }
    }
  }

  /** One iteration of StartEngine's loop, seen through Lookup. */
  lemma LoadRuleSetLookup(reg: seq<(string, Analyser)>, rs: RuleSet)
    requires RegistryInv(reg) && rs.applicationName.Some?
    ensures var t := rs.applicationName.value;
      var s := LoadRuleSet(reg, rs);
      var b := RuleSetAdded(Registered(reg, t), rs).0;
      && (s.error.Some? ==> s.error == Some(ArgumentNull("key")))
      && Lookup(s.analysers, t) == Some(if s.error.Some? then b else WithTask(b))
      && (forall k :: k != t ==> Lookup(s.analysers, k) == Lookup(reg, k))
      && RegistryInv(s.analysers)
  {
    var t := rs.applicationName.value;
    var a := Registered(reg, t);
    RuleSetForOwnAnalyser(a, t, rs);
    var (a', error) := RuleSetAdded(a, rs);
    var b := if error.Some? then a' else WithTask(a');
    assert LoadRuleSet(reg, rs).analysers == Put(reg, t, b);
    PutNamed(reg, t, b);
  }

  /** Lookup after Put, for every key. */
  lemma PutLookup(reg: seq<(string, Analyser)>, t: string, b: Analyser)
    ensures forall k :: Lookup(Put(reg, t, b), k) == if k == t then Some(b) else Lookup(reg, k)
  {
    forall k ensures Lookup(Put(reg, t, b), k) == if k == t then Some(b) else Lookup(reg, k) {
      LookupPut(reg, t, b, k);
    }
  }

  /** Registering an analyser that carries its key keeps the registry named. */
  lemma PutNamed(reg: seq<(string, Analyser)>, t: string, b: Analyser)
    requires RegistryInv(reg) && b.programName == Some(t)
    ensures RegistryInv(Put(reg, t, b))
    ensures forall k :: Lookup(Put(reg, t, b), k) == if k == t then Some(b) else Lookup(reg, k)
  {
    PutLookup(reg, t, b);
  }

  /** The invariants of LoadFromOutcome carried over one iteration. */
  lemma LoadRuleSetStep(reg: seq<(string, Analyser)>, rules: seq<RuleSet>, i: nat)
    requires i < |rules| && RegistryInv(reg) && LoadedFirst(reg, rules, i)
    ensures var s := LoadRuleSet(reg, rules[i]);
      && RegistryInv(s.analysers)
      && (s.error.Some? ==> s.error == Some(ArgumentNull("key")))
      && (s.error.None? ==> LoadedFirst(s.analysers, rules, i + 1))
  {
    var rs := rules[i];
    var s := LoadRuleSet(reg, rs);
    if rs.applicationName.Some? {
      var t := rs.applicationName.value;
      LoadRuleSetLookup(reg, rs);
      RuleSetForOwnAnalyser(Registered(reg, t), t, rs);
      if s.error.None? {
        LoadStepFirst(reg, s.analysers, rules, i, RuleSetAdded(Registered(reg, t), rs).0);
      }
    }
  }

  /** LoadedFirst carried over one ruleset that loaded without an exception. */
  lemma LoadStepFirst(reg: seq<(string, Analyser)>, reg': seq<(string, Analyser)>, rules: seq<RuleSet>, i: nat, b: Analyser)
    requires i < |rules| && rules[i].applicationName.Some? && LoadedFirst(reg, rules, i)
    requires var t := rules[i].applicationName.value;
      Lookup(reg', t) == Some(WithTask(b)) && b.tasks == Registered(reg, t).tasks
    requires forall k :: k != rules[i].applicationName.value ==> Lookup(reg', k) == Lookup(reg, k)
    ensures LoadedFirst(reg', rules, i + 1)
  {
    LoadStepKeys(reg, reg', rules, i);
    LoadStepCounts(reg, reg', rules, i, b);
  }

  lemma LoadStepKeys(reg: seq<(string, Analyser)>, reg': seq<(string, Analyser)>, rules: seq<RuleSet>, i: nat)
    requires i < |rules| && rules[i].applicationName.Some?
    requires forall k :: Lookup(reg, k).Some? <==> exists j :: 0 <= j < i && rules[j].applicationName == Some(k)
    requires Lookup(reg', rules[i].applicationName.value).Some?
    requires forall k :: k != rules[i].applicationName.value ==> Lookup(reg', k) == Lookup(reg, k)
    ensures forall k :: Lookup(reg', k).Some? <==> exists j :: 0 <= j < i + 1 && rules[j].applicationName == Some(k)
  {
    var t := rules[i].applicationName.value;
    forall k | Lookup(reg', k).Some? ensures exists j :: 0 <= j < i + 1 && rules[j].applicationName == Some(k) {
      if k == t {
        assert rules[i].applicationName == Some(k);
      } else {
        var j :| 0 <= j < i && rules[j].applicationName == Some(k);
        assert 0 <= j < i + 1;
      }
    }
    forall k, j | 0 <= j < i + 1 && rules[j].applicationName == Some(k) ensures Lookup(reg', k).Some? {
      if k != t {
        assert j < i;
      }
    }
  }

  lemma LoadStepCounts(reg: seq<(string, Analyser)>, reg': seq<(string, Analyser)>, rules: seq<RuleSet>, i: nat, b: Analyser)
    requires i < |rules| && rules[i].applicationName.Some?
    requires forall k :: Lookup(reg, k).Some? <==> exists j :: 0 <= j < i && rules[j].applicationName == Some(k)
    requires forall k :: Lookup(reg, k).Some? ==> Lookup(reg, k).value.isRunning && Lookup(reg, k).value.tasks == CountFor(rules[..i], k)
    requires var t := rules[i].applicationName.value;
      Lookup(reg', t) == Some(WithTask(b)) && b.tasks == Registered(reg, t).tasks
    requires forall k :: k != rules[i].applicationName.value ==> Lookup(reg', k) == Lookup(reg, k)
    ensures forall k :: Lookup(reg', k).Some? ==>
      Lookup(reg', k).value.isRunning && Lookup(reg', k).value.tasks == CountFor(rules[..i + 1], k)
  {
    var t := rules[i].applicationName.value;
    forall k | Lookup(reg', k).Some?
      ensures Lookup(reg', k).value.isRunning && Lookup(reg', k).value.tasks == CountFor(rules[..i + 1], k)
    {
      CountForNext(rules, i, k);
      if k == t && Lookup(reg, t).None? {
        CountForAbsent(rules[..i], t);
      }
    }
  }

  /** CountFor over one more ruleset. */
  lemma CountForNext(rules: seq<RuleSet>, i: nat, k: string)
    requires i < |rules| && rules[i].applicationName.Some?
    ensures CountFor(rules[..i + 1], k) == CountFor(rules[..i], k) + (if k == rules[i].applicationName.value then 1 else 0)
  {
    assert rules[..i + 1][..i] == rules[..i] && rules[..i + 1][i] == rules[i];
  }

  /** An application without a ruleset among `rules` counts zero. */
  lemma {:induction false} CountForAbsent(rules: seq<RuleSet>, k: string)
    requires forall j :: 0 <= j < |rules| ==> rules[j].applicationName != Some(k)
    ensures CountFor(rules, k) == 0
  {
    if |rules| > 0 {
      CountForAbsent(rules[..|rules| - 1], k);
    }
  }

  function DispatchText(e: Event, t: string): string
  {
    "Event added from " + t + " to Analysers."
  }

  /** The registry and the engine messages after one event, or the exception it raised. */
  datatype Dispatched = Dispatched(analysers: seq<(string, Analyser)>, messages: seq<string>, error: Option<Exception>)

  /**
   * The dispatch of one dequeued event: a null application name is refused by
   * the dictionary; a registered analyser that is not running gets a new task
   * first; an unknown application gets a blank analyser named after it, with
   * one task.  Either way the event goes to the back of the analyser's queue.
   */
  function Dispatch(e: Event, reg: seq<(string, Analyser)>): Dispatched
  {
    if e.tenant.None? then Dispatched(reg, [], Some(ArgumentNull("key")))
    else
      var t := e.tenant.value;
      match Lookup(reg, t)
      case Some(a) =>
        var restart := !a.isRunning;
        Dispatched(Put(reg, t, Receiving(reg, t, e)),
                   (if restart then [NullToEmpty(a.programName) + " analyser not running. Starting."] else [])
                   + [DispatchText(e, t)],
                   None)
      case None =>
        Dispatched(Put(reg, t, Receiving(reg, t, e)),
                   ["No analyser for " + t + " in Analysers. Trying to add a blank one with no rulesets.",
                    "Added blank analyser for " + t + " in Analysers."],
                   None)
  }

  /** The analyser that receives an event for application t: restarted if idle, blank if new. */
  function Receiving(reg: seq<(string, Analyser)>, t: string, e: Event): Analyser
  {
    match Lookup(reg, t)
    case Some(a) => WithEvent(if !a.isRunning then WithTask(a) else a, e)
    case None => WithEvent(WithTask(NewAnalyser.(programName := Some(t))), e)
  }

  /**
   * After a dispatch the event's analyser is running, holds the event at the
   * back of its queue, and has one task more exactly when it was not running
   * or is new; no other analyser changes and the registry stays named.
   */
  lemma DispatchOutcome(e: Event, reg: seq<(string, Analyser)>)
    requires RegistryInv(reg)
    ensures var d := Dispatch(e, reg);
      && RegistryInv(d.analysers)
      && (d.error.Some? <==> e.tenant.None?)
      && (d.error.Some? ==> d.analysers == reg && d.messages == [])
      && (e.tenant.Some? ==>
            var t := e.tenant.value;
            var b := Lookup(d.analysers, t);
            && b.Some? && b.value.isRunning && b.value.programName == Some(t)
            && (Lookup(reg, t).Some? ==>
                  var a := Lookup(reg, t).value;
                  && b.value.eventQueue == a.eventQueue + [e] && b.value.ruleSets == a.ruleSets
                  && b.value.tasks == a.tasks + (if a.isRunning then 0 else 1))
            && (Lookup(reg, t).None? ==> b.value == Analyser(Some(t), true, 1, [], [e]))
            && (forall k :: k != t ==> Lookup(d.analysers, k) == Lookup(reg, k)))
  {
    if e.tenant.Some? {
      var t := e.tenant.value;
      var b := Receiving(reg, t, e);
      assert Dispatch(e, reg).analysers == Put(reg, t, b);
      PutNamed(reg, t, b);
    }
  }

  /** Only an exception clears AnalyserIsRunning: loading and dispatch never do. */
  lemma RunningFlagOnlyClearedByCrash(e: Event, reg: seq<(string, Analyser)>, rs: RuleSet)
    ensures forall k :: Lookup(reg, k).Some? && Lookup(reg, k).value.isRunning ==>
      && Lookup(Dispatch(e, reg).analysers, k).Some? && Lookup(Dispatch(e, reg).analysers, k).value.isRunning
      && Lookup(LoadRuleSet(reg, rs).analysers, k).Some? && Lookup(LoadRuleSet(reg, rs).analysers, k).value.isRunning
  {
    DispatchKeepsRunning(e, reg);
    LoadKeepsRunning(reg, rs);
  }

  lemma DispatchKeepsRunning(e: Event, reg: seq<(string, Analyser)>)
    ensures forall k :: Lookup(reg, k).Some? && Lookup(reg, k).value.isRunning ==>
      Lookup(Dispatch(e, reg).analysers, k).Some? && Lookup(Dispatch(e, reg).analysers, k).value.isRunning
  {
    if e.tenant.Some? {
      var t := e.tenant.value;
      assert Dispatch(e, reg).analysers == Put(reg, t, Receiving(reg, t, e));
      PutLookup(reg, t, Receiving(reg, t, e));
    }
  }

  lemma LoadKeepsRunning(reg: seq<(string, Analyser)>, rs: RuleSet)
    ensures forall k :: Lookup(reg, k).Some? && Lookup(reg, k).value.isRunning ==>
      Lookup(LoadRuleSet(reg, rs).analysers, k).Some? && Lookup(LoadRuleSet(reg, rs).analysers, k).value.isRunning
  {
    if rs.applicationName.Some? {
      var t := rs.applicationName.value;
      var (a', error) := RuleSetAdded(Registered(reg, t), rs);
      var b := if error.Some? then a' else WithTask(a');
      assert LoadRuleSet(reg, rs).analysers == Put(reg, t, b);
      PutLookup(reg, t, b);
    }
  }

  const EngineCrashText := "Exception in AnalyserEngine.StartEngineTask. Engine is down. Engine will try to restart."

  function EngineCrashAlarm(host: string, x: Exception): AlarmMessage
  {
    AlarmMessage(Medium, Some(host), Some(EngineCrashText), Some(ExceptionMessage(x)), None)
  }

  // ---------------------------------------------------------------------------
  // The ProgramAnalyser class

  /** ProgramAnalyser on its own fields, proved against the functions above. */
  class ProgramAnalyser {
    var programName: NString
    var isRunning: bool
    var tasks: nat
    var ruleSets: seq<(string, RuleSet)>
    var eventQueue: seq<Event>
    const alarmMessageManager: AnalyzerEngine.AlarmMessageManager

    function Value(): Analyser
      reads this
    {
      Analyser(programName, isRunning, tasks, ruleSets, eventQueue)
    }

    constructor(manager: AnalyzerEngine.AlarmMessageManager)
      ensures Value() == NewAnalyser && alarmMessageManager == manager
    {
      programName := None;
      isRunning := false;
      tasks := 0;
      ruleSets := [];
      eventQueue := [];
      alarmMessageManager := manager;
    }

    method AddEvent(e: Event)
      modifies this`eventQueue
      ensures Value() == WithEvent(old(Value()), e)
    {
      eventQueue := eventQueue + [e];
    }

    method StartAnalyserTask()
      modifies this`isRunning, this`tasks
      ensures Value() == WithTask(old(Value()))
    {
      tasks := tasks + 1;
      isRunning := true;
    }

    method AddOrReplaceRuleSet(rs: RuleSet) returns (error: Option<Exception>)
      modifies this`programName, this`ruleSets
      ensures (Value(), error) == RuleSetAdded(old(Value()), rs)
    {
      if IsNullOrWhiteSpace(programName) {
        programName := rs.applicationName;
      }
      if programName != rs.applicationName {
        return Some(Argument(AnalysingOtherText(programName, rs.applicationName)));
      }
      if rs.ruleName.None? {
        return Some(ArgumentNull("key"));
      }
      ruleSets := Put(ruleSets, rs.ruleName.value, rs);
      return None;
    }

    /** The rulesets on one event, one after the other; each alarm is raised as its ruleset triggers. */
    method RunRuleSets(e: Event, now: int) returns (error: Option<Exception>)
      modifies this`ruleSets, alarmMessageManager
      ensures var run := EvaluateFrom(old(ruleSets), 0, [], e, now);
        ruleSets == run.ruleSets && error == run.error
        && alarmMessageManager.raised == old(alarmMessageManager.raised) + run.alarms
    {
      ghost var run := EvaluateFrom(ruleSets, 0, [], e, now);
      ghost var raised0 := alarmMessageManager.raised;
      ghost var alarms: seq<AlarmMessage> := [];
      var i := 0;
      while i < |ruleSets|
        modifies this`ruleSets, alarmMessageManager
        invariant 0 <= i <= |ruleSets|
        invariant EvaluateFrom(ruleSets, i, alarms, e, now) == run
        invariant alarmMessageManager.raised == raised0 + alarms
        decreases |ruleSets| - i
      {
        var (name, rs) := ruleSets[i];
        if Applies(rs, e) {
          var (rs', result) := AnalyseRuleset.AddAndCheck(rs, Some(e), now);
          ruleSets := ruleSets[i := (name, rs')];
          if result.Err? {
            return Some(result.error);
          }
          if result.value {
            if e.caughtException.None? {
              return Some(NullReference(DefaultNullReferenceText));
            }
            alarmMessageManager.RaiseAlarm(RuleSetAlarm(rs', e));
            alarms := alarms + [RuleSetAlarm(rs', e)];
          }
        }
        i := i + 1;
      }
      return None;
    }

    /** One iteration of an analyser task; an exception ends that loop and raises a Medium alarm. */
    method TaskStep(now: int, host: string)
      requires tasks > 0
      modifies this, alarmMessageManager
      ensures var (a', alarms) := AnalyserStepped(old(Value()), now, host);
        Value() == a' && alarmMessageManager.raised == old(alarmMessageManager.raised) + alarms
    {
      if |eventQueue| == 0 {
        return;
      }
      var e := eventQueue[0];
      eventQueue := eventQueue[1..];
      var error := RunRuleSets(e, now);
      if error.Some? {
        isRunning := false;
        tasks := tasks - 1;
        alarmMessageManager.RaiseAlarm(AnalyserCrashAlarm(host, programName, error.value));
      }
    }
  }

  // ---------------------------------------------------------------------------
  // The engine class

  class AnalyserEngine {
    var engineMessages: seq<string>
    var engineIsRunning: bool
    var engineTasks: nat
    var mainEventQueue: seq<Event>
    var analysers: seq<(string, Analyser)>
    var alarms: seq<AlarmMessage>

    constructor()
      ensures engineMessages == [] && !engineIsRunning && engineTasks == 0
      ensures mainEventQueue == [] && analysers == [] && alarms == []
    {
      engineMessages := [];
      engineIsRunning := false;
      engineTasks := 0;
      mainEventQueue := [];
      analysers := [];
      alarms := [];
    }

    /**
     * StartEngine: clears the registry, loads the rulesets (an exception leaves
     * the loop and the method), and starts the engine task, which sets
     * EngineIsRunning.  The main queue is kept.
     */
    method StartEngine(rules: seq<RuleSet>) returns (error: Option<Exception>)
      modifies this`engineMessages, this`analysers, this`engineIsRunning, this`engineTasks
      ensures var l := LoadFrom([], old(engineMessages) + StartingTexts(rules), rules, 0);
        && analysers == l.analysers && error == l.error
        && (error.Some? ==> engineMessages == l.messages && engineIsRunning == old(engineIsRunning)
                            && engineTasks == old(engineTasks))
        && (error.None? ==> engineMessages == l.messages + ["Main engine Task started."] && engineIsRunning
                            && engineTasks == old(engineTasks) + 1)
    {
      engineMessages := engineMessages + StartingTexts(rules);
      analysers := [];
      error := LoadRules(rules);
      if error.Some? {
        return;
      }
      engineTasks := engineTasks + 1;
      engineIsRunning := true;
      engineMessages := engineMessages + ["Main engine Task started."];
    }

    /** StartEngine's loop over the rulesets, stopping at the first exception. */
    method LoadRules(rules: seq<RuleSet>) returns (error: Option<Exception>)
      modifies this`engineMessages, this`analysers
      ensures var l := LoadFrom(old(analysers), old(engineMessages), rules, 0);
        analysers == l.analysers && engineMessages == l.messages && error == l.error
    {
      ghost var l := LoadFrom(analysers, engineMessages, rules, 0);
      var i := 0;
      while i < |rules|
        modifies this`engineMessages, this`analysers
        invariant 0 <= i <= |rules|
        invariant LoadFrom(analysers, engineMessages, rules, i) == l
      {
        LoadFromStep(analysers, engineMessages, rules, i);
        error := LoadRuleSetInto(rules[i]);
        if error.Some? {
          return;
        }
        i := i + 1;
      }
      return None;
    }

    /**
     * One iteration of StartEngine's loop: GetOrAdd, AddOrReplaceRuleSet on the
     * shared analyser, then StartAnalyserTask and the engine message.
     */
    method LoadRuleSetInto(rs: RuleSet) returns (error: Option<Exception>)
      modifies this`engineMessages, this`analysers
      ensures var s := LoadRuleSet(old(analysers), rs);
        && analysers == s.analysers && error == s.error
        && engineMessages == (if error.Some? then old(engineMessages) else old(engineMessages) + s.messages)
    {
      if rs.applicationName.None? {
        return Some(ArgumentNull("key"));
      }
      var k := rs.applicationName.value;
      var a := match Lookup(analysers, k) case Some(x) => x case None => NewAnalyser;
      var (a', e) := RuleSetAdded(a, rs);
      if e.Some? {
        analysers := Put(analysers, k, a');
        return e;
      }
      analysers := Put(analysers, k, WithTask(a'));
      engineMessages := engineMessages + [RuleSetAddedText(rs)];
      return None;
    }

    /** AddToMainQueue: every event in list order, whatever the engine is doing. */
    method AddToMainQueue(results: seq<Event>)
      modifies this`mainEventQueue
      ensures mainEventQueue == old(mainEventQueue) + results
    {
      var i := 0;
      while i < |results|
        modifies this`mainEventQueue
        invariant 0 <= i <= |results|
        invariant mainEventQueue == old(mainEventQueue) + results[..i]
      {
        mainEventQueue := mainEventQueue + [results[i]];
        assert results[..i + 1] == results[..i] + [results[i]];
        i := i + 1;
      }
      assert results[..i] == results;
    }

    /**
     * One iteration of the engine task: an empty queue makes it spin; otherwise
     * the head event is dispatched, and an exception ends the engine loop, clears
     * EngineIsRunning and raises a Medium alarm.
     */
    method EngineStep(host: string)
      requires engineTasks > 0
      modifies this`mainEventQueue, this`analysers, this`engineMessages, this`engineIsRunning, this`engineTasks, this`alarms
      ensures |old(mainEventQueue)| == 0 ==>
        mainEventQueue == old(mainEventQueue) && analysers == old(analysers) && engineMessages == old(engineMessages)
        && engineIsRunning == old(engineIsRunning) && engineTasks == old(engineTasks) && alarms == old(alarms)
      ensures |old(mainEventQueue)| > 0 ==>
        var d := Dispatch(old(mainEventQueue)[0], old(analysers));
        && mainEventQueue == old(mainEventQueue)[1..] && analysers == d.analysers
        && engineMessages == old(engineMessages) + d.messages
        && (d.error.None? ==> engineIsRunning == old(engineIsRunning) && engineTasks == old(engineTasks) && alarms == old(alarms))
        && (d.error.Some? ==> !engineIsRunning && engineTasks == old(engineTasks) - 1
                              && alarms == old(alarms) + [EngineCrashAlarm(host, d.error.value)])
    {
      if |mainEventQueue| == 0 {
        return;
      }
      var e := mainEventQueue[0];
      mainEventQueue := mainEventQueue[1..];
      var error := DispatchEvent(e);
      if error.Some? {
        engineIsRunning := false;
        engineTasks := engineTasks - 1;
        alarms := alarms + [EngineCrashAlarm(host, error.value)];
      }
    }

    /** The body of the engine task's loop for one dequeued event. */
    method DispatchEvent(e: Event) returns (error: Option<Exception>)
      modifies this`analysers, this`engineMessages
      ensures var d := Dispatch(e, old(analysers));
        analysers == d.analysers && engineMessages == old(engineMessages) + d.messages && error == d.error
    {
      if e.tenant.None? {
        return Some(ArgumentNull("key"));
      }
      var t := e.tenant.value;
      match Lookup(analysers, t) {
        case Some(a) =>
          var restart := !a.isRunning;
          var a1 := if restart then WithTask(a) else a;
          var starting := if restart then [NullToEmpty(a.programName) + " analyser not running. Starting."] else [];
          analysers := Put(analysers, t, WithEvent(a1, e));
          engineMessages := engineMessages + (starting + [DispatchText(e, t)]);
        case None =>
          var blank := NewAnalyser.(programName := Some(t));
          engineMessages := engineMessages + ["No analyser for " + t + " in Analysers. Trying to add a blank one with no rulesets.",
                                              "Added blank analyser for " + t + " in Analysers."];
          analysers := Put(analysers, t, WithEvent(WithTask(blank), e));
      }
      return None;
    }

    /** One iteration of a task of the analyser registered under `name`. */
    method AnalyserStep(name: string, now: int, host: string)
      requires Lookup(analysers, name).Some? && Lookup(analysers, name).value.tasks > 0
      modifies this`analysers, this`alarms
      ensures var (a', raised) := AnalyserStepped(old(Lookup(analysers, name).value), now, host);
        analysers == Put(old(analysers), name, a') && alarms == old(alarms) + raised
    {
      var a := Lookup(analysers, name).value;
      var (a', raised) := AnalyserStepped(a, now, host);
      analysers := Put(analysers, name, a');
      alarms := alarms + raised;
    }

    /** The Elapsed event of the timer of ruleset `ruleName` in the analyser registered under `name`. */
    method RuleSetTimeout(name: string, ruleName: string) returns (notified: seq<AnalyseRuleset.ObserverId>)
      requires Lookup(analysers, name).Some? && TimerRunning(Lookup(analysers, name).value, ruleName)
      modifies this`analysers
      ensures var (a', obs) := RuleSetTimedOut(old(Lookup(analysers, name).value), ruleName);
        analysers == Put(old(analysers), name, a') && notified == obs
    {
      var a := Lookup(analysers, name).value;
      var r := Lookup(a.ruleSets, ruleName).value;
      var r', obs := AnalyseRuleset.Timeout(r).0, AnalyseRuleset.Timeout(r).1;
      analysers := Put(analysers, name, a.(ruleSets := Put(a.ruleSets, ruleName, r')));
      notified := obs;
    }
  }

  /**
   * StartEngine on any engine: the registry afterwards is named, the only
   * exception is a null application or rule name, and without one there is
   * one running analyser per application named by the rulesets, with one task
   * per ruleset for it.
   */
  lemma StartEngineOutcome(msgs: seq<string>, rules: seq<RuleSet>)
    ensures var l := LoadFrom([], msgs, rules, 0);
      && RegistryInv(l.analysers)
      && (l.error.Some? ==> l.error == Some(ArgumentNull("key")))
      && (l.error.None? ==>
            && (forall k :: Lookup(l.analysers, k).Some? <==> exists j :: 0 <= j < |rules| && rules[j].applicationName == Some(k))
            && (forall k :: Lookup(l.analysers, k).Some? ==>
                  Lookup(l.analysers, k).value.isRunning && Lookup(l.analysers, k).value.tasks == CountFor(rules, k)))
  {
    assert LoadedFirst([], rules, 0);
    LoadFromOutcome([], msgs, rules, 0);
    assert rules[..|rules|] == rules;
  }
}
