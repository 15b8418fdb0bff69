/**
 * AnalyzerEngine and ProgramAnalyzer as classes: the main queue of incoming
 * events, the registry of one analyzer per application, and the threads that
 * move events from the main queue into the analyzers and through their rules.
 * Each method is proved to change the fields as the function of EngineSpec
 * with the same name says.
 */
module AnalyzerEngine {
  import opened Common
  import opened Assoc
  import AnalyzeRule
  import opened EngineSpec

  /** AlarmMessageManager: RaiseAlarm sends the message to the alarm queue, modelled as the list of everything raised. */
  class AlarmMessageManager {
    var raised: seq<AlarmMessage>

    constructor()
      ensures raised == []
    {
      raised := [];
    }

    method RaiseAlarm(m: AlarmMessage)
      modifies this
      ensures raised == old(raised) + [m]
    {
      raised := raised + [m];
    }
  }

  // ---------------------------------------------------------------------------
  // The ProgramAnalyzer class

  /** ProgramAnalyzer on its own fields, proved against the functions above. */
  class ProgramAnalyzer {
    var state: State
    var threadRunning: bool
    var programName: NString
    var rules: seq<(string, Rule)>
    var eventQueue: seq<Event>
    const alarmMessageManager: AlarmMessageManager

    function Value(): Analyzer
      reads this
    {
      Analyzer(state, threadRunning, programName, rules, eventQueue)
    }

    /**
     * The constructor attaches the analyzer as observer to every
     * TimeBetweenOperations rule it holds, and it holds none yet: so no rule
     * added later ever gets this analyzer as observer.
     */
    constructor(manager: AlarmMessageManager)
      ensures Value() == NewAnalyzer && alarmMessageManager == manager
    {
      state := Stopped;
      threadRunning := false;
      programName := None;
      rules := [];
      eventQueue := [];
      alarmMessageManager := manager;
    }

    method AddEvent(e: Event)
      modifies this`eventQueue
      ensures Value() == EngineSpec.AddEvent(old(Value()), e)
    {
      eventQueue := eventQueue + [e];
    }

    method StopAnalyzer()
      modifies this`state
      ensures Value() == EngineSpec.StopAnalyzer(old(Value()))
    {
      state := ShuttingDown;
    }

    method StartAnalyzer()
      modifies this`state, this`threadRunning
      ensures Value() == EngineSpec.StartAnalyzer(old(Value()))
    {
      threadRunning := true;
      state := Running;
    }

    method AddOrReplaceRule(rule: Rule) returns (error: Option<Exception>)
      modifies this`programName, this`rules
      ensures (Value(), error) == EngineSpec.AddOrReplaceRule(old(Value()), rule)
    {
      if IsNullOrWhiteSpace(programName) {
        programName := rule.programName;
      }
      if programName != rule.programName {
        return Some(Argument(AnalysingOtherProgramText(programName, rule.programName)));
      }
      if rule.ruleName.None? {
        return Some(ArgumentNull("key"));
      }
      rules := Put(rules, rule.ruleName.value, rule);
      return None;
    }

    method UnloadAllRules()
      modifies this`rules
      ensures Value() == EngineSpec.UnloadAllRules(old(Value()))
    {
      rules := [];
    }

    method RuleTriggeredByTimeout(rule: Rule)
      modifies alarmMessageManager
      ensures alarmMessageManager.raised == old(alarmMessageManager.raised) + [TimeoutAlarm(rule)]
    {
      alarmMessageManager.RaiseAlarm(TimeoutAlarm(rule));
    }

    /**
     * The rules on one event.  They are visited one after the other (the
     * source fans them out in parallel), each alarm is raised as its rule
     * triggers, and the first exception ends the visit.
     */
    method RunRules(e: Event, now: int) returns (error: Option<Exception>)
      modifies this`rules, alarmMessageManager
      ensures var run := EvaluateRules(old(rules), e, now);
        rules == run.rules && error == run.error
        && alarmMessageManager.raised == old(alarmMessageManager.raised) + run.alarms
    {
      ghost var raised0 := alarmMessageManager.raised;
      ghost var alarms: seq<AlarmMessage> := [];
      var processed: seq<(string, Rule)> := [];
      var after: seq<(string, Rule)> := rules;
      var i := 0;
      error := None;
      while i < |rules| && error.None?
        modifies alarmMessageManager
        invariant 0 <= i <= |rules| && |processed| == i
        invariant error.None? ==> EvaluateRules(rules, e, now) == Resume(processed, alarms, rules[i..], e, now)
        invariant error.Some? ==> EvaluateRules(rules, e, now) == RuleRun(after, alarms, error)
        invariant alarmMessageManager.raised == raised0 + alarms
        decreases |rules| - i, error.None?
      {
        var (name, rule) := rules[i];
        assert rules[i..][0] == (name, rule) && rules[i..][1..] == rules[i + 1..];
        if !Applies(rule, e) {
          ResumeSkip(processed, alarms, rules[i..], e, now);
          processed := processed + [(name, rule)];
          i := i + 1;
        } else {
          var (rule', result) := AnalyzeRule.AddAndCheck(rule, e, now);
          ResumeRan(processed, alarms, rules[i..], e, now, rule', result);
          if result.Err? {
            error := Some(result.error);
            after := processed + [(name, rule')] + rules[i + 1..];
          } else if !result.value {
            processed := processed + [(name, rule')];
            i := i + 1;
          } else if e.caughtException.None? {
            error := Some(NullReference(DefaultNullReferenceText));
            after := processed + [(name, rule')] + rules[i + 1..];
          } else {
            alarmMessageManager.RaiseAlarm(RuleAlarm(rule', e));
            alarms := alarms + [RuleAlarm(rule', e)];
            processed := processed + [(name, rule')];
            i := i + 1;
          }
        }
      }
      if error.None? {
        assert rules[i..] == [];
        assert EvaluateRules([], e, now) == RuleRun([], [], None);
        after := processed;
      }
      rules := after;
    }

    /** One iteration of the analyzer thread: the next event through the rules, or the end of the thread. */
    method Step(now: int, host: string)
      requires threadRunning
      modifies this`state, this`threadRunning, this`rules, this`eventQueue, alarmMessageManager
      ensures var (a', alarms) := AnalyzerStep(old(Value()), now, host);
        Value() == a' && alarmMessageManager.raised == old(alarmMessageManager.raised) + alarms
    {
      if |eventQueue| == 0 {
        state := Stopped;
        threadRunning := false;
        return;
      }
      var e := eventQueue[0];
      eventQueue := eventQueue[1..];
      var error := RunRules(e, now);
      if error.Some? {
        state := Stopped;
        threadRunning := false;
        alarmMessageManager.RaiseAlarm(AnalyzerCrashAlarm(host, programName, error.value));
      }
    }
  }

  // ---------------------------------------------------------------------------
  // The engine class

  class Engine {
    var state: State
    var phase: EnginePhase
    var shutdownSince: Option<int>
    var mainEventQueue: seq<Event>
    var analyzers: seq<(string, Analyzer)>
    var engineMessages: seq<string>
    var alarms: seq<AlarmMessage>

    function Value(): EngineValue
      reads this
    {
      EngineValue(state, phase, shutdownSince, mainEventQueue, analyzers, engineMessages, alarms)
    }

    predicate Valid()
      reads this
    {
      EngineInv(Value())
    }

    constructor()
      ensures Value() == EngineValue(Stopped, NoThread, None, [], [], [], []) && Valid()
    {
      state := Stopped;
      phase := NoThread;
      shutdownSince := None;
      mainEventQueue := [];
      analyzers := [];
      engineMessages := [];
      alarms := [];
    }

    function EngineIsRunning(): (r: bool)
      reads this
      ensures r <==> state == Running
    {
      state == Running
    }

    /** One iteration of AddRulesToAnalyzer on the registry: GetOrCreateAnalyzer, AddOrReplaceRule, then the message. */
    method AddRule(rule: Rule) returns (error: Option<Exception>)
      modifies this`analyzers, this`engineMessages
      ensures var l := LoadRule(old(analyzers), rule);
        analyzers == l.analyzers && engineMessages == old(engineMessages) + l.messages && error == l.error
    {
      if rule.programName.None? {
        return Some(ArgumentNull("key"));
      }
      var p := rule.programName.value;
      var a := match Lookup(analyzers, p) case Some(x) => x case None => NewAnalyzer;
      var (a', e) := EngineSpec.AddOrReplaceRule(a, rule);
      analyzers := Put(analyzers, p, a');
      error := e;
      if e.None? {
        engineMessages := engineMessages + [RuleAddedText(rule)];
      }
    }

    method AddRulesToAnalyzer(rules: seq<Rule>) returns (error: Option<Exception>)
      modifies this`analyzers, this`engineMessages
      ensures var l := EngineSpec.AddRulesToAnalyzer(old(analyzers), rules);
        analyzers == l.analyzers && engineMessages == old(engineMessages) + l.messages && error == l.error
    {
      ghost var reg0, m0 := analyzers, engineMessages;
      ghost var added: seq<string> := [];
      var i := 0;
      assert rules[0..] == rules;
      while i < |rules|
        invariant 0 <= i <= |rules|
        invariant engineMessages == m0 + added
        invariant EngineSpec.AddRulesToAnalyzer(reg0, rules) == AfterMessages(added, EngineSpec.AddRulesToAnalyzer(analyzers, rules[i..]))
      {
        error, added := LoadNext(rules, i, reg0, m0, added);
        if error.Some? {
          return;
        }
        i := i + 1;
      }
      assert rules[i..] == [];
      error := None;
    }

    /** One pass of AddRulesToAnalyzer's loop, with `added` the messages logged so far. */
    method LoadNext(rules: seq<Rule>, i: nat, ghost reg0: seq<(string, Analyzer)>, ghost m0: seq<string>, ghost added: seq<string>)
      returns (error: Option<Exception>, ghost added': seq<string>)
      requires i < |rules| && engineMessages == m0 + added
      requires EngineSpec.AddRulesToAnalyzer(reg0, rules) == AfterMessages(added, EngineSpec.AddRulesToAnalyzer(analyzers, rules[i..]))
      modifies this`analyzers, this`engineMessages
      ensures var l := EngineSpec.AddRulesToAnalyzer(reg0, rules);
        error.Some? ==> analyzers == l.analyzers && engineMessages == m0 + l.messages && error == l.error
      ensures error.None? ==>
        && engineMessages == m0 + added'
        && EngineSpec.AddRulesToAnalyzer(reg0, rules) == AfterMessages(added', EngineSpec.AddRulesToAnalyzer(analyzers, rules[i + 1..]))
    {
      LoadInvStep(reg0, rules, i, added, analyzers);
      ghost var s := LoadRule(analyzers, rules[i]);
      error := AddRule(rules[i]);
      added' := added + s.messages;
      if error.Some? {
        assert s.messages == [] && added' == added;
      }
    }

    /** StartAnalyzer on every analyzer, in registry order. */
    method StartAnalyzers()
      modifies this`analyzers
      ensures analyzers == StartAll(old(analyzers))
    {
      var j := 0;
      while j < |analyzers|
        invariant 0 <= j <= |analyzers| && |analyzers| == |old(analyzers)|
        invariant forall m :: 0 <= m < j ==> analyzers[m] == (old(analyzers)[m].0, EngineSpec.StartAnalyzer(old(analyzers)[m].1))
        invariant forall m :: j <= m < |analyzers| ==> analyzers[m] == old(analyzers)[m]
      {
        analyzers := analyzers[j := (analyzers[j].0, EngineSpec.StartAnalyzer(analyzers[j].1))];
        j := j + 1;
      }
    }

    /** The rule loading at the start of StartEngine, into a registry that starts empty. */
    method LoadRules(rules: seq<Rule>) returns (error: Option<Exception>)
      modifies this`analyzers, this`engineMessages
      ensures var l := EngineSpec.AddRulesToAnalyzer([], rules);
        && analyzers == l.analyzers && error == l.error
        && engineMessages == old(engineMessages) + (if |rules| == 0 then ["Starting with no rules."] else l.messages)
    {
      analyzers := [];
      if |rules| == 0 {
        engineMessages := engineMessages + ["Starting with no rules."];
      }
      ghost var msgs := engineMessages;
      error := AddRulesToAnalyzer(rules);
      if |rules| == 0 {
        assert engineMessages == msgs;
      }
    }

    method StartEngine(rules: seq<Rule>, guid: nat) returns (error: Option<Exception>)
      requires Valid()
      modifies this`engineMessages, this`analyzers, this`state, this`phase
      ensures (Value(), error) == EngineSpec.StartEngine(old(Value()), rules, guid) && Valid()
    {
      ghost var v := Value();
      ghost var l := EngineSpec.AddRulesToAnalyzer([], rules);
      StartEngineInv(v, rules, guid);
      engineMessages := engineMessages + [StartingText(guid)];
      error := LoadRules(rules);
      ghost var msgs := engineMessages;
      assert msgs == v.messages + [StartingText(guid)] + (if |rules| == 0 then ["Starting with no rules."] else l.messages);
      if error.Some? {
        assert Value() == v.(analyzers := l.analyzers, messages := msgs);
        return;
      }
      StartRunning();
      assert Value() == v.(analyzers := StartAll(l.analyzers), messages := msgs + ["Main engine thread started."],
                           state := Running, phase := MainLoopRunning);
    }

    /** The end of a successful start: the analyzers are started and the main loop runs. */
    method StartRunning()
      modifies this`analyzers, this`engineMessages, this`state, this`phase
      ensures analyzers == StartAll(old(analyzers)) && engineMessages == old(engineMessages) + ["Main engine thread started."]
      ensures state == Running && phase == MainLoopRunning
    {
      StartAnalyzers();
      engineMessages := engineMessages + ["Main engine thread started."];
      state := Running;
      phase := MainLoopRunning;
    }

    method StopEngine(now: int)
      requires Valid()
      modifies this
      ensures Value() == EngineSpec.StopEngine(old(Value()), now) && Valid()
    {
      engineMessages := engineMessages + ["Initiating engine shutdown."];
      state := ShuttingDown;
      engineMessages := engineMessages + ["Waiting for all analyzers to finish."];
      shutdownSince := Some(now);
    }

    method ShutdownStep(now: int)
      requires Valid() && shutdownSince.Some? && shutdownSince.value <= now
      modifies this
      ensures Value() == EngineSpec.ShutdownStep(old(Value()), now) && Valid()
    {
      var waited := (now - shutdownSince.value) / TicksPerMillisecond;
      var n := NotStopped(analyzers);
      if n > 0 && waited < ShutdownWaitMs {
        engineMessages := engineMessages + [NotStoppedText(n, waited)];
      } else {
        engineMessages := engineMessages + ["Shutdown complete."];
        state := Stopped;
        shutdownSince := None;
      }
    }

    method AddToMainQueue(events: seq<Event>) returns (error: Option<Exception>)
      requires Valid()
      modifies this
      ensures (Value(), error) == EngineSpec.AddToMainQueue(old(Value()), events) && Valid()
    {
      if !EngineIsRunning() {
        return Some(General(NotRunningText));
      }
      var i := 0;
      while i < |events|
        modifies this`mainEventQueue
        invariant 0 <= i <= |events|
        invariant mainEventQueue == old(mainEventQueue) + events[..i]
      {
        mainEventQueue := mainEventQueue + [events[i]];
        i := i + 1;
      }
      assert events[..i] == events;
      return None;
    }

    /** The engine's MainLoop. */
    method MainLoop() returns (error: Option<Exception>)
      modifies this`mainEventQueue, this`analyzers, this`engineMessages
      ensures var d := Dispatch(old(mainEventQueue), old(analyzers));
        mainEventQueue == d.queue && analyzers == d.analyzers
        && engineMessages == old(engineMessages) + d.messages && error == d.error
    {
      if |mainEventQueue| == 0 {
        return None;
      }
      var e := mainEventQueue[0];
      mainEventQueue := mainEventQueue[1..];
      if e.tenant.None? {
        return Some(ArgumentNull("key"));
      }
      var t := e.tenant.value;
      match Lookup(analyzers, t) {
        case Some(a) => ToKnownAnalyzer(t, a, e);
        case None => ToBlankAnalyzer(t, e);
      }
      return None;
    }

    method ToKnownAnalyzer(t: string, a: Analyzer, e: Event)
      modifies this`analyzers, this`engineMessages
      ensures var d := DispatchToKnown(mainEventQueue, old(analyzers), t, a, e);
        analyzers == d.analyzers && engineMessages == old(engineMessages) + d.messages
    {
      var a1 := a;
      if a.state == Stopped {
        engineMessages := engineMessages + [NullToEmpty(a.programName) + " analyzer not running. Starting."];
        a1 := EngineSpec.StartAnalyzer(a);
      }
      analyzers := Put(analyzers, t, EngineSpec.AddEvent(a1, e));
      engineMessages := engineMessages + [EventAddedText(e, t)];
    }

    method ToBlankAnalyzer(t: string, e: Event)
      modifies this`analyzers, this`engineMessages
      ensures var d := DispatchToBlank(mainEventQueue, old(analyzers), t, e);
        analyzers == d.analyzers && engineMessages == old(engineMessages) + d.messages
    {
      engineMessages := engineMessages + ["No analyzer for " + t + " in Analyzers. Trying to add a blank one with no rules."];
      var blank := NewAnalyzer.(programName := Some(t));
      engineMessages := engineMessages + ["Added blank analyzer for " + t + " in Analyzers."];
      analyzers := Put(analyzers, t, EngineSpec.AddEvent(EngineSpec.StartAnalyzer(blank), e));
    }

    /** The loop that stops every analyzer once the main queue is drained, logging each one. */
    method StopAnalyzers()
      modifies this`analyzers, this`engineMessages
      ensures analyzers == StopAll(old(analyzers))
      ensures engineMessages == old(engineMessages) + StoppingTexts(old(analyzers))
    {
      ghost var before := analyzers;
      ghost var msgs0 := engineMessages;
      var i := 0;
      while i < |analyzers|
        invariant 0 <= i <= |analyzers| && |analyzers| == |before|
        invariant forall m :: 0 <= m < i ==> analyzers[m] == (before[m].0, EngineSpec.StopAnalyzer(before[m].1))
        invariant forall m :: i <= m < |analyzers| ==> analyzers[m] == before[m]
        invariant engineMessages == msgs0 + StoppingTexts(before)[..i]
      {
        engineMessages := engineMessages + ["Stopping analyzer for " + analyzers[i].0];
        assert StoppingTexts(before)[..i + 1] == StoppingTexts(before)[..i] + ["Stopping analyzer for " + before[i].0];
        analyzers := analyzers[i := (analyzers[i].0, EngineSpec.StopAnalyzer(analyzers[i].1))];
        i := i + 1;
      }
      assert analyzers == StopAll(before);
      assert StoppingTexts(before)[..i] == StoppingTexts(before);
    }

    /** One iteration of the engine thread. */
    method EngineStep(host: string)
      requires Valid() && phase != NoThread
      modifies this
      ensures Value() == EngineThreadStep(old(Value()), host) && Valid()
    {
      EngineThreadStepKeepsInv(Value(), host);
      if phase == MainLoopRunning && state != Running {
        StartDraining();
      } else if phase == Draining && |mainEventQueue| == 0 {
        ShutDownAnalyzers();
      } else {
        RunMainLoop(host);
      }
    }

    method StartDraining()
      modifies this`phase, this`engineMessages
      ensures Value() == EngineStartDraining(old(Value()))
    {
      engineMessages := engineMessages + [DrainingText(|mainEventQueue|)];
      phase := Draining;
    }

    method ShutDownAnalyzers()
      modifies this`phase, this`analyzers, this`engineMessages
      ensures Value() == EngineStopAnalyzers(old(Value()))
    {
      engineMessages := engineMessages + ["Main queue emptied. Shutting down analyzers"];
      StopAnalyzers();
      phase := NoThread;
    }

    /** The main loop's body with the handler that turns an escaping exception into a Medium alarm. */
    method RunMainLoop(host: string)
      modifies this`state, this`phase, this`mainEventQueue, this`analyzers, this`engineMessages, this`alarms
      ensures Value() == EngineMainLoop(old(Value()), host)
    {
      var error := MainLoop();
      if error.Some? {
        state := Stopped;
        phase := NoThread;
        alarms := alarms + [EngineCrashAlarm(host, error.value)];
      }
    }

    /** One iteration of the thread of the analyzer registered under `name`. */
    method AnalyzerStep(name: string, now: int, host: string)
      requires Valid() && Lookup(analyzers, name).Some? && Lookup(analyzers, name).value.threadRunning
      modifies this
      ensures Value() == AnalyzerThreadStep(old(Value()), name, now, host) && Valid()
    {
      AnalyzerThreadStepKeepsInv(Value(), name, now, host);
      var a := Lookup(analyzers, name).value;
      var (a', raised) := EngineSpec.AnalyzerStep(a, now, host);
      analyzers := Put(analyzers, name, a');
      alarms := alarms + raised;
    }

    /**
     * GetRulesLoadedInAnalyzer: a null name throws ArgumentNullException, an
     * unknown name has no rules, and a registered analyzer lists its rules' names.
     */
    function GetRulesLoadedInAnalyzer(name: NString): (r: Result<seq<string>>)
      reads this
      ensures r == EngineSpec.GetRulesLoadedInAnalyzer(analyzers, name)
      ensures name.None? ==> r == Err(ArgumentNull("key"))
      ensures name.Some? && name.value !in Keys(analyzers) ==> r == Ok([])
      ensures Valid() ==> forall i :: 0 <= i < |analyzers| && name == Some(analyzers[i].0) ==> r == Ok(Keys(analyzers[i].1.rules))
    {
      EngineSpec.RegisteredQueries(analyzers);
      EngineSpec.GetRulesLoadedInAnalyzer(analyzers, name)
    }

    /**
     * GetInfoForAnalyzer: a null name throws ArgumentNullException, an unknown
     * name gives the blank info, and a registered analyzer gives its own row of
     * GetCurrentAnalyzersInfo.
     */
    function GetInfoForAnalyzer(name: NString): (r: Result<AnalyzerInstanceInfo>)
      reads this
      ensures r == EngineSpec.GetInfoForAnalyzer(analyzers, name)
      ensures name.None? ==> r == Err(ArgumentNull("key"))
      ensures name.Some? && name.value !in Keys(analyzers) ==> r == Ok(AnalyzerInstanceInfo(None, None, 0, 0))
      ensures Valid() ==> forall i :: 0 <= i < |analyzers| && name == Some(analyzers[i].0) ==> r == Ok(InfoListEntry(analyzers[i].0, analyzers[i].1))
    {
      EngineSpec.RegisteredQueries(analyzers);
      EngineSpec.GetInfoForAnalyzer(analyzers, name)
    }

    /** GetCurrentAnalyzersInfo: one entry per registered analyzer, in registry order. */
    method GetCurrentAnalyzersInfo() returns (infos: seq<AnalyzerInstanceInfo>)
      ensures |infos| == |analyzers|
      ensures forall i :: 0 <= i < |analyzers| ==> infos[i] == InfoListEntry(analyzers[i].0, analyzers[i].1)
    {
      infos := [];
      var i := 0;
      while i < |analyzers|
        invariant 0 <= i <= |analyzers| && |infos| == i
        invariant forall m :: 0 <= m < i ==> infos[m] == InfoListEntry(analyzers[m].0, analyzers[m].1)
      {
        infos := infos + [InfoListEntry(analyzers[i].0, analyzers[i].1)];
        i := i + 1;
      }
    }
  }
}
