# systemHealthAndAuditing, modelled in Dafny

A model of the analysis and alarming core of the systemHealthAndAuditing
pipeline. Client applications report operation outcomes as events, and an
analyzer engine hands each event to the analyzer of its application. The
analyzer runs the windowed rules of that application over the event, and a
rule that triggers raises an alarm. Alarms pass through flood control before
they reach the alarm channels, such as the Slack client. The model also
covers the helpers around that core:

- the event identifier codec and partition-key sanitising;
- table-batch splitting;
- the status-snapshot double buffer;
- the console host's command handling and restart counter;
- the control centre's exception and parameter formatting.

Each source file is its own Dafny module, and most files get one `.dfy` file.

- **Rules.** `analyze_rule.dfy` is the current rule hierarchy and
  `analyse_ruleset.dfy` the older one. They share the windowed queues of
  `window_rules.dfy`. `rule_tests.dfy` replays the unit tests' sequences.
- **Engines.** `engine_spec.dfy` holds the value-level specification of the
  analyzer engine and its per-application analyzers. `analyzer_engine.dfy` is
  the engine as classes whose methods are proved against that specification.
  `quick_analyser_engine.dfy` is the older engine.
- **Alarm side.** `message_aggregator.dfy`, `alarm_sender.dfy` (flood control),
  `alarm_channels_holder.dfy` and `slack_client.dfy`.
- **Events and their identifiers.** `system_event.dfy`,
  `system_event_netstandard.dfy` and `operation_result.dfy`. They use the base64
  and base64url encodings of sections 4 and 5 of RFC 4648, which are in
  `codec.dfy`.
- **Ingestion batches.** `table_batches.dfy` splits events into batches. It
  serves both the Azure table event store and the quick analyzer's event
  processor (`quick_analyzer_program.dfy`).
- **Snapshots.** `snapshot_export.dfy` is the export queue shared by
  `console_status_snapshot.dfy` and `engine_control_status_snapshot.dfy`.
- **Hosts and helpers.** `console_program.dfy` is the console host.
  `helper_methods.dfy` holds the control centre's formatters.
- **Shared definitions.** `common.dfy`, `assoc.dfy` (dictionaries as
  association lists) and `text.dfy` (string operations).

Some conventions run through the whole model:

- **Time.** Time is an integer count of ticks, and the current time is a
  `now` parameter.
- **Timers.** A timer is an armed flag plus an explicit timeout step.
- **Threads.** A thread's loop is one step method per iteration.
- **Exceptions.** An exception is a value of the `Exception` datatype,
  returned in a `Result` or an `Option`.

## Model

| member | source | states |
|---|---|---|
| WindowRules.EvictSuffix | HealthAndAuditShared/AnalyzeRule.cs:69-72 | eviction drops a prefix of expired entries (every one at or before now) and keeps the rest of the queue as it was |
| WindowRules.EvictIsLive | HealthAndAuditShared/AnalyzeRule.cs:69-72 | on a queue in expiry order, dequeuing from the front while the head has expired removes exactly the expired entries |
| WindowRules.EvictKeepsOrder | HealthAndAuditShared/AnalyzeRule.cs:69-72 | eviction keeps a queue in expiry order |
| WindowRules.AppendKeepsOrder | HealthAndAuditShared/AnalyzeRule.cs:73 | enqueuing an expiry no earlier than every queued one keeps the queue sorted and bounded by it |
| WindowRules.MaxAmountIgnoresOthers | HealthAndAuditShared/AnalyzeRule.cs:65-68 | a result other than Failure returns false and leaves the failure queue as it was, expired entries included |
| WindowRules.MaxAmountFailure | HealthAndAuditShared/AnalyzeRule.cs:69-80 | a failure triggers iff the live failures plus this one reach the threshold; a trigger empties the queue, otherwise the live entries are kept and now + window is appended |
| WindowRules.MaxAmountKeepsInv | HealthAndAuditShared/AnalyzeRule.cs:69-80 | with a threshold of at least 1, after every call the queue holds fewer entries than the threshold, sorted and bounded by now + window |
| WindowRules.InvLater | HealthAndAuditShared/AnalyzeRule.cs:69-80 | the queue invariant carries over to any later bound, so it holds from call to call while the clock advances |
| WindowRules.PercentReachedIsRatio | HealthAndAuditShared/AnalyzeRule.cs:115-117 | the integer test 100 * failed >= percent * total agrees with the exact ratio failed / total * 100 >= percent |
| WindowRules.PercentRejectsNeutral | HealthAndAuditShared/AnalyzeRule.cs:96-114 | a Neutral result throws ArgumentOutOfRangeException after both queues were evicted |
| WindowRules.PercentTrigger | HealthAndAuditShared/AnalyzeRule.cs:115-124 | for Success or Failure the rule triggers iff the live total plus this one reaches the minimum and the live failures reach the percentage, inclusive; a trigger clears both queues |
| WindowRules.PercentTriggerEvicted | HealthAndAuditShared/AnalyzeRule.cs:96-124 | the same trigger condition stated over the evicted queues of arbitrary (unsorted) inputs |
| WindowRules.PercentNeedsMinimum | HealthAndAuditShared/AnalyzeRule.cs:117 | below the minimum number of operations the rule never triggers, even at 100% failures |
| WindowRules.PercentQueues | HealthAndAuditShared/AnalyzeRule.cs:104-124 | after a step each queue is empty or its evicted form, with now + window appended to the queue of the event's own result |
| WindowRules.AppendedKeepsOrder | HealthAndAuditShared/AnalyzeRule.cs:104-111 | appending to the queue of the event's own result keeps it sorted and bounded |
| WindowRules.PercentKeepsOrder | HealthAndAuditShared/AnalyzeRule.cs:96-124 | both queues stay sorted and bounded by the latest expiry after every call |
| AnalyzeRule.MaxAmountIgnoresNonFailure | HealthAndAuditShared/AnalyzeRule.cs:65-68 | MaxAmountOfFailuresRule returns false for every result but Failure and changes nothing |
| AnalyzeRule.MaxAmountOnFailure | HealthAndAuditShared/AnalyzeRule.cs:69-80 | on a failure it triggers iff the live failures plus this one reach MaxTimesFailureAllowed; a trigger empties the queue and sets the alarm message "{max} failures occured within {window}." |
| AnalyzeRule.PercentNeutralThrows | HealthAndAuditShared/AnalyzeRule.cs:96-114 | FailurePercentRule throws ArgumentOutOfRangeException for Neutral after evicting both queues, leaving the message alone |
| AnalyzeRule.PercentOnResult | HealthAndAuditShared/AnalyzeRule.cs:115-124 | FailurePercentRule triggers iff enough live operations failed often enough, and then clears both queues |
| AnalyzeRule.NoObserverAlwaysTriggers | HealthAndAuditShared/AnalyzeRule.cs:157-163 | with no observer attached every event returns true and only the alarm message changes |
| AnalyzeRule.SingleOperationRestartsTimer | HealthAndAuditShared/AnalyzeRule.cs:164-168 | the single operation name is matched before start and end: the timer is stopped and restarted and the call returns false, or throws when the interval is refused |
| AnalyzeRule.SecondStartTriggers | HealthAndAuditShared/AnalyzeRule.cs:186-193 | a start while a start is pending returns true, stops the timer and leaves the start flag set |
| AnalyzeRule.FirstStartArms | HealthAndAuditShared/AnalyzeRule.cs:194-196 | a first start sets the flag, arms the timer and returns false |
| AnalyzeRule.EndClearsStart | HealthAndAuditShared/AnalyzeRule.cs:199-210 | every end clears the flag and stops the timer; it returns true exactly when no start was pending |
| AnalyzeRule.TimeoutNotifiesOnce | HealthAndAuditShared/AnalyzeRule.cs:224-229 | a timeout stops the timer and notifies each observer once, in attachment order, without clearing the start flag |
| AnalyzeRule.MaxAmountOfFailuresRule.constructor | HealthAndAuditShared/AnalyzeRule.cs:41-62 | a new rule has the base defaults (Low level, one-hour window), threshold 0 and no failures |
| AnalyzeRule.MaxAmountOfFailuresRule.AddAndCheckIfTriggered | HealthAndAuditShared/AnalyzeRule.cs:63-81 | the method's new state and return value are those of the rule function, whose properties are the lemmas above |
| AnalyzeRule.FailurePercentRule.constructor | HealthAndAuditShared/AnalyzeRule.cs:87-92 | MaxFailurePercent defaults to 0 and the minimum to 10, with both queues empty |
| AnalyzeRule.FailurePercentRule.EvictExpired | HealthAndAuditShared/AnalyzeRule.cs:96-103 | the two dequeue loops leave each queue evicted at now |
| AnalyzeRule.FailurePercentRule.AddAndCheckIfTriggered | HealthAndAuditShared/AnalyzeRule.cs:94-125 | the new state and outcome, the Neutral exception included, are those of the rule function |
| AnalyzeRule.TimeBetweenOperations.constructor | HealthAndAuditShared/AnalyzeRule.cs:136-146 | no start or end name, no pending start, no timer and no observers |
| AnalyzeRule.TimeBetweenOperations.AttachObserver | HealthAndAuditShared/AnalyzeRule.cs:147 | the observer is appended to the list, duplicates kept |
| AnalyzeRule.TimeBetweenOperations.NotifyObservers | HealthAndAuditShared/AnalyzeRule.cs:149-155 | every attached observer is called once, in order |
| AnalyzeRule.TimeBetweenOperations.StopTimer | HealthAndAuditShared/AnalyzeRule.cs:219-222 | the timer is disarmed |
| AnalyzeRule.TimeBetweenOperations.StartTimer | HealthAndAuditShared/AnalyzeRule.cs:212-217 | the timer is armed unless the interval is refused, in which case the ArgumentException is returned |
| AnalyzeRule.TimeBetweenOperations.AddAndCheckIfTriggered | HealthAndAuditShared/AnalyzeRule.cs:157-178 | the new state and outcome are those of the rule function |
| AnalyzeRule.TimeBetweenOperations.AddSingleOperation | HealthAndAuditShared/AnalyzeRule.cs:180-184 | the timer is stopped and restarted and false is returned |
| AnalyzeRule.TimeBetweenOperations.ForStartOperation | HealthAndAuditShared/AnalyzeRule.cs:186-197 | the start path, as its step function |
| AnalyzeRule.TimeBetweenOperations.ForEndOperation | HealthAndAuditShared/AnalyzeRule.cs:199-210 | the end path, as its step function |
| AnalyzeRule.TimeBetweenOperations.OnTimeout | HealthAndAuditShared/AnalyzeRule.cs:224-229 | the timer's Elapsed event: the new state and the observers notified are those of Timeout |
| AnalyseRuleset.SameWindowSemantics | HealthAndAuditShared/AnalyseRuleset.cs:62-129 | on a real event the legacy max-failure and failure-percent rules step exactly as the current ones, the Neutral exception included |
| AnalyseRuleset.StepKeepsTimerInv | HealthAndAuditShared/AnalyseRuleset.cs:170-193 | a call keeps the timer invariant: the elapsed flag is set only while a timer runs |
| AnalyseRuleset.TimeoutKeepsTimerInv | HealthAndAuditShared/AnalyseRuleset.cs:250-254 | a timeout keeps the timer invariant |
| AnalyseRuleset.ReturnIsRetVal | HealthAndAuditShared/AnalyseRuleset.cs:183-192 | `retVal \|\| _timePass` returns what `retVal` alone would, since the flag is still set only when retVal is already true |
| AnalyseRuleset.SingleOperationAlternates | HealthAndAuditShared/AnalyseRuleset.cs:198-248 | in single-operation mode a matching event arms the timer when idle (Begin) and stops it when armed (End), returning false |
| AnalyseRuleset.ElapsedTriggersOnNextEvent | HealthAndAuditShared/AnalyseRuleset.cs:172-192 | after the timer elapsed the next event returns true with the timeout message and resets the rule through End |
| AnalyseRuleset.SecondStartResets | HealthAndAuditShared/AnalyseRuleset.cs:208-219 | a start while one is pending returns true and, through End, resets the whole state |
| AnalyseRuleset.EndClears | HealthAndAuditShared/AnalyseRuleset.cs:221-248 | every end clears LastOperationTime and the elapsed flag; it returns true exactly when no start was pending |
| AnalyseRuleset.TimeoutSetsPass | HealthAndAuditShared/AnalyseRuleset.cs:250-254 | a timeout sets the elapsed flag, notifies every observer and leaves the timer running |
| AnalyseRuleset.MaxAmountOfFailuresRule.constructor | HealthAndAuditShared/AnalyseRuleset.cs:62-65 | a new rule has the base defaults, threshold 0 and no failures |
| AnalyseRuleset.MaxAmountOfFailuresRule.AddAndCheckIfTriggered | HealthAndAuditShared/AnalyseRuleset.cs:66-84 | the new state and result are those of the legacy rule function |
| AnalyseRuleset.FailurePercentRule.constructor | HealthAndAuditShared/AnalyseRuleset.cs:90-95 | MaxFailurePercent defaults to 0 and the minimum to 10 |
| AnalyseRuleset.FailurePercentRule.EvictExpired | HealthAndAuditShared/AnalyseRuleset.cs:99-106 | the two dequeue loops leave each queue evicted at now |
| AnalyseRuleset.FailurePercentRule.AddAndCheckIfTriggered | HealthAndAuditShared/AnalyseRuleset.cs:97-128 | the new state and outcome are those of the legacy rule function |
| AnalyseRuleset.TimeBetweenOperations.constructor | HealthAndAuditShared/AnalyseRuleset.cs:153-155 | no names, no pending operation, no elapsed flag, no timer and no observers |
| AnalyseRuleset.TimeBetweenOperations.WithObserver | HealthAndAuditShared/AnalyseRuleset.cs:157-159 | the constructor taking an observer ignores it: nothing is attached |
| AnalyseRuleset.TimeBetweenOperations.AttachObserver | HealthAndAuditShared/AnalyseRuleset.cs:161-162 | the observer is appended |
| AnalyseRuleset.TimeBetweenOperations.NotifyObservers | HealthAndAuditShared/AnalyseRuleset.cs:164-168 | every attached observer is called once, in order |
| AnalyseRuleset.TimeBetweenOperations.Begin | HealthAndAuditShared/AnalyseRuleset.cs:234-241 | the time is recorded, then the timer is armed or its exception returned |
| AnalyseRuleset.TimeBetweenOperations.End | HealthAndAuditShared/AnalyseRuleset.cs:243-248 | the timer is stopped and the pending time and the elapsed flag are cleared |
| AnalyseRuleset.TimeBetweenOperations.ForSingleOperations | HealthAndAuditShared/AnalyseRuleset.cs:198-206 | Begin when no operation is pending, End otherwise, returning false |
| AnalyseRuleset.TimeBetweenOperations.ForStartOperation | HealthAndAuditShared/AnalyseRuleset.cs:208-219 | a pending start gives true with the second-start message and End; otherwise Begin |
| AnalyseRuleset.TimeBetweenOperations.ForEndOperation | HealthAndAuditShared/AnalyseRuleset.cs:221-232 | returns true iff no start was pending, setting the end-before-start message, and ends |
| AnalyseRuleset.TimeBetweenOperations.ForOperation | HealthAndAuditShared/AnalyseRuleset.cs:174-182 | the event is matched against the single, start and end names, as the step function |
| AnalyseRuleset.TimeBetweenOperations.AddAndCheckIfTriggered | HealthAndAuditShared/AnalyseRuleset.cs:170-193 | the new state and outcome are those of the legacy rule function |
| AnalyseRuleset.TimeBetweenOperations.OnTimeout | HealthAndAuditShared/AnalyseRuleset.cs:250-254 | the new state and the observers notified are those of Timeout |
| RuleTests.AmountFourOps | RuleTests/Amount.cs:14-21 | threshold 4 and a 9 s window: four immediate failures give false, false, false, true |
| RuleTests.AmountTtl | RuleTests/Amount.cs:23-31 | failures further apart than the window never trigger: all four calls give false |
| RuleTests.PercentAllFail | RuleTests/Percent.cs:14-22 | 50% and minimum 4: four failures give false, false, false, true |
| RuleTests.PercentExactFail | RuleTests/Percent.cs:24-33 | fail, fail, success, success gives false, false, false, true: exactly 50% triggers |
| RuleTests.PercentFailThenSuccesses | RuleTests/Percent.cs:35-44 | a failure then three successes gives false four times |
| RuleTests.StartAndStopOneOperation | RuleTests/StartAndStop.cs:17-28 | on the legacy rule: false three times, the timeout, then true and false |
| RuleTests.StartAndStopEndFirst | RuleTests/StartAndStop.cs:31-46 | on the legacy rule an end with no start returns true |
| RuleTests.OneOperationOnCurrentRule | RuleTests/StartAndStop.cs:17-28 | the same first event on the current rule, with no observer attached, already returns true |
| EngineSpec.AddEvent | HealthAndAuditShared/AnalyzerEngine.cs:368-371 | an event joins the back of the analyzer's queue and nothing else changes |
| EngineSpec.StopAnalyzer | HealthAndAuditShared/AnalyzerEngine.cs:373-376 | StopAnalyzer sets ShuttingDown unconditionally and changes nothing else |
| EngineSpec.StartAnalyzer | HealthAndAuditShared/AnalyzerEngine.cs:378-385 | StartAnalyzer starts a thread that sets Running, and changes nothing else |
| EngineSpec.UnloadAllRules | HealthAndAuditShared/AnalyzerEngine.cs:454-457 | the rule map is emptied and nothing else changes |
| EngineSpec.AddOrReplaceRuleOutcome | HealthAndAuditShared/AnalyzerEngine.cs:441-452 | a blank program name adopts the rule's; the call fails iff the names then differ or the rule has no name; on success exactly the rule's name maps to the rule and every other name keeps its rule |
| EngineSpec.EvaluationWithoutError | HealthAndAuditShared/AnalyzerEngine.cs:418-433 | without an exception each rule becomes what it would be after the event on its own, and the alarms are exactly those of the applicable rules that triggered, in rule order |
| EngineSpec.EvaluationKeepsNames | HealthAndAuditShared/AnalyzerEngine.cs:422-432 | evaluation keeps every rule under its name and in its place |
| EngineSpec.FirstFailure | HealthAndAuditShared/AnalyzerEngine.cs:422-426 | the index of the first rule that throws on the event, or of the first applicable rule that triggers on an event without a caught exception |
| EngineSpec.ErrorIffFailure | HealthAndAuditShared/AnalyzerEngine.cs:422-432 | a visit of the rules ends with an exception exactly when some rule fails on the event |
| EngineSpec.EvaluationStopsAtFailure | HealthAndAuditShared/AnalyzerEngine.cs:396-432 | the first failing rule ends the visit: earlier rules ran and raised their alarms, that rule's exception (or the NullReferenceException of `CaughtException.Message`) is the visit's, and later rules never see the event |
| EngineSpec.NoCaughtExceptionNoRuleAlarm | HealthAndAuditShared/AnalyzerEngine.cs:424-427 | an event without a caught exception never yields a rule alarm: building the alarm dereferences the null exception and throws |
| EngineSpec.AnalyzerStepOutcome | HealthAndAuditShared/AnalyzerEngine.cs:386-438 | one step takes the head of the queue; without an exception the state stays, otherwise the analyzer is Stopped and one Medium alarm follows the rule alarms; an empty queue ends the thread with the analyzer Stopped |
| EngineSpec.ThreadEndsStopped | HealthAndAuditShared/AnalyzerEngine.cs:386-394 | a live analyzer thread ends Stopped within one step more than its queue holds, whatever its state |
| EngineSpec.IdleAnalyzerStaysShuttingDown | HealthAndAuditShared/AnalyzerEngine.cs:373-376 | StopAnalyzer on an analyzer with no thread leaves it ShuttingDown for good: nothing sets it Stopped, and dispatch (lines 228-233) restarts only Stopped analyzers |
| EngineSpec.AddRuleToOwnAnalyzer | HealthAndAuditShared/AnalyzerEngine.cs:441-452 | adding a rule of program p (as AddRulesToAnalyzer does, line 314) to an analyzer that is blank or analyses p leaves it analysing p, still Stopped; only a null rule name is refused |
| EngineSpec.LoadedRegistry | HealthAndAuditShared/AnalyzerEngine.cs:310-326 | loading rules gives one Stopped analyzer per program name, registered under that name and holding only rules that were loaded |
| EngineSpec.LoadedKeys | HealthAndAuditShared/AnalyzerEngine.cs:310-326 | loading keeps every registered name, adds only the rules' program names, and on success every rule's program has an analyzer |
| EngineSpec.LoadRuleKeepsInv | HealthAndAuditShared/AnalyzerEngine.cs:314-326 | GetOrCreateAnalyzer plus AddOrReplaceRule for one rule keeps the registry invariant and adds at most the rule's program name |
| EngineSpec.StartAllKeepsInv | HealthAndAuditShared/AnalyzerEngine.cs:79-82 | starting every analyzer keeps the registry invariant and leaves each one Running with a thread |
| EngineSpec.StartEngineOutcome | HealthAndAuditShared/AnalyzerEngine.cs:64-84 | on success the registry holds exactly the rules' program names, every analyzer and the engine are Running and the main queue is untouched; when loading throws nothing is started |
| EngineSpec.StartEngineInv | HealthAndAuditShared/AnalyzerEngine.cs:64-84 | StartEngine keeps the engine invariant whether or not the rules load |
| EngineSpec.LoadedRulesKeepTheirObservers | HealthAndAuditShared/AnalyzerEngine.cs:341-349 | the ProgramAnalyzer constructor sees an empty rule map, so every TimeBetweenOperations rule loaded later keeps the (empty) observer list it came with |
| EngineSpec.Dispatch | HealthAndAuditShared/AnalyzerEngine.cs:204-259 | an empty queue changes nothing; otherwise the head is consumed, and the call fails exactly for an event without an application name, which then changes nothing |
| EngineSpec.DispatchKnownApplication | HealthAndAuditShared/AnalyzerEngine.cs:208-235 | with a registered application the event joins that analyzer's queue, a Stopped analyzer is restarted first, and no other registry entry changes |
| EngineSpec.DispatchNewApplication | HealthAndAuditShared/AnalyzerEngine.cs:237-248 | with an unknown application a blank analyzer named after it is registered, Running, holding just this event; no other entry changes |
| EngineSpec.DispatchKeepsInv | HealthAndAuditShared/AnalyzerEngine.cs:204-259 | dispatch keeps the registry invariant: unique names, each analyzer named by its key |
| EngineSpec.EngineCrashStopsEngine | HealthAndAuditShared/AnalyzerEngine.cs:189-196 | an exception in the engine thread stops the engine, ends the thread and raises one Medium alarm; the event is lost |
| EngineSpec.EngineThreadEndsOnEmptyQueue | HealthAndAuditShared/AnalyzerEngine.cs:173-187 | once the engine leaves Running its thread drains the main queue and only then stops every analyzer; it ends with events left only by crashing |
| EngineSpec.EngineThreadStepKeepsInv | HealthAndAuditShared/AnalyzerEngine.cs:167-197 | every engine-thread step keeps the engine invariant |
| EngineSpec.AnalyzerThreadStepKeepsInv | HealthAndAuditShared/AnalyzerEngine.cs:381-411 | every analyzer-thread step keeps the engine invariant |
| EngineSpec.AddToMainQueueOutcome | HealthAndAuditShared/AnalyzerEngine.cs:145-159 | AddToMainQueue throws exactly when the engine is not Running and changes nothing then; otherwise every event is appended in list order |
| EngineSpec.ShutdownStepOutcome | HealthAndAuditShared/AnalyzerEngine.cs:95-103 | the StopEngine task ends Stopped, with "Shutdown complete.", exactly when every analyzer is Stopped or 30 s have passed; each round logs one message |
| EngineSpec.GetInfoForAnalyzer | HealthAndAuditShared/AnalyzerEngine.cs:300-308 | a null name throws; an unknown name gives the blank info |
| EngineSpec.GetRulesLoadedInAnalyzer | HealthAndAuditShared/AnalyzerEngine.cs:281-289 | a null name throws; an unknown name gives the empty list |
| EngineSpec.InfoAgreesWithList | HealthAndAuditShared/AnalyzerEngine.cs:281-308 | for a registered analyzer GetInfoForAnalyzer agrees with its row in GetCurrentAnalyzersInfo, and GetRulesLoadedInAnalyzer lists its rule names |
| AnalyzerEngine.AlarmMessageManager.constructor | HealthAndAuditShared/AlarmMessageManager.cs:49-52 | the alarm queue, modelled as the log of raised alarms, starts empty |
| AnalyzerEngine.AlarmMessageManager.RaiseAlarm | HealthAndAuditShared/AlarmMessageManager.cs:53-56 | a raised alarm is appended to the log |
| AnalyzerEngine.ProgramAnalyzer.constructor | HealthAndAuditShared/AnalyzerEngine.cs:341-367 | a new analyzer is Stopped, has no name, no rules and no events |
| AnalyzerEngine.ProgramAnalyzer.AddEvent | HealthAndAuditShared/AnalyzerEngine.cs:368-371 | the new state is the specification's AddEvent |
| AnalyzerEngine.ProgramAnalyzer.StopAnalyzer | HealthAndAuditShared/AnalyzerEngine.cs:373-376 | the new state is the specification's StopAnalyzer |
| AnalyzerEngine.ProgramAnalyzer.StartAnalyzer | HealthAndAuditShared/AnalyzerEngine.cs:378-385 | the new state is the specification's StartAnalyzer |
| AnalyzerEngine.ProgramAnalyzer.AddOrReplaceRule | HealthAndAuditShared/AnalyzerEngine.cs:441-452 | the new state and exception are the specification's AddOrReplaceRule |
| AnalyzerEngine.ProgramAnalyzer.UnloadAllRules | HealthAndAuditShared/AnalyzerEngine.cs:454-457 | the new state is the specification's UnloadAllRules |
| AnalyzerEngine.ProgramAnalyzer.RuleTriggeredByTimeout | HealthAndAuditShared/AnalyzerEngine.cs:459-467 | one alarm with the rule's level, program and "Rule {name} triggered. Message: {message}" is raised |
| AnalyzerEngine.ProgramAnalyzer.RunRules | HealthAndAuditShared/AnalyzerEngine.cs:422-432 | the rules, the alarms raised and the exception are those of EvaluateRules |
| AnalyzerEngine.ProgramAnalyzer.Step | HealthAndAuditShared/AnalyzerEngine.cs:386-438 | one thread iteration: the new state and alarms are those of AnalyzerStep |
| AnalyzerEngine.Engine.constructor | HealthAndAuditShared/AnalyzerEngine.cs:38-130 | the engine starts Stopped with no thread, no analyzers, no events and no messages |
| AnalyzerEngine.Engine.EngineIsRunning | HealthAndAuditShared/AnalyzerEngine.cs:120 | true exactly when the state is Running |
| AnalyzerEngine.Engine.AddRule | HealthAndAuditShared/AnalyzerEngine.cs:314-326 | one iteration of AddRulesToAnalyzer, as the specification's LoadRule |
| AnalyzerEngine.Engine.AddRulesToAnalyzer | HealthAndAuditShared/AnalyzerEngine.cs:310-317 | the registry, messages and exception are the specification's AddRulesToAnalyzer |
| AnalyzerEngine.Engine.StartAnalyzers | HealthAndAuditShared/AnalyzerEngine.cs:79-82 | every analyzer is started, in the model's registry order (first added first) |
| AnalyzerEngine.Engine.LoadRules | HealthAndAuditShared/AnalyzerEngine.cs:69-78 | the registry is cleared and the rules are loaded, or "Starting with no rules." is logged |
| AnalyzerEngine.Engine.StartEngine | HealthAndAuditShared/AnalyzerEngine.cs:64-84 | the new state and exception are the specification's StartEngine, and the engine invariant holds |
| AnalyzerEngine.Engine.StartRunning | HealthAndAuditShared/AnalyzerEngine.cs:79-83 | the analyzers are started, the engine is Running in its main loop (lines 171-172) and "Main engine thread started." is logged |
| AnalyzerEngine.Engine.StopEngine | HealthAndAuditShared/AnalyzerEngine.cs:88-94 | the engine is ShuttingDown, the wait begins and its two messages are logged |
| AnalyzerEngine.Engine.ShutdownStep | HealthAndAuditShared/AnalyzerEngine.cs:97-103 | one round of the wait, as the specification's ShutdownStep |
| AnalyzerEngine.Engine.AddToMainQueue | HealthAndAuditShared/AnalyzerEngine.cs:145-159 | the new state and exception are the specification's AddToMainQueue |
| AnalyzerEngine.Engine.MainLoop | HealthAndAuditShared/AnalyzerEngine.cs:204-259 | the queue, registry, messages and exception are those of Dispatch |
| AnalyzerEngine.Engine.ToKnownAnalyzer | HealthAndAuditShared/AnalyzerEngine.cs:226-235 | the known-application branch of Dispatch |
| AnalyzerEngine.Engine.ToBlankAnalyzer | HealthAndAuditShared/AnalyzerEngine.cs:239-248 | the unknown-application branch of Dispatch |
| AnalyzerEngine.Engine.StopAnalyzers | HealthAndAuditShared/AnalyzerEngine.cs:183-187 | every analyzer is stopped, and "Stopping analyzer for {name}" is logged for each, in the model's registry order (first added first) |
| AnalyzerEngine.Engine.EngineStep | HealthAndAuditShared/AnalyzerEngine.cs:167-197 | one iteration of the engine thread, as EngineThreadStep, keeping the engine invariant |
| AnalyzerEngine.Engine.StartDraining | HealthAndAuditShared/AnalyzerEngine.cs:177 | the drain phase begins and the queue length is logged |
| AnalyzerEngine.Engine.ShutDownAnalyzers | HealthAndAuditShared/AnalyzerEngine.cs:182-187 | the drained engine stops every analyzer and ends its thread |
| AnalyzerEngine.Engine.RunMainLoop | HealthAndAuditShared/AnalyzerEngine.cs:175-196 | one MainLoop call inside the thread's try block, with the Medium alarm of its handler |
| AnalyzerEngine.Engine.AnalyzerStep | HealthAndAuditShared/AnalyzerEngine.cs:381-411 | one iteration of a registered analyzer's thread, keeping the engine invariant |
| AnalyzerEngine.Engine.GetRulesLoadedInAnalyzer | HealthAndAuditShared/AnalyzerEngine.cs:281-289 | a null name throws ArgumentNullException, an unknown name gives no rules, and in a well-formed engine a registered analyzer gives the names of its rules |
| AnalyzerEngine.Engine.GetInfoForAnalyzer | HealthAndAuditShared/AnalyzerEngine.cs:300-308 | a null name throws ArgumentNullException, an unknown name gives the blank info, and in a well-formed engine a registered analyzer gives its own GetCurrentAnalyzersInfo row |
| AnalyzerEngine.Engine.GetCurrentAnalyzersInfo | HealthAndAuditShared/AnalyzerEngine.cs:290-298 | one info per registered analyzer, in the model's registry order (first added first), with its key, state, queue length and rule count |
| QuickAnalyserEngine.RuleSetAddedOutcome | HealthAndAuditShared/QuickAnalyserEngine.cs:224-235 | a blank program name adopts the ruleset's application name; the call throws iff the names then differ or the ruleset has no name; otherwise it upserts by RuleName and keeps every other ruleset |
| QuickAnalyserEngine.RuleSetForOwnAnalyser | HealthAndAuditShared/QuickAnalyserEngine.cs:224-235 | a ruleset given to the analyser registered under its own application (or to a new one) is refused only for a null rule name |
| QuickAnalyserEngine.VisitWithoutError | HealthAndAuditShared/QuickAnalyserEngine.cs:198-210 | a visit without an exception leaves each ruleset as after the event on its own and raises exactly the alarms of the applicable rulesets that trigger, in order |
| QuickAnalyserEngine.VisitErrorIffFailure | HealthAndAuditShared/QuickAnalyserEngine.cs:200-210 | the visit throws exactly when some ruleset it reaches fails on the event |
| QuickAnalyserEngine.NoCaughtExceptionNoAlarm | HealthAndAuditShared/QuickAnalyserEngine.cs:202-205 | an event without a caught exception never leads to a ruleset alarm, since building it dereferences the null exception |
| QuickAnalyserEngine.AnalyserStepOutcome | HealthAndAuditShared/QuickAnalyserEngine.cs:192-219 | one task iteration: an empty queue changes nothing; otherwise the head is consumed, and AnalyserIsRunning is cleared, one task ends and a Medium alarm comes last exactly when a ruleset fails |
| QuickAnalyserEngine.LoadFromOutcome | HealthAndAuditShared/QuickAnalyserEngine.cs:41-47 | StartEngine's loop keeps the registry named, throws only the ArgumentNullException of a null name, and without it leaves one running analyser per application with one task per ruleset |
| QuickAnalyserEngine.StartEngineOutcome | HealthAndAuditShared/QuickAnalyserEngine.cs:31-50 | from a cleared registry: one running analyser per application named by the rulesets, started once per ruleset rather than once per analyser |
| QuickAnalyserEngine.DispatchOutcome | HealthAndAuditShared/QuickAnalyserEngine.cs:108-153 | the event's analyser is running and holds the event last; it gets one more task exactly when it was not running; an unknown application gets a blank analyser with one task; no other analyser changes |
| QuickAnalyserEngine.RunningFlagOnlyClearedByCrash | HealthAndAuditShared/QuickAnalyserEngine.cs:103-216 | loading and dispatch never clear AnalyserIsRunning: only the exception handler does |
| QuickAnalyserEngine.ProgramAnalyser.constructor | HealthAndAuditShared/QuickAnalyserEngine.cs:174-182 | a new analyser has no name, is not running, and holds no rulesets and no events |
| QuickAnalyserEngine.ProgramAnalyser.AddEvent | HealthAndAuditShared/QuickAnalyserEngine.cs:183-186 | the event joins the back of the queue |
| QuickAnalyserEngine.ProgramAnalyser.StartAnalyserTask | HealthAndAuditShared/QuickAnalyserEngine.cs:188-194 | one more task runs and AnalyserIsRunning is set |
| QuickAnalyserEngine.ProgramAnalyser.AddOrReplaceRuleSet | HealthAndAuditShared/QuickAnalyserEngine.cs:224-235 | the new state and exception are RuleSetAdded's |
| QuickAnalyserEngine.ProgramAnalyser.RunRuleSets | HealthAndAuditShared/QuickAnalyserEngine.cs:200-210 | the rulesets, alarms and exception are those of the visit |
| QuickAnalyserEngine.ProgramAnalyser.TaskStep | HealthAndAuditShared/QuickAnalyserEngine.cs:195-219 | one task iteration, as AnalyserStepped |
| QuickAnalyserEngine.AnalyserEngine.constructor | HealthAndAuditShared/QuickAnalyserEngine.cs:57-75 | no messages, not running, no tasks, no events and no analysers |
| QuickAnalyserEngine.AnalyserEngine.StartEngine | HealthAndAuditShared/QuickAnalyserEngine.cs:31-104 | the registry is cleared and reloaded; an exception ends the method, otherwise the engine task starts and sets EngineIsRunning; the main queue is kept |
| QuickAnalyserEngine.AnalyserEngine.LoadRules | HealthAndAuditShared/QuickAnalyserEngine.cs:41-47 | the loop over the rulesets, stopping at the first exception |
| QuickAnalyserEngine.AnalyserEngine.LoadRuleSetInto | HealthAndAuditShared/QuickAnalyserEngine.cs:43-46 | GetOrAdd, AddOrReplaceRuleSet, StartAnalyserTask and the message, for one ruleset |
| QuickAnalyserEngine.AnalyserEngine.AddToMainQueue | HealthAndAuditShared/QuickAnalyserEngine.cs:81-91 | every event is appended in list order, with no running-state check |
| QuickAnalyserEngine.AnalyserEngine.EngineStep | HealthAndAuditShared/QuickAnalyserEngine.cs:105-163 | an empty queue changes nothing; otherwise the head is dispatched, and an exception clears EngineIsRunning, ends the engine loop and raises a Medium alarm |
| QuickAnalyserEngine.AnalyserEngine.DispatchEvent | HealthAndAuditShared/QuickAnalyserEngine.cs:110-153 | the analysers, messages and exception are those of Dispatch |
| QuickAnalyserEngine.AnalyserEngine.AnalyserStep | HealthAndAuditShared/QuickAnalyserEngine.cs:195-219 | one task iteration of the analyser registered under the name |
| QuickAnalyserEngine.AnalyserEngine.RuleSetTimeout | HealthAndAuditShared/AnalyseRuleset.cs:250-254 | the Elapsed event of a loaded ruleset's running timer: that ruleset in the named analyser becomes Timeout's and its observers are returned as notified; nothing else changes |
| QuickAnalyserEngine.TimedOutRuleSetAlarms | HealthAndAuditShared/AnalyseRuleset.cs:172-192 | after a timeout inside the engine only the timed-out ruleset has changed, and on the next event it applies to it triggers, so the analyser's alarm for it carries the timeout message |
| QuickAnalyserEngine.TimeoutKeepsRegistry | HealthAndAuditShared/AnalyseRuleset.cs:250-254 | a ruleset timeout keeps every analyser registered under its own program name |
| MessageAggregator.Increment | HealthAndAuditShared/MessageAggregator.cs:28-52 | the counter is a 32-bit unsigned integer, so one increment adds one modulo 2^32 |
| MessageAggregator.Bumped | HealthAndAuditShared/MessageAggregator.cs:23-46 | the entry AddMessage leaves under the identifier: for a new identifier counter 1, first and last occurrence the message's time stamp, and the message; for a known one the stored message is kept, the counter goes up by one and the time stamps widen to include the new one |
| MessageAggregator.AddedEntry | HealthAndAuditShared/MessageAggregator.cs:23-46 | one addition changes the entry under its own identifier and no other |
| MessageAggregator.AddedKeys | HealthAndAuditShared/MessageAggregator.cs:38-45 | a new identifier is enumerated after all the others; a known one keeps its place and adds no key |
| MessageAggregator.AddedKeepsOrdered | HealthAndAuditShared/MessageAggregator.cs:29-36 | an addition keeps FirstOccurrence <= LastOccurrence in every entry |
| MessageAggregator.ReplayEntry | HealthAndAuditShared/MessageAggregator.cs:23-46 | after any sequence of additions there is an entry for exactly the identifiers added; its counter is the number of additions under it modulo 2^32, its time stamps the least and the greatest added under it, and its message the first one added under it |
| MessageAggregator.ReplayOrdered | HealthAndAuditShared/MessageAggregator.cs:29-36 | after any additions every entry's first occurrence is at most its last |
| MessageAggregator.ReplaySize | HealthAndAuditShared/MessageAggregator.cs:38-45 | the collection never has more entries than there were additions |
| MessageAggregator.MessageAggregator.constructor | HealthAndAuditShared/MessageAggregator.cs:21 | a new aggregator has an empty collection |
| MessageAggregator.MessageAggregator.AddMessage | HealthAndAuditShared/MessageAggregator.cs:23-46 | the collection becomes the one-step addition of the message under its identifier, and the addition is recorded in the history that ReplayEntry summarises |
| MessageAggregator.MessageAggregator.Clear | HealthAndAuditShared/MessageAggregator.cs:21 | clearing the collection leaves it (and its history) empty |
| MessageAggregator.Drained | QuickAnalyzer/Program.cs:78-85 | a drain of at most `limit` dequeue attempts takes min(limit, queue length) messages: fewer than `limit` only when the queue runs dry |
| MessageAggregator.Drain | QuickAnalyzer/Program.cs:77-85 | the loop takes exactly the first Drained messages off the queue, leaves the rest, and adds each taken message to a new aggregator under its own text |
| MessageAggregator.DrainSummary | QuickAnalyzer/Program.cs:77-89 | a drain's aggregator has at most `limit` entries, one per distinct text drained, counting its copies with their least and greatest time stamps and holding the text itself as its message |
| MessageAggregator.FirstMessageIsText | HealthAndAuditShared/MessageAggregator.cs:42 | a drained message is stored under an identifier derived from its own text, so the stored message is that text |
| MessageAggregator.TrackerLines | QuickAnalyzer/Program.cs:86-89 | one line per entry, in the collection's enumeration order, each made of the message, the counter and the two occurrences |
| MessageAggregator.WriteTrackers | AnalyzerEngineConsole/Program.cs:296-299 | the loop over the collection produces exactly TrackerLines |
| AlarmSender.GetOrNew | AlarmSender/Functions.cs:76-82 | GetOrAdd returns the origin's control when it exists and a new control stamped now otherwise |
| AlarmSender.MessageIdExact | AlarmSender/Functions.cs:79 | for the three named levels two alarms get the same identifier exactly when they have the same level and the same text, whatever their other fields |
| AlarmSender.FirstFromOriginDelivered | AlarmSender/Functions.cs:45-53 | the first alarm from an unknown origin is sent on, and the origin's control starts with an empty buffer and the time of that alarm |
| AlarmSender.FloodWindow | AlarmSender/Functions.cs:59-96 | after an alarm from an origin is sent at t1, the next one from that origin at t2 >= t1 is sent exactly when t2 > t1 + one minute; otherwise it is buffered under its identifier and the last-sent time stays t1 |
| AlarmSender.BufferCoalesces | AlarmSender/Functions.cs:76-82 | two buffered alarms from one origin with the same identifier leave one entry: the first alarm, counted twice, spanning both time stamps |
| AlarmSender.Flushed | AlarmSender/Functions.cs:106-111 | one pass of the loop keeps the origins in the model's first-added order and changes each control by FlushControl |
| AlarmSender.LookupFlushed | AlarmSender/Functions.cs:106-111 | after a pass the known origins are the same and each one's control is its FlushControl |
| AlarmSender.FlushLeavesAllFlooding | AlarmSender/Functions.cs:106-111 | after a pass at now every known origin is flooding at now, so while the loop runs the next alarm from any of them is buffered |
| AlarmSender.ElapsedSent | AlarmSender/Functions.cs:106-111 | the whole buffer of an origin whose minute has passed is sent, as one contiguous run of deliveries, in a pass |
| AlarmSender.DownAlarm | AlarmSender/Functions.cs:114-118 | the catch block's alarm is High, comes from "Alarm FloodControl" and carries the exception's message |
| AlarmSender.FloodControl.constructor | AlarmSender/Functions.cs:61-68 | a new flood control has no origins, keeps its channel holder, and is running exactly when started on construction |
| AlarmSender.FloodControl.StartFloodControl | AlarmSender/Functions.cs:97-104 | starting sets IsRunning |
| AlarmSender.FloodControl.IsOriginFlooding | AlarmSender/Functions.cs:83-91 | a null origin raises ArgumentNull; otherwise flooding holds exactly when the origin is known and now is at most one minute after its last-sent time |
| AlarmSender.FloodControl.AddMessage | AlarmSender/Functions.cs:76-82 | a null origin raises ArgumentNull and changes nothing; otherwise the alarm is buffered in its origin's aggregator under its identifier |
| AlarmSender.FloodControl.SetLastMessageFromOrigin | AlarmSender/Functions.cs:92-96 | a null origin raises ArgumentNull and changes nothing; otherwise the origin's last-sent time becomes now and its buffer is kept |
| AlarmSender.FloodControl.FlushStep | AlarmSender/Functions.cs:106-111 | one pass leaves the controls Flushed and appends exactly FlushDeliveries to what the channels sent |
| AlarmSender.FloodControl.FlushEntry | AlarmSender/Functions.cs:107-110 | the loop body for the origin at index i flushes that origin only and appends its deliveries |
| AlarmSender.FloodControl.FloodControlDown | AlarmSender/Functions.cs:114-118 | an exception in the loop stops it and sends DownAlarm through the channels |
| AlarmSender.Functions.constructor | AlarmSender/Functions.cs:24-25 | before set-up both statics are null |
| AlarmSender.Functions.Setup | AlarmSender/Program.cs:28-30 | set-up registers one Slack channel for High alarms and starts flood control over that holder with no origins |
| AlarmSender.Functions.ProcessQueueMessage | AlarmSender/Functions.cs:28-54 | a missing flood control or channel holder raises NullReference with its text; otherwise flood control is running afterwards and the alarm is buffered (flooding) or sent through every matching channel, while the origin's time is set (not flooding), as Process says |
| AlarmSender.Functions.Handle | AlarmSender/Functions.cs:39-53 | once both statics are set: restart flood control if it is down, then buffer or send as Process says; errors from a null origin change nothing |
| AlarmChannelsHolder.DeliveriesExact | HealthAndAuditShared/AlarmChannelsHolder.cs:33-40 | SendAlarm hands the very message to channel c exactly as many times as (message level, c) is registered; the level must be equal, not merely as severe |
| AlarmChannelsHolder.NoRegistrationNoDelivery | HealthAndAuditShared/AlarmChannelsHolder.cs:35 | an alarm whose level nobody registered for is delivered nowhere |
| AlarmChannelsHolder.FloodForExact | HealthAndAuditShared/AlarmChannelsHolder.cs:46-50 | an aggregated entry goes to channel c once per registration of (its stored message's level, c), and to nothing else |
| AlarmChannelsHolder.FloodForLength | HealthAndAuditShared/AlarmChannelsHolder.cs:46-50 | the number of calls for one entry is the number of registrations of its level |
| AlarmChannelsHolder.FloodDeliveriesCount | HealthAndAuditShared/AlarmChannelsHolder.cs:42-52 | the aggregated overload makes one call per (entry, matching registration) pair, so none for an empty aggregator |
| AlarmChannelsHolder.AlarmChannelHolder.constructor | HealthAndAuditShared/AlarmChannelsHolder.cs:19 | a new holder has no registrations |
| AlarmChannelsHolder.AlarmChannelHolder.AddChannel | HealthAndAuditShared/AlarmChannelsHolder.cs:26-32 | a registration is added even when the same one exists already |
| AlarmChannelsHolder.AlarmChannelHolder.SendAlarm | HealthAndAuditShared/AlarmChannelsHolder.cs:33-40 | the deliveries made are exactly one per registration of the message's level |
| AlarmChannelsHolder.AlarmChannelHolder.SendAggregatedAlarms | HealthAndAuditShared/AlarmChannelsHolder.cs:42-52 | each entry in turn, in enumeration order, goes to the channels of its stored message's level |
| AlarmChannelsHolder.AlarmChannelHolder.SendAggregatedEntry | HealthAndAuditShared/AlarmChannelsHolder.cs:46-50 | the inner loop for one entry makes exactly FloodFor's deliveries |
| SlackClient.GetAlarmColour | HealthAndAuditShared/AlarmChannels/SlackClient.cs:70-83 | a colour for exactly High, Medium and Low, ArgumentOutOfRange for any other level |
| SlackClient.ColoursDistinct | HealthAndAuditShared/AlarmChannels/SlackClient.cs:74-79 | distinct levels get distinct colours |
| SlackClient.AlarmPayloadShape | HealthAndAuditShared/AlarmChannels/SlackClient.cs:85-116 | an unnamed level fails; otherwise one attachment under the origin's name, titled with the text, with the raised-by line as fallback and pretext, a StorageID field exactly when the alarm has one and a Caught Exception field exactly when it has an exception text, in that order, both short |
| SlackClient.AggregatedPayloadShape | HealthAndAuditShared/AlarmChannels/SlackClient.cs:118-143 | it fails exactly when the stored level has no colour; otherwise one attachment under the origin's name announcing the flood, titled with the stored text, with exactly three fields: the count (no value, not short), then the first and the last occurrence (short) |
| SlackClient.TextPayload | HealthAndAuditShared/AlarmChannels/SlackClient.cs:36-46 | the simple-string form posts the text, user name and channel it is given and no attachment |
| ExternalInterface.PartitionKeyFor | SystemHealthExternalInterface/SystemEvent.cs:34-41 | the PartitionKey is the application name, or "Unkown application" when that is blank; never blank |
| ExternalInterface.EncodeKeys | SystemHealthExternalInterface/SystemEvent.cs:51-58 | an ID built from two keys without ';' decodes back to exactly those keys |
| ExternalInterface.DecodeIDToPartitionAndRowKey | SystemHealthExternalInterface/SystemEvent.cs:60-66 | a decoded key pair never contains the separator |
| ExternalInterface.DecodeOfEncoded | SystemHealthExternalInterface/SystemEvent.cs:60-66 | decoding the Base64 of the UTF-8 of a text gives the first two ';'-pieces of that text |
| ExternalInterface.DecodeWithoutSeparatorFails | SystemHealthExternalInterface/SystemEvent.cs:64-65 | an ID whose text has no ';' fails with IndexOutOfRange on the second piece |
| ExternalInterface.DecodeDropsExtraPieces | SystemHealthExternalInterface/SystemEvent.cs:64-65 | pieces after the second are dropped |
| ExternalInterface.SystemEvent.constructor | SystemHealthExternalInterface/SystemEvent.cs:29-35 | a new event is Neutral, of the running application, with a fresh Guid RowKey (no ';') and the PartitionKey PartitionKeyFor gives |
| ExternalInterface.SystemEvent.WithResult | SystemHealthExternalInterface/SystemEvent.cs:36-42 | the same with the given result |
| ExternalInterface.SystemEvent.ID | SystemHealthExternalInterface/SystemEvent.cs:51-58 | the ID of an event decodes back to its two keys whenever neither holds a ';' |
| ExternalInterfaceNetStandard.SanitiseAt | SystemHealthExternalInterfaceNetStandard/SystemEvent.cs:93 | the four Replace calls keep the length and turn each of '\\', '/', '#' and '?' into '_', leaving every other character |
| ExternalInterfaceNetStandard.GeneratePartitionKey | SystemHealthExternalInterfaceNetStandard/SystemEvent.cs:91-94 | "Unkown application" for a blank name, otherwise the name character by character with the forbidden ones replaced by '_' |
| ExternalInterfaceNetStandard.PartitionKeyIsClean | SystemHealthExternalInterfaceNetStandard/SystemEvent.cs:91-94 | a generated key is never blank and holds none of the forbidden characters |
| ExternalInterfaceNetStandard.SanitiseKeepsClean | SystemHealthExternalInterfaceNetStandard/SystemEvent.cs:93 | a name without forbidden characters is left as it is |
| ExternalInterfaceNetStandard.PartitionKeyIdempotent | SystemHealthExternalInterfaceNetStandard/SystemEvent.cs:91-94 | generating a key from a generated key changes nothing |
| ExternalInterfaceNetStandard.EncodeKeys | SystemHealthExternalInterfaceNetStandard/SystemEvent.cs:52 | a base64url ID of two keys without ';' decodes back to exactly those keys |
| ExternalInterfaceNetStandard.DecodeIDToPartitionAndRowKey | SystemHealthExternalInterfaceNetStandard/SystemEvent.cs:54-59 | a decoded key pair never contains the separator |
| ExternalInterfaceNetStandard.DecodeRejectsLengthOne | SystemHealthExternalInterfaceNetStandard/SystemEvent.cs:56 | a one-character ID is refused by the base64url length check |
| ExternalInterfaceNetStandard.SystemEvent.constructor | SystemHealthExternalInterfaceNetStandard/SystemEvent.cs:29-35 | a new event is Neutral, with a fresh 36-character Guid RowKey and the generated PartitionKey |
| ExternalInterfaceNetStandard.SystemEvent.WithResult | SystemHealthExternalInterfaceNetStandard/SystemEvent.cs:36-42 | the same with the given result |
| ExternalInterfaceNetStandard.SystemEvent.ID | SystemHealthExternalInterfaceNetStandard/SystemEvent.cs:52-59 | the ID of an event decodes back to its two keys whenever neither holds a ';' |
| OperationResultEntity.EncodeKeys | HealthAndAuditShared/OperationResult.cs:39-54 | an ID of two keys without ';' decodes back to them, a null key coming back as "" |
| OperationResultEntity.DecodeIDToPartitionAndRowKey | HealthAndAuditShared/OperationResult.cs:48-54 | a decoded key pair never contains the separator |
| OperationResultEntity.OperationResult.constructor | HealthAndAuditShared/OperationResult.cs:24-57 | the parameterless constructor sets only the time stamp; Result is the enum default, Success |
| OperationResultEntity.OperationResult.WithResult | HealthAndAuditShared/OperationResult.cs:25-31 | the result, the running application, a fresh RowKey and a PartitionKey that is never blank |
| OperationResultEntity.OperationResult.ID | HealthAndAuditShared/OperationResult.cs:39-46 | the ID decodes back to the keys whenever neither holds a ';' |
| OperationResultEntity.UnsetKeysDecodeEmpty | HealthAndAuditShared/OperationResult.cs:39-54 | an entity with unset keys has the ID "Ow==", of ";", and it decodes to two empty keys, not to the unset ones |
| Codec.EncodeScalar | SystemHealthExternalInterface/SystemEvent.cs:55 | the UTF-8 form of one character has 1 to 4 bytes |
| Codec.DecodeOne | SystemHealthExternalInterface/SystemEvent.cs:63 | decoding consumes at least one and at most all of the bytes |
| Codec.DecodeEncodedScalar | SystemHealthExternalInterface/SystemEvent.cs:55-63 | decoding the UTF-8 form of a character gives it back and uses all its bytes |
| Codec.Utf8RoundTrip | SystemHealthExternalInterface/SystemEvent.cs:55-63 | decoding the UTF-8 form of a string gives the string back |
| Codec.Utf8EncodeAppend | SystemHealthExternalInterface/SystemEvent.cs:55 | the UTF-8 form of a concatenation is the concatenation of the forms |
| Codec.StdValueOfChar | SystemHealthExternalInterface/SystemEvent.cs:56-62 | the standard Base64 alphabet of RFC 4648 (Table 1) maps each 6-bit value to a character that maps back |
| Codec.EncodeBody | SystemHealthExternalInterface/SystemEvent.cs:56 | the unpadded encoding has 4 characters per 3 bytes and 2 or 3 for a final 1 or 2, all in the alphabet |
| Codec.Base64Encode | SystemHealthExternalInterface/SystemEvent.cs:56 | the padded encoding has a multiple of 4 characters |
| Codec.DecodeEncoded | SystemHealthExternalInterface/SystemEvent.cs:56-62 | decoding the groups of an encoding gives the bytes back |
| Codec.Base64RoundTrip | SystemHealthExternalInterface/SystemEvent.cs:56-62 | Convert.FromBase64String undoes Convert.ToBase64String |
| Codec.Base64Decode | SystemHealthExternalInterface/SystemEvent.cs:62 | Convert.FromBase64String first drops space, tab, carriage return and line feed; every failure is a FormatException; a success yields at most 3 bytes per 4 characters |
| Codec.WithoutWhiteSpaceAppend | SystemHealthExternalInterface/SystemEvent.cs:62 | dropping white space from a concatenation drops it from each part |
| Codec.Base64SkipsWhiteSpace | SystemHealthExternalInterface/SystemEvent.cs:62 | white space inserted at any position of an encoding, such as a line break, leaves the decoded bytes unchanged |
| Codec.UrlAlphabetInverse | SystemHealthExternalInterfaceNetStandard/SystemEvent.cs:52-56 | on the standard alphabet the base64url character translations undo each other |
| Codec.Base64UrlRoundTrip | SystemHealthExternalInterfaceNetStandard/SystemEvent.cs:52-56 | Base64UrlEncoder.Decode undoes Base64UrlEncoder.Encode |
| TableBatches.GetNewBatchName | HealthAndAuditShared/AzureTableEventStore.cs:86-99 | as written: with no alias it records and returns key + "X"; with alias A it records A + "X" but returns A itself |
| TableBatches.CorrectedBatchName | HealthAndAuditShared/AzureTableEventStore.cs:86-99 | as intended: the name returned is always the alias it records |
| TableBatches.SplitPartitions | HealthAndAuditShared/AzureTableEventStore.cs:37-64 | whenever the loop gets through the list, no batch holds more than 100 inserts and every event is in exactly one batch, each batch listing its events in arrival order |
| TableBatches.StepPartitions | HealthAndAuditShared/AzureTableEventStore.cs:41-63 | one iteration keeps the batches a partition of the events seen |
| TableBatches.NullKeyFails | HealthAndAuditShared/AzureTableEventStore.cs:42 | a null partition key anywhere in the list fails the loop |
| TableBatches.SplitErrStays | HealthAndAuditShared/AzureTableEventStore.cs:40-64 | once the loop has failed on a prefix it fails on the whole list with the same exception |
| TableBatches.SplitErrorKinds | HealthAndAuditShared/AzureTableEventStore.cs:42-61 | the loop fails only with the null-key or the duplicate-name exception |
| TableBatches.SingleKey | HealthAndAuditShared/AzureTableEventStore.cs:37-64 | n events with one key end in batches k, kX, kXX, ... of 100 each but the last: always with the corrected naming, up to 200 events as written |
| TableBatches.TwoHundredFirstFails | HealthAndAuditShared/AzureTableEventStore.cs:89-92 | as written, the 201st event with one partition key fails with the duplicate-key exception |
| TableBatches.SingleKeyNeverFails | HealthAndAuditShared/AzureTableEventStore.cs:86-99 | with the corrected naming any number of events with one partition key is split without failing |
| TableBatches.AliasSharesBatch | HealthAndAuditShared/AzureTableEventStore.cs:42-55 | aliases are not kept apart from real keys: after 101 events with key k, an event with key kX joins k's second batch |
| TableBatches.BuildBatches | HealthAndAuditShared/AzureTableEventStore.cs:37-64 | the batch-building loop computes Split for the naming it is given: GetNewBatchName as written, which the program uses, or as intended |
| TableBatches.PlaceEvent | HealthAndAuditShared/AzureTableEventStore.cs:42-63 | the loop body computes one Step for the given naming: the event joins its key's current batch, or a full batch is continued under a new name, and a taken name throws the duplicate-key ArgumentException |
| TableBatches.StoreEventsAsync | HealthAndAuditShared/AzureTableEventStore.cs:29-84 | for the given naming: "" when a caught exception (one of the two message filters or LeaseLostException) comes before the batches are built, "Running batches" once they are built whether or not executing them then throws a caught one, and any other exception escapes |
| TableBatches.TwoHundredFirstEscapes | HealthAndAuditShared/AzureTableEventStore.cs:29-92 | as written, StoreEventsAsync on 201 events with one key and a table service that throws nothing ends in the duplicate-key ArgumentException, which no catch filter takes |
| TableBatches.SplitErrorsEscape | HealthAndAuditShared/AzureTableEventStore.cs:71-82 | the loop's own exceptions are not among the caught ones, so they escape StoreEventsAsync |
| SnapshotExport.ExportedIsLatest | AnalyzerEngineConsole/StatusSnapshot.cs:96-108 | a queue within its capacity ends, after any number of enqueues, as the latest Capacity entries of the old queue followed by the new messages, so it stays within its capacity |
| SnapshotExport.LatestStep | AnalyzerEngineConsole/StatusSnapshot.cs:102-106 | keeping the latest n entries over one more message is one trim-then-enqueue further |
| SnapshotExport.OverflowMiscounted | AnalyzerEngineConsole/StatusSnapshot.cs:96-113 | as written, 21 messages popped into an empty queue are all kept, and yet one of them is reported as overflow |
| SnapshotExport.OverflowIsLost | AnalyzerEngineConsole/StatusSnapshot.cs:96-113 | with the trim as intended, the popped messages after the first `overflow` of them end the queue, and when there is overflow they are the whole queue: the overflow reported is exactly what was lost |
| SnapshotExport.Export | EngineControl/StatusSnapshot.cs:95-114 | the pop loop empties the stack newest first into the queue, trimmed before each enqueue once it holds Capacity(b) entries (21 as written, 20 as intended), and reports max(0, popped - 20) as overflow |
| SnapshotExport.Reverse | AnalyzerEngineConsole/StatusSnapshot.cs:100 | popping a stack yields its entries top first: the reverse of the push order |
| ConsoleStatusSnapshot.InfoAddedSpec | AnalyzerEngineConsole/StatusSnapshot.cs:54-57 | AddOrUpdate fails exactly on a null name; otherwise it replaces the info of the same name, touches no other and keeps the names unique |
| ConsoleStatusSnapshot.StatusSnapShotGenerator.constructor | AnalyzerEngineConsole/StatusSnapshot.cs:16-94 | both stacks and the export queue start empty, list 1 current, no infos, not running, last file time DateTime.MinValue |
| ConsoleStatusSnapshot.StatusSnapShotGenerator.Reset | AnalyzerEngineConsole/StatusSnapshot.cs:44-47 | Reset clears the analyzer infos and nothing else |
| ConsoleStatusSnapshot.StatusSnapShotGenerator.AddMessageToSnapShot | AnalyzerEngineConsole/StatusSnapshot.cs:49-52 | the stamped message goes on top of the current stack; the other stack is untouched |
| ConsoleStatusSnapshot.StatusSnapShotGenerator.AddAnalyzerInfoToSnapShot | AnalyzerEngineConsole/StatusSnapshot.cs:54-57 | the infos become InfoAdded's, or stay and the ArgumentNull comes back for a null name |
| ConsoleStatusSnapshot.StatusSnapShotGenerator.SwitchList | AnalyzerEngineConsole/StatusSnapshot.cs:89-92 | the two stacks trade roles |
| ConsoleStatusSnapshot.StatusSnapShotGenerator.GetListToExport | AnalyzerEngineConsole/StatusSnapshot.cs:96-115 | the not-current stack is emptied newest first into the export queue, trimmed as written (`Count > 20`, so it keeps up to 21 entries), and the queue is returned with the overflow count max(0, popped - 20); the current stack is untouched |
| ConsoleStatusSnapshot.StatusSnapShotGenerator.Stop | AnalyzerEngineConsole/StatusSnapshot.cs:117-120 | Stop clears ShallRun |
| ConsoleStatusSnapshot.StatusSnapShotGenerator.StartGenerator | AnalyzerEngineConsole/StatusSnapshot.cs:121-128 | while ShallRun nothing happens; otherwise it is set and one snapshot thread is started |
| ConsoleStatusSnapshot.StatusSnapShotGenerator.SnapshotStep | AnalyzerEngineConsole/StatusSnapshot.cs:135-155 | one pass switches the stacks, lists the infos, exports the messages of the stack that was current into the queue trimmed as written (up to 21 entries) with its overflow, and sets the last file time |
| EngineControlStatusSnapshot.StatusSnapshot.constructor | EngineControl/StatusSnapshot.cs:134-170 | a new snapshot has the generation time and empty lists |
| EngineControlStatusSnapshot.StatusSnapshot.Reset | EngineControl/StatusSnapshot.cs:171-175 | Reset empties both lists |
| EngineControlStatusSnapshot.StatusSnapShotGenerator.constructor | EngineControl/StatusSnapshot.cs:16-93 | both stacks and the export queue start empty, list 1 current, no infos, not running |
| EngineControlStatusSnapshot.StatusSnapShotGenerator.Reset | EngineControl/StatusSnapshot.cs:43-46 | Reset clears the analyzer infos and nothing else |
| EngineControlStatusSnapshot.StatusSnapShotGenerator.AddMessageToSnapShot | EngineControl/StatusSnapshot.cs:48-51 | the message goes on top of the current stack; the other stack is untouched |
| EngineControlStatusSnapshot.StatusSnapShotGenerator.AddAnalyzerInfoToSnapShot | EngineControl/StatusSnapshot.cs:53-56 | the infos become InfoAdded's, or stay and the ArgumentNull comes back for a null name |
| EngineControlStatusSnapshot.StatusSnapShotGenerator.SwitchList | EngineControl/StatusSnapshot.cs:88-91 | the two stacks trade roles |
| EngineControlStatusSnapshot.StatusSnapShotGenerator.GetListToExport | EngineControl/StatusSnapshot.cs:95-114 | the not-current stack is emptied newest first into the export queue, trimmed as written (`Count > 20`, so it keeps up to 21 entries), and the queue is returned with the overflow count max(0, popped - 20); the current stack is untouched |
| EngineControlStatusSnapshot.StatusSnapShotGenerator.StartGenerator | EngineControl/StatusSnapshot.cs:117-124 | idempotent while IsRunning; otherwise it sets the flag and exactly one snapshot task is started |
| EngineControlStatusSnapshot.StatusSnapShotGenerator.Run | EngineControl/StatusSnapshot.cs:125-162 | Run starts one task, and its closing call to StartGenerator finds the flag set and does nothing |
| EngineControlStatusSnapshot.StatusSnapShotGenerator.SnapshotStep | EngineControl/StatusSnapshot.cs:131-150 | one pass switches the stacks, lists the infos and exports the messages of the stack that was current, into the queue trimmed as written (up to 21 entries), with its overflow into a fresh snapshot |
| QuickAnalyzerProgram.RestartStepSpec | QuickAnalyzer/Program.cs:60-75 | a running engine is left alone; a stopped one is started, the alarm is raised exactly when the counter before the increment has reached 10, and the counter stays within [0, 10] |
| QuickAnalyzerProgram.StoppedTurnsCycle | QuickAnalyzer/Program.cs:60-75 | from a fresh counter, an engine found stopped on every turn raises the alarm on every eleventh start: after n turns the counter is n mod 11 and n div 11 alarms have been raised |
| QuickAnalyzerProgram.Events | QuickAnalyzer/Program.cs:114-115 | the engine receives the parsed events in the order they arrived |
| QuickAnalyzerProgram.PartitionKeys | QuickAnalyzer/Program.cs:120-125 | the batching loop sees each event's PartitionKey in arrival order |
| QuickAnalyzerProgram.QuickAnalyzer.constructor | QuickAnalyzer/Program.cs:51-60 | the host keeps its engine and alarm manager and starts with a zero restart counter |
| QuickAnalyzerProgram.QuickAnalyzer.ProcessEvents | QuickAnalyzer/Program.cs:112-145 | every event reaches the engine's main queue first, in order, and the list is then split into batches as TableBatches.Split says with GetNewBatchName as written, so 201 events with one key end in the escaping duplicate-key ArgumentException |
| QuickAnalyzerProgram.QuickAnalyzer.RestartCheck | QuickAnalyzer/Program.cs:60-96 | a running engine changes nothing; a stopped one is started, and the restart alarm and the counter follow RestartStep; an exception from StartEngine raises the main-loop alarm and ends the loop |
| QuickAnalyzerProgram.QuickAnalyzer.MessageTurn | QuickAnalyzer/Program.cs:77-89 | the first Drained(length, 500) engine messages are taken off the queue and the lines written are those of their aggregation |
| ConsoleProgram.NameInjective | AnalyzerEngineConsole/Program.cs:158-167 | distinct commands have distinct names |
| ConsoleProgram.NamedCommandSpec | AnalyzerEngineConsole/Program.cs:158-167 | a lower-case word names a command exactly when it is that command's name |
| ConsoleProgram.ValueOf | AnalyzerEngineConsole/Program.cs:172 | Enum.ToObject gives the command declared with a value from 0 to 6 and an undefined command carrying any other value |
| ConsoleProgram.TrimStartSpec | AnalyzerEngineConsole/Program.cs:172 | String.TrimStart drops the leading white space and nothing else |
| ConsoleProgram.TrimEndSpec | AnalyzerEngineConsole/Program.cs:172 | String.TrimEnd drops the trailing white space and nothing else |
| ConsoleProgram.TrimSpec | AnalyzerEngineConsole/Program.cs:172 | String.Trim keeps a middle part of the token and drops only the white space around it, up to a first and last character that are not white space |
| ConsoleProgram.TrimPadded | AnalyzerEngineConsole/Program.cs:172 | trimming a token padded with white space gives the token back |
| ConsoleProgram.ParseInt32 | AnalyzerEngineConsole/Program.cs:172 | the numeric path accepts only values that fit an int |
| ConsoleProgram.BitOr | AnalyzerEngineConsole/Program.cs:172 | the or of two values lies between the larger of them and their sum |
| ConsoleProgram.FindCommand | AnalyzerEngineConsole/Program.cs:172 | the name search finds a command with that name, or shows that no command has it |
| ConsoleProgram.OrValues | AnalyzerEngineConsole/Program.cs:172 | a comma-separated list of names is accepted exactly when every piece names a command |
| ConsoleProgram.PieceCommandsAt | AnalyzerEngineConsole/Program.cs:172 | each piece of the list, at every position, is trimmed and matched on its own |
| ConsoleProgram.ParseByName | AnalyzerEngineConsole/Program.cs:172 | a token without a comma whose trimmed text does not start with a digit or a sign is recognised exactly when the trimmed text spells a command's name, ignoring ASCII case, and is then that command; otherwise it is refused |
| ConsoleProgram.NameRoundTrip | AnalyzerEngineConsole/Program.cs:172 | every command's name, in any ASCII casing and with white space around it, parses back to that command |
| ConsoleProgram.NamesCombine | AnalyzerEngineConsole/Program.cs:172 | a list of two names, in any ASCII casing, parses as the or of their values, a declared command or an undefined value |
| ConsoleProgram.NumberRoundTrip | AnalyzerEngineConsole/Program.cs:172 | a numeral as int.ToString writes it, negative ones included, is read as its value: 0 to 6 give the commands in declaration order, other values in the range of int an undefined command, values outside it nothing |
| ConsoleProgram.PlusSignedNumber | AnalyzerEngineConsole/Program.cs:172 | a numeral with a leading plus sign is read as its value in the same way |
| ConsoleProgram.TrailingTabTrimmed | AnalyzerEngineConsole/Program.cs:172 | "exit" followed by a tab is the exit command |
| ConsoleProgram.SignedNumerals | AnalyzerEngineConsole/Program.cs:172 | "+2" is the exit command and "-1" the undefined value -1 |
| ConsoleProgram.HelpExitIsExit | AnalyzerEngineConsole/Program.cs:172 | "help,exit" is accepted and or's 0 and 2 into the exit command |
| ConsoleProgram.StateShowLoadedIsSeven | AnalyzerEngineConsole/Program.cs:172 | "state,showloadedanal" is accepted and or's 3 and 4 into the undefined value 7 |
| ConsoleProgram.EmptyPieceRefused | AnalyzerEngineConsole/Program.cs:172 | a list with an empty piece, such as "help,", is refused |
| ConsoleProgram.MinusOneAcknowledged | AnalyzerEngineConsole/Program.cs:169-238 | the first word "-1" is acknowledged as "Command -1 recieved." and nothing else is queued or done |
| ConsoleProgram.UnknownOrAcknowledged | AnalyzerEngineConsole/Program.cs:169-183 | an unrecognised first word is answered with "unknown command" and that word and does nothing; a recognised one is first acknowledged by its name |
| ConsoleProgram.ReplyOf | AnalyzerEngineConsole/Program.cs:181-238 | a recognised command's reply is the acknowledgement followed by its case's lines |
| ConsoleProgram.HelpListsEveryCommand | AnalyzerEngineConsole/Program.cs:186-193 | help answers with the heading and then every command's name once, in declaration order |
| ConsoleProgram.NamesDistinct | AnalyzerEngineConsole/Program.cs:189-192 | the help list has no repeated name |
| ConsoleProgram.AnalyzerCommandsNeedName | AnalyzerEngineConsole/Program.cs:202-216 | the two per-analyzer commands without a non-empty second word answer "missing analyzer name" and ask nothing of the engine; with one, reloadrulesforanal hands that name on |
| ConsoleProgram.ShowRulesListsRules | AnalyzerEngineConsole/Program.cs:211-220 | showrulesforanal on a registered analyzer answers with its rule names, each followed by a line break; on an unknown name with the empty text |
| ConsoleProgram.ShowRulesBody | AnalyzerEngineConsole/Program.cs:217-219 | the show-rules answer is the rule names the engine reports, joined |
| ConsoleProgram.RuleLinesRoundTrip | AnalyzerEngineConsole/Program.cs:218 | cutting the show-rules text at line feeds gives back the rules (each with the carriage return of the line break) |
| ConsoleProgram.RuleLinesFront | AnalyzerEngineConsole/Program.cs:218 | the left fold read from the front: the first rule, a line break, then the rest |
| ConsoleProgram.InfoLines | AnalyzerEngineConsole/Program.cs:226 | one line per analyzer info, made of its name, state, queue length and number of rules |
| ConsoleProgram.AnalyzerInfos | HealthAndAuditShared/AnalyzerEngine.cs:290-298 | GetCurrentAnalyzersInfo gives one entry per analyzer, in the model's registry order (first added first) |
| ConsoleProgram.StampedAt | AnalyzerEngineConsole/Program.cs:300-307 | every forwarded line is stamped with the time of the tick that forwards it |
| ConsoleProgram.RegisteredSpec | AnalyzerEngineConsole/Program.cs:332-339 | after the snapshot-update pass every registered analyzer's current info is in the snapshot under its name, a name the registry lacks keeps what it had, and names stay unique |
| ConsoleProgram.AnalyzerEngineProgram.constructor | AnalyzerEngineConsole/Program.cs:240-254 | the program keeps its engine and snapshot generator, starts the generator, queues nothing, and its state's start time is the construction time |
| ConsoleProgram.AnalyzerEngineProgram.InputCommand | AnalyzerEngineConsole/Program.cs:169-180 | a null line raises NullReference and changes nothing; any other line is split at spaces and queues exactly Reply, and carries out exactly its action |
| ConsoleProgram.AnalyzerEngineProgram.InputLine | AnalyzerEngineConsole/Program.cs:171-179 | the split line's reply is queued and its action carried out |
| ConsoleProgram.AnalyzerEngineProgram.HandleUnknown | AnalyzerEngineConsole/Program.cs:176-179 | an unparsed word queues one line naming it |
| ConsoleProgram.AnalyzerEngineProgram.HandleCommand | AnalyzerEngineConsole/Program.cs:181-238 | a parsed command is acknowledged, its answer queued and its action carried out, and nothing else that the commands touch changes |
| ConsoleProgram.AnalyzerEngineProgram.HandleHelp | AnalyzerEngineConsole/Program.cs:186-193 | help queues the heading and every command's name |
| ConsoleProgram.AnalyzerEngineProgram.AppendNames | AnalyzerEngineConsole/Program.cs:189-192 | the loop queues each name in turn |
| ConsoleProgram.AnalyzerEngineProgram.HandleExit | AnalyzerEngineConsole/Program.cs:194-201 | exit clears RunRestartLoop and Running, stops the engine, the receiver and the snapshot generator, and answers that the command was sent |
| ConsoleProgram.AnalyzerEngineProgram.HandleReload | AnalyzerEngineConsole/Program.cs:202-210 | the named analyzer's reload is requested of the engine, or "missing analyzer name" is answered |
| ConsoleProgram.AnalyzerEngineProgram.HandleShowRules | AnalyzerEngineConsole/Program.cs:211-220 | the analyzer's rule names are answered, or "missing analyzer name" |
| ConsoleProgram.AnalyzerEngineProgram.HandleState | AnalyzerEngineConsole/Program.cs:221-223 | state answers with the program state's text: one "Name: value" line per property, in declaration order |
| ConsoleProgram.AnalyzerEngineProgram.HandleShowLoaded | AnalyzerEngineConsole/Program.cs:224-227 | a line break, then one line per analyzer joined by line breaks |
| ConsoleProgram.AnalyzerEngineProgram.LoadedLine | AnalyzerEngineConsole/Program.cs:226 | the joined info lines of the engine's analyzers |
| ConsoleProgram.AnalyzerEngineProgram.HandleRestart | AnalyzerEngineConsole/Program.cs:228-236 | restart clears the snapshot's analyzer infos and stops the engine, and answers that the command was sent |
| ConsoleProgram.AnalyzerEngineProgram.HandleEngineStateChange | AnalyzerEngineConsole/Program.cs:317-320 | the engine state text becomes "AnalyzerEngine is: " and the state's name; nothing else of the state changes |
| ConsoleProgram.AnalyzerEngineProgram.HandleEventProcessorInfo | AnalyzerEngineConsole/Program.cs:322-330 | the event hub state becomes "Key: Value" and a line break per entry, in enumeration order |
| ConsoleProgram.AnalyzerEngineProgram.SnapshotUpdateStep | AnalyzerEngineConsole/Program.cs:258-339 | every registered analyzer's info replaces the one of its name in the snapshot, and the state records the snapshot generator's last file time |
| ConsoleProgram.AnalyzerEngineProgram.AddInfos | AnalyzerEngineConsole/Program.cs:335-338 | the loop adds each info in turn, giving Registered |
| ConsoleProgram.AnalyzerEngineProgram.MessageLoop | AnalyzerEngineConsole/Program.cs:280-309 | a tick while one is running changes nothing; otherwise up to 50 engine messages are aggregated into one queued line per text, then up to 140 queued lines move, in order and stamped with the tick's time, onto the snapshot's current stack |
| ConsoleProgram.AnalyzerEngineProgram.DrainMessages | AnalyzerEngineConsole/Program.cs:288-299 | the first Drained(length, 50) engine messages are taken off and their aggregation's lines returned |
| ConsoleProgram.AnalyzerEngineProgram.ForwardMessages | AnalyzerEngineConsole/Program.cs:300-307 | the first Drained(length, 140) queued lines move to the snapshot's current stack, stamped now, and the rest stay queued |
| ConsoleProgram.RestartInput.constructor | AnalyzerEngineConsole/Program.cs:80-88 | a new restart input has a zero counter and no tick running |
| ConsoleProgram.RestartInput.RestartLoop | AnalyzerEngineConsole/Program.cs:90-124 | nothing happens while the engine shuts down or a tick runs; a running engine is left alone; a stopped one is started from the rules, and after a successful start the counter follows RestartStep and, when it had reached 10, the restart text is queued for output and raised as a High alarm; an exception from the start escapes and leaves the tick flagged as running |
| ConsoleProgram.RestartInput.StartStopped | AnalyzerEngineConsole/Program.cs:102-113 | the start of a stopped engine and the restart counter's step |
| HelperMethods.FormatExceptionSpec | ControlCentre/HelperMethods.cs:26-47 | the text is "No exception." exactly for a null exception; any other is headed "<<< EXCEPTION >>>" followed by its own details |
| HelperMethods.InnerDepthOne | ControlCentre/HelperMethods.cs:26-47 | only the first level of inner exceptions is described |
| HelperMethods.FormatStackTracePlain | ControlCentre/HelperMethods.cs:53-56 | a trace with neither " at " nor " in " is passed through unchanged |
| HelperMethods.FormatFrame | ControlCentre/HelperMethods.cs:53-56 | a frame " at <method> in <location>" (a method name of three characters or more, no spaces in either part) becomes "<br><br>at <method><br>in <location>" |
| HelperMethods.FirstPass | ControlCentre/HelperMethods.cs:55 | the first Replace touches only the front of such a frame |
| HelperMethods.SecondPass | ControlCentre/HelperMethods.cs:55 | the second Replace breaks the line before the location and nowhere else |
| HelperMethods.DumpEntry | ControlCentre/HelperMethods.cs:88-114 | the recursive GetObjectDump computes EntryDump |
| HelperMethods.EntryDumpIsFlat | ControlCentre/HelperMethods.cs:88-114 | an object's dump is one line per node, in pre-order, each element one doubled indent deeper than its enumerable, and as many lines as nodes |
| HelperMethods.GetObjectDump | ControlCentre/HelperMethods.cs:67-79 | the public GetObjectDump computes ObjectDump over the dictionary in its enumeration order |
| HelperMethods.AppendEntries | ControlCentre/HelperMethods.cs:72-77 | the loop appends each entry's dump in turn |
| HelperMethods.ObjectDumpSpec | ControlCentre/HelperMethods.cs:67-79 | the dump is empty exactly for a null dictionary; otherwise it is the header followed by every entry's lines in turn |
| Text.Split | AnalyzerEngineConsole/Program.cs:171 | String.Split at one character gives at least one piece and no piece holds the separator |
| Text.SplitKeyPair | SystemHealthExternalInterface/SystemEvent.cs:64-65 | the first two ';'-pieces of a text, neither holding a ';'; IndexOutOfRange exactly when the text has no ';' |
| Text.KeyPairRoundTrip | SystemHealthExternalInterface/SystemEvent.cs:55-65 | two keys without ';' joined by ';' split back into themselves |
| Text.GuidText | SystemHealthExternalInterface/SystemEvent.cs:33 | a Guid's text has 36 characters and no ';' |

## Left out

- Network, storage and hosting: the event hub receivers and processors, the Service Bus alarm queue (AlarmMessageManager.RaiseAlarm appends to a log of raised alarms), DocumentDB rule storage, the SQL event store, the Azure table calls (`ExecuteBatchAsync`, the checkpoints), the Slack HTTP post and the e-mail channel. They are foreign calls; where the core reacts to one of their exceptions, the exception is a parameter.
- Concurrency: `Thread`, `Task.Run`, `Parallel.ForEach`, the thread pool of timers and the concurrent collections. A thread or task loop is one step method per iteration, and the environment chooses which one runs next. Races, and the order in which `Parallel.ForEach` runs an analyzer's rules, are not modelled (the rules' states are independent of one another).
- Waits and sleeps: the one-second sleeps of the host loops, the 2000 ms sleep of the engine's queue reader when its queue is empty, the 4000 ms sleep of the console's snapshot-update thread, the 20 ms sleep of the legacy TimeBetweenOperations, the 20-second "Awaiting engine start" loop of the console's RestartLoop and the snapshot intervals. A sleep is the gap between two step calls; StopEngine's 30-second wait is modelled on the `now` parameter.
- ReloadRulesForAnalyzer (HealthAndAuditShared/AnalyzerEngine.cs:261-279): a task that busy-waits, without bound, for the analyzer to stop; its parts (StopAnalyzer, UnloadAllRules, adding the rules, StartAnalyzer) are modelled, and the console records the names it hands on.
- Clocks, Guids and host names: `DateTime.UtcNow`, `Guid.NewGuid()` and `AppDomain.CurrentDomain.FriendlyName` are parameters; a DateTime's text is a `dateText` parameter.
- System.Timers.Timer: an armed flag plus an explicit timeout step that the environment may call while the flag is set; the interval's ArgumentException is modelled, the timer's own thread is not.
- An exception thrown from a timer callback (the console's RestartLoop when StartEngine throws) escapes to the timer; the model returns it and leaves the loop flagged as running, and what the runtime then does is not modelled.
- Floating point: FailurePercent's `(double)failures / total * 100 >= percent` is the integer comparison 100 · failures >= percent · total, so double rounding at exact ties (57 of 100 at 57 %) is not modelled.
- SHA-1: GenerateMessageIdentifierFromString (HealthAndAuditShared/MessageAggregator.cs:58-64) is taken as injective, so a message's text stands for its identifier; the flood-control identifier is its level and text joined, read the same way.
- Character encodings: a string is a sequence of Unicode scalar values, and its UTF-8 form is modelled in full; a .NET string is UTF-16 and may hold an unpaired surrogate, which Encoding.UTF8.GetBytes replaces by U+FFFD (EF BF BD), so such a key (PartitionKey "\uD800", say) cannot be expressed and the ID round trips are stated only for scalar-value strings. Lengths count characters, not UTF-16 code units: Base64UrlEncoder's length check counts code units, so a character outside the Basic Multilingual Plane counts 2 there and 1 here. String comparison is ordinal.
- Enumeration order of the concurrent dictionaries: `Analyzers` (HealthAndAuditShared/AnalyzerEngine.cs:130), `Rules` (HealthAndAuditShared/AnalyzerEngine.cs:365), `Analysers` (HealthAndAuditShared/QuickAnalyserEngine.cs:75), `RuleSets` (HealthAndAuditShared/QuickAnalyserEngine.cs:181) and `PerOriginAggregator` (AlarmSender/Functions.cs:75) are ConcurrentDictionary objects, which enumerate in an unspecified (bucket) order. The model keeps their entries in the order keys were first added, so the order of the "Stopping analyzer for …" lines, of the GetCurrentAnalyzersInfo rows, of the showloadedanal text and of the flood-control flush deliveries is the model's choice, not the program's.
- ConsoleProgram.ParseCommand: Enum.TryParse's ignore-case match folds ASCII letters only, so a non-ASCII letter whose upper case is an ASCII letter (such as the dotless ı) is not matched; Int32.Parse's tolerance of trailing NUL characters is not modelled; a token starting with a non-ASCII decimal digit is refused, as by the name search the code falls back to.
- Console, log and file output: `WriteLine`, FileLogger, the console's error logger, the snapshot JSON file and its folder checks, and the JSON serialisation of entities (`WriteEntity`, `ReadEntity`). The model returns or queues the lines that would be written.
- The console's GuiHandler loop, `Main` of every host, the EngineControl window and its own restart loop, the ControlCentre controllers and filter, Eventpump and Lekplats: user interface and hosting around the core.
- HelperMethods.GetRuleStorage: it only reads configuration.
- ScriptRule: it throws NotImplementedException and nothing constructs it.
- The rule storages and their mismatched interfaces (IRuleStorage returns legacy rulesets while AnalyzerEngine asks for current rules; the tests pass OperationResult to rules typed on SystemEvent): the engines take their rules as a parameter, and a rule sees an abstract event record (operation name, result, caught exception, tenant).
- HelperMethods.FormatException: its StringBuilder appends, which no loop repeats, are one concatenation rather than a method.
- HelperMethods.FormatFrame: stated for one frame whose method name has at least three characters and whose parts have no spaces; the chained Replace on arbitrary traces (" at at " gives "<br><br>at at ") has no simpler characterisation.
- AnalyseRuleset.TimeBetweenOperations: the legacy `retVal \|\| _timePass` (HealthAndAuditShared/AnalyseRuleset.cs:192) is `retVal`: when `_timePass` is true on entry, `retVal` starts out true and only the else branch runs; otherwise the branch taken leaves `_timePass` false, since Begin and End clear it and nothing else sets it without an interleaved timeout during the 20 ms sleep, which is not modelled.
- AnalyzeRule.TimeBetweenOperations.StartTimer: a start operation arriving while a rule's single-operation timer runs replaces `_timer` without stopping the old one (HealthAndAuditShared/AnalyzeRule.cs:186-217); that orphaned, repeating System.Timers.Timer goes on calling OnTimeout, whose StopTimer stops only the newest timer. The model keeps one armed flag per rule, so orphaned timers and their repeated timeouts are not modelled.
- AlarmChannelsHolder.AlarmChannelHolder: a channel's send is an append to a log of sent alarms and never throws. In the code an exception from a channel escapes ProcessQueueMessage before SetLastMessageFromOrigin (AlarmSender/Functions.cs:50-52), and ends a flood-control pass partway, through the catch that marks flood control as down (AlarmSender/Functions.cs:104-118).
- The channels of an AlarmChannelHolder are kept in the order they were added; a ConcurrentBag enumerates in no specified order (the most recently added first on one thread), so the order in which channels receive one alarm is fixed by the model.
- Null events: the current rules read `opResult.OperationName` without a null check, and the engine's queue reader reads `fromQ.AppInfo.ApplicationName` (HealthAndAuditShared/AnalyzerEngine.cs:208-251); the model's rules and engine take an event value that carries the application name directly, so the NullReferenceException of a null event or a null AppInfo is not modelled.
- SlackClient.AlarmPayloadShape, SlackClient.AggregatedPayloadShape: they state how the payload is built, field by field; the JSON serialisation that follows is not modelled, so there is no independent reading of the payload to check them against.
- AnalyseRuleset.TimeBetweenOperations.WithObserver: the observer passed to this legacy constructor is ignored, as the code ignores it.
- RuleTests: the long-flow tests (TestLongFlow in RuleTests/Amount.cs and RuleTests/Percent.cs) depend on measured sleeps across many calls and are not replayed; the other test sequences are.
- The static Timers list and EventHubName of the console host, and the test and fake observer classes: bookkeeping with no behaviour of its own.

## Findings

| source | as written | input that shows it | evidently intended | confidence | as-written member | corrected member |
|---|---|---|---|---|---|---|
| HealthAndAuditShared/AzureTableEventStore.cs:89-92 | when a key already has an alias, GetNewBatchName stores the alias with one more "X" but returns the alias it held before, so the third batch of a partition key gets the second batch's name and adding it throws an ArgumentException for a duplicate key (QuickAnalyzer/Program.cs:157-160 is the same code) | 201 events with one partition key: batches k and kX hold 100 each, and the 201st event asks for kX again | every overflow batch gets a fresh name, so any number of events with one key is split into batches of at most 100 | not executed | TableBatches.TwoHundredFirstFails | TableBatches.SingleKeyNeverFails |
| AnalyzerEngineConsole/StatusSnapshot.cs:102-113 | the export queue is trimmed only while it holds more than 20 entries, so it grows to 21, while the overflow reported is the number popped beyond 20 (EngineControl/StatusSnapshot.cs:101-112 is the same code) | 21 messages popped into an empty export queue | the queue keeps the latest 20, and the overflow count equals the number of messages dropped | not executed | SnapshotExport.OverflowMiscounted | SnapshotExport.OverflowIsLost |
