/**
 * The quick analyzer's host program: the event processor that hands each
 * received list of events to the engine and then splits it into table
 * batches, and one turn of the main loop, which restarts a stopped engine
 * under a restart counter and drains the engine's messages into a fresh
 * aggregator whose entries it writes out, one line each.  Writing the lines
 * to the console, the one-second sleep and the event hub receiver are not
 * modelled.
 */
module QuickAnalyzerProgram {
  import opened Common
  import opened Assoc
  import MessageAggregator
  import TableBatches
  import QuickAnalyserEngine
  import AnalyzerEngine

  /** maxEngineRestarts. */
  const MaxEngineRestarts: nat := 10
  /** The number of dequeue attempts per turn of the main loop. */
  const DrainLimit: nat := 500

  // ---------------------------------------------------------------------------
  // The restart counter

  /** What one turn does about the engine: start it or not, raise the restart alarm or not, and the new counter. */
  datatype Restart = Restart(start: bool, alarm: bool, counter: nat)

  /** A stopped engine is started; when the counter, before its increment, has reached the limit, the alarm is raised and the counter reset. */
  function RestartStep(running: bool, counter: nat): Restart
  {
    if running then Restart(false, false, counter)
    else if MaxEngineRestarts <= counter then Restart(true, true, 0)
    else Restart(true, false, counter + 1)
  }

  /**
   * A running engine is left alone; a stopped one is started, and the alarm
   * is raised exactly when the counter before the increment has reached the
   * maximum.  The counter never leaves [0, MaxEngineRestarts].
   */
  lemma RestartStepSpec(running: bool, counter: nat)
    requires counter <= MaxEngineRestarts
    ensures var r := RestartStep(running, counter);
      && (r.start <==> !running)
      && (r.alarm <==> !running && counter == MaxEngineRestarts)
      && r.counter <= MaxEngineRestarts
      && (running ==> r.counter == counter)
      && (!running && !r.alarm ==> r.counter == counter + 1)
  {
  }

  /** The counter and the number of restart alarms after n turns that each find the engine stopped. */
  function StoppedTurns(counter: nat, n: nat): (nat, nat)
  {
    if n == 0 then (counter, 0)
    else
      var (c, alarms) := StoppedTurns(counter, n - 1);
      var r := RestartStep(false, c);
      (r.counter, alarms + (if r.alarm then 1 else 0))
  }

  /**
   * From a fresh counter, an engine that is found stopped on every turn is
   * started every turn and raises the alarm on every eleventh start: after n
   * turns the counter is n mod 11 and n div 11 alarms have been raised.
   */
  lemma {:induction false} StoppedTurnsCycle(n: nat)
    ensures StoppedTurns(0, n) == (n % (MaxEngineRestarts + 1), n / (MaxEngineRestarts + 1))
  {
    if n > 0 {
      StoppedTurnsCycle(n - 1);
      var m := n - 1;
      if m % (MaxEngineRestarts + 1) == MaxEngineRestarts {
        assert n % (MaxEngineRestarts + 1) == 0 && n / (MaxEngineRestarts + 1) == m / (MaxEngineRestarts + 1) + 1;
      } else {
        assert n % (MaxEngineRestarts + 1) == m % (MaxEngineRestarts + 1) + 1;
        assert n / (MaxEngineRestarts + 1) == m / (MaxEngineRestarts + 1);
      }
    }
  }

  /** The alarm raised when the counter has reached the maximum; `restarts` is the counter before the increment. */
  function RestartAlarm(host: string, restarts: nat): AlarmMessage
  {
    AlarmMessage(High, Some(host),
                 Some("AnalyserEngine main task has been restared " + NatToString(restarts)
                      + " times. Engine is down and can not recover! Resetting start counter."),
                 None, None)
  }

  /** The alarm of the catch around the main loop, which then ends. */
  function MainLoopAlarm(host: string, x: Exception): AlarmMessage
  {
    AlarmMessage(High, Some(host), Some("Exception in main loop."), Some(ExceptionMessage(x)), None)
  }

  // ---------------------------------------------------------------------------
  // The event processor

  /** A received event: the engine's view of it and its PartitionKey. */
  datatype Received = Received(event: Event, partitionKey: NString)

  function Events(es: seq<Received>): (r: seq<Event>)
    ensures |r| == |es| && forall i :: 0 <= i < |es| ==> r[i] == es[i].event
  {
    if |es| == 0 then [] else Events(es[..|es| - 1]) + [es[|es| - 1].event]
  }

  function PartitionKeys(es: seq<Received>): (r: seq<NString>)
    ensures |r| == |es| && forall i :: 0 <= i < |es| ==> r[i] == es[i].partitionKey
  {
    if |es| == 0 then [] else PartitionKeys(es[..|es| - 1]) + [es[|es| - 1].partitionKey]
  }

  // ---------------------------------------------------------------------------
  // The program

  class QuickAnalyzer {
    const engine: QuickAnalyserEngine.AnalyserEngine
    const alarmManager: AnalyzerEngine.AlarmMessageManager
    var engineStartCounter: nat

    constructor(engine: QuickAnalyserEngine.AnalyserEngine, alarmManager: AnalyzerEngine.AlarmMessageManager)
      ensures this.engine == engine && this.alarmManager == alarmManager && engineStartCounter == 0
    {
      this.engine := engine;
      this.alarmManager := alarmManager;
      engineStartCounter := 0;
    }

    /**
     * EventProc.ProcessEventsAsync up to the batch execution: every event
     * goes to the engine's main queue first, in order, and the list is then
     * split into batches by PartitionKey.
     */
    method ProcessEvents(events: seq<Received>) returns (r: Result<TableBatches.Batching>)
      modifies engine`mainEventQueue
      ensures engine.mainEventQueue == old(engine.mainEventQueue) + Events(events)
      ensures r == TableBatches.Split(PartitionKeys(events), TableBatches.AsWritten)
    {
      engine.AddToMainQueue(Events(events));
      r := TableBatches.BuildBatches(PartitionKeys(events), TableBatches.AsWritten);
    }

    /**
     * The restart part of one turn of the main loop.  An exception from
     * StartEngine is caught around the whole loop: the main-loop alarm is
     * raised and `error` tells the caller the loop has ended.
     */
    method RestartCheck(rules: seq<QuickAnalyserEngine.RuleSet>, host: string) returns (error: Option<Exception>)
      modifies engine`engineMessages, engine`analysers, engine`engineIsRunning, engine`engineTasks
      modifies alarmManager, this`engineStartCounter
      ensures old(engine.engineIsRunning) ==>
        && error.None? && engineStartCounter == old(engineStartCounter) && alarmManager.raised == old(alarmManager.raised)
        && engine.engineMessages == old(engine.engineMessages) && engine.analysers == old(engine.analysers)
        && engine.engineIsRunning && engine.engineTasks == old(engine.engineTasks)
      ensures !old(engine.engineIsRunning) ==>
        var l := QuickAnalyserEngine.LoadFrom([], old(engine.engineMessages) + QuickAnalyserEngine.StartingTexts(rules), rules, 0);
        var r := RestartStep(false, old(engineStartCounter));
        && error == l.error && engine.analysers == l.analysers
        && (error.Some? ==> engineStartCounter == old(engineStartCounter)
                            && alarmManager.raised == old(alarmManager.raised) + [MainLoopAlarm(host, error.value)])
        && (error.None? ==> engine.engineIsRunning && engineStartCounter == r.counter
                            && alarmManager.raised == old(alarmManager.raised)
                               + (if r.alarm then [RestartAlarm(host, old(engineStartCounter))] else []))
    {
      if engine.engineIsRunning {
        return None;
      }
      error := engine.StartEngine(rules);
      if error.Some? {
        alarmManager.RaiseAlarm(MainLoopAlarm(host, error.value));
        return;
      }
      var before := engineStartCounter;
      engineStartCounter := engineStartCounter + 1;
      if MaxEngineRestarts <= before {
        alarmManager.RaiseAlarm(RestartAlarm(host, engineStartCounter - 1));
        engineStartCounter := 0;
      }
    }

    /**
     * The message part of one turn of the main loop: up to 500 of the
     * engine's messages, stamped with `stamps` (when they were enqueued),
     * are aggregated, and the returned lines are what it writes, one per
     * aggregated text.
     */
    method MessageTurn(stamps: seq<int>, dateText: int -> string) returns (lines: seq<string>)
      requires |stamps| == |engine.engineMessages|
      modifies engine`engineMessages
      ensures var k := MessageAggregator.Drained(|old(engine.engineMessages)|, DrainLimit);
        && engine.engineMessages == old(engine.engineMessages)[k..]
        && lines == MessageAggregator.TrackerLines(
             MessageAggregator.Replay(MessageAggregator.Additions(MessageAggregator.Timestamped(old(engine.engineMessages), stamps)[..k])),
             dateText)
    {
      var queue := MessageAggregator.Timestamped(engine.engineMessages, stamps);
      var rest, aggregator := MessageAggregator.Drain(queue, DrainLimit);
      engine.engineMessages := engine.engineMessages[|queue| - |rest|..];
      lines := MessageAggregator.WriteTrackers(aggregator.collection, dateText);
    }
  }
}
