/**
 * The alarm sender: alarms arrive one by one from a queue; an origin that
 * sent an alarm less than a minute ago is "flooding", and its alarms are
 * buffered in a per-origin MessageAggregator keyed by level and text instead
 * of being delivered.  A background loop hands every origin whose minute has
 * passed to the channels as one aggregated batch and empties its buffer.
 *
 * Time is in ticks and the current time is a parameter; the background task
 * is its loop body (FlushStep) and its catch block (FloodControlDown), which
 * the environment calls.
 */
module AlarmSender {
  import opened Common
  import opened Assoc
  import MessageAggregator
  import opened AlarmChannelsHolder

  /** MAX_FREQUENCY: one minute. */
  const MaxFrequency: int := TicksPerMinute

  /** OriginTimeControl: when the origin last had an alarm delivered, and its buffer (the aggregator's Collection). */
  datatype OriginTimeControl = OriginTimeControl(lastMessageSent: int, aggregator: seq<(string, Aggregated)>)

  /** PerOriginAggregator, in enumeration order. */
  type Controls = seq<(string, OriginTimeControl)>

  /** `new OriginTimeControl()` at time now: LastMessageSent defaults to the current time. */
  function NewControl(now: int): OriginTimeControl
  {
    OriginTimeControl(now, [])
  }

  /** OkayToSendFrom: strictly more than a minute has passed. */
  predicate OkayToSendFrom(tc: OriginTimeControl, now: int)
  {
    tc.lastMessageSent + MaxFrequency < now
  }

  /** GetOrAdd(origin, new OriginTimeControl()), the value side. */
  function GetOrNew(p: Controls, o: string, now: int): (tc: OriginTimeControl)
    ensures Lookup(p, o).Some? ==> tc == Lookup(p, o).value
    ensures Lookup(p, o).None? ==> tc == NewControl(now)
  {
    match Lookup(p, o)
    case Some(tc) => tc
    case None => NewControl(now)
  }

  /**
   * The identifier AddMessage files an alarm under: the level's name followed
   * by the text (a null text adds nothing).  The source hashes this string
   * with SHA-1; the model keeps the string itself.
   */
  function MessageId(m: AlarmMessage): string
  {
    LevelName(m.level) + NullToEmpty(m.message)
  }

  predicate NamedLevel(l: AlarmLevel)
  {
    l == High || l == Medium || l == Low
  }

  /**
   * For the three named levels the identifier tells alarms apart exactly by
   * level and text, so alarms differing only in origin-independent details
   * (exception text, storage id) are counted together, and no others are.
   */
  lemma MessageIdExact(m1: AlarmMessage, m2: AlarmMessage)
    requires NamedLevel(m1.level) && NamedLevel(m2.level)
    ensures MessageId(m1) == MessageId(m2) <==> m1.level == m2.level && NullToEmpty(m1.message) == NullToEmpty(m2.message)
  {
    var n1, n2 := LevelName(m1.level), LevelName(m2.level);
    if MessageId(m1) == MessageId(m2) {
      assert MessageId(m1)[0] == n1[0] && MessageId(m2)[0] == n2[0];
      assert m1.level == m2.level;
      assert NullToEmpty(m1.message) == MessageId(m1)[|n1|..];
      assert NullToEmpty(m2.message) == MessageId(m2)[|n2|..];
    }
  }

  /** Whether IsOriginFlooding holds for origin o: it is known and its minute has not passed. */
  predicate Flooding(p: Controls, o: string, now: int)
  {
    Lookup(p, o).Some? && !OkayToSendFrom(Lookup(p, o).value, now)
  }

  /** The controls after AddMessage(m) at now, for the origin o of m. */
  function Buffer(p: Controls, o: string, m: AlarmMessage, now: int): Controls
  {
    var tc := GetOrNew(p, o, now);
    Put(p, o, tc.(aggregator := MessageAggregator.Added(tc.aggregator, Stamped(now, m), MessageId(m))))
  }

  /** The controls after SetLastMessageFromOrigin at now, for origin o. */
  function Touch(p: Controls, o: string, now: int): Controls
  {
    Put(p, o, GetOrNew(p, o, now).(lastMessageSent := now))
  }

  /** What one ProcessQueueMessage does to the controls, and whether it delivers the alarm. */
  datatype Outcome = Outcome(controls: Controls, deliver: bool)

  /**
   * ProcessQueueMessage once both statics are set: a null origin makes the
   * dictionary throw; a flooding origin has the alarm buffered; any other has
   * it delivered and its time stamp moved to now.
   */
  function Process(p: Controls, m: AlarmMessage, now: int): Result<Outcome>
  {
    match m.origin
    case None => Err(ArgumentNull("key"))
    case Some(o) =>
      if Flooding(p, o, now) then Ok(Outcome(Buffer(p, o, m, now), false))
      else Ok(Outcome(Touch(p, o, now), true))
  }

  /** The first alarm from an origin is delivered, and the origin's minute starts with an empty buffer. */
  lemma FirstFromOriginDelivered(p: Controls, m: AlarmMessage, now: int)
    requires m.origin.Some? && m.origin.value !in Keys(p)
    ensures Process(p, m, now).Ok? && Process(p, m, now).value.deliver
    ensures Lookup(Process(p, m, now).value.controls, m.origin.value) == Some(OriginTimeControl(now, []))
  {
    LookupPut(p, m.origin.value, NewControl(now).(lastMessageSent := now), m.origin.value);
  }

  /**
   * The flood window: after an alarm from an origin is delivered at t1, the
   * next one from the same origin at t2 >= t1 is delivered exactly when more
   * than a minute has passed (a gap of exactly one minute still floods);
   * otherwise it is buffered under its identifier and the time stamp stays.
   */
  lemma FloodWindow(p: Controls, m1: AlarmMessage, m2: AlarmMessage, t1: int, t2: int)
    requires m1.origin.Some? && m2.origin == m1.origin
    requires Process(p, m1, t1).Ok? && Process(p, m1, t1).value.deliver
    requires t1 <= t2
    ensures var p1 := Process(p, m1, t1).value.controls;
      && Process(p1, m2, t2).Ok?
      && (Process(p1, m2, t2).value.deliver <==> t1 + MaxFrequency < t2)
      && (!Process(p1, m2, t2).value.deliver ==>
            var o := m1.origin.value;
            var tc := Lookup(p1, o).value;
            Lookup(Process(p1, m2, t2).value.controls, o)
              == Some(OriginTimeControl(t1, MessageAggregator.Added(tc.aggregator, Stamped(t2, m2), MessageId(m2)))))
  {
    var o := m1.origin.value;
    var p1 := Process(p, m1, t1).value.controls;
    LookupPut(p, o, GetOrNew(p, o, t1).(lastMessageSent := t1), o);
    assert Lookup(p1, o).Some? && Lookup(p1, o).value.lastMessageSent == t1;
    if !(t1 + MaxFrequency < t2) {
      var tc := Lookup(p1, o).value;
      LookupPut(p1, o, tc.(aggregator := MessageAggregator.Added(tc.aggregator, Stamped(t2, m2), MessageId(m2))), o);
    }
  }

  /**
   * Two buffered alarms from one origin with the same level and text (for a
   * new identifier) leave one entry: the first alarm, counted twice, spanning
   * both time stamps.
   */
  lemma BufferCoalesces(p: Controls, o: string, m1: AlarmMessage, m2: AlarmMessage, t1: int, t2: int)
    requires MessageId(m1) == MessageId(m2)
    requires Lookup(GetOrNew(p, o, t1).aggregator, MessageId(m1)).None?
    requires t1 <= t2
    ensures var p2 := Buffer(Buffer(p, o, m1, t1), o, m2, t2);
      Lookup(p2, o).Some? && Lookup(Lookup(p2, o).value.aggregator, MessageId(m1))
        == Some(MessageAggregator.Aggregated(m1, 2, t1, t2))
  {
    var id := MessageId(m1);
    var tc := GetOrNew(p, o, t1);
    var a1 := MessageAggregator.Added(tc.aggregator, Stamped(t1, m1), id);
    var p1 := Buffer(p, o, m1, t1);
    LookupPut(p, o, tc.(aggregator := a1), o);
    assert GetOrNew(p1, o, t2) == tc.(aggregator := a1);
    MessageAggregator.AddedEntry(tc.aggregator, Stamped(t1, m1), id, id);
    var a2 := MessageAggregator.Added(a1, Stamped(t2, m2), id);
    LookupPut(p1, o, tc.(aggregator := a2), o);
    MessageAggregator.AddedEntry(a1, Stamped(t2, m2), id, id);
  }

  // ---------------------------------------------------------------------------
  // The background loop

  /** What one pass leaves for one origin: an elapsed one restarts its minute at now with an empty buffer. */
  function FlushControl(tc: OriginTimeControl, now: int): OriginTimeControl
  {
    if OkayToSendFrom(tc, now) then OriginTimeControl(now, []) else tc
  }

  /** The controls after one pass of the loop over PerOriginAggregator. */
  function Flushed(p: Controls, now: int): (r: Controls)
    ensures |r| == |p|
    ensures forall i :: 0 <= i < |p| ==> r[i] == (p[i].0, FlushControl(p[i].1, now))
  {
    seq(|p|, i requires 0 <= i < |p| => (p[i].0, FlushControl(p[i].1, now)))
  }

  /** The calls one pass makes: the buffer of every elapsed origin, in enumeration order. */
  function FlushDeliveries(regs: seq<Registration>, p: Controls, now: int): seq<Delivery>
  {
    if |p| == 0 then []
    else
      var tc := p[|p| - 1].1;
      FlushDeliveries(regs, p[..|p| - 1], now) + (if OkayToSendFrom(tc, now) then FloodDeliveries(regs, tc.aggregator) else [])
  }

  /** A pass keeps the origins and changes each one's control by FlushControl. */
  lemma {:induction false} LookupFlushed(p: Controls, o: string, now: int)
    ensures Keys(Flushed(p, now)) == Keys(p)
    ensures Lookup(Flushed(p, now), o) == if Lookup(p, o).Some? then Some(FlushControl(Lookup(p, o).value, now)) else None
  {
    assert Keys(Flushed(p, now)) == Keys(p);
    if |p| > 0 {
      assert Flushed(p, now)[1..] == Flushed(p[1..], now);
      LookupFlushed(p[1..], o, now);
      assert Keys(p) == [p[0].0] + Keys(p[1..]);
    }
  }

  /**
   * While the loop runs, it leaves no origin able to send: after a pass at
   * now, every known origin is flooding at now, so the next alarm from any of
   * them is buffered.
   */
  lemma FlushLeavesAllFlooding(p: Controls, now: int, o: string)
    requires o in Keys(p)
    ensures Flooding(Flushed(p, now), o, now)
  {
    LookupFlushed(p, o, now);
  }

  /** Nothing buffered is lost: an elapsed origin's whole buffer is sent, as one contiguous run of calls, in a pass. */
  lemma {:induction false} ElapsedSent(regs: seq<Registration>, p: Controls, now: int, i: nat)
    requires i < |p| && OkayToSendFrom(p[i].1, now)
    ensures exists before, after :: FlushDeliveries(regs, p, now) == before + FloodDeliveries(regs, p[i].1.aggregator) + after
  {
    var n := |p| - 1;
    var here := FloodDeliveries(regs, p[i].1.aggregator);
    var last := if OkayToSendFrom(p[n].1, now) then FloodDeliveries(regs, p[n].1.aggregator) else [];
    assert FlushDeliveries(regs, p, now) == FlushDeliveries(regs, p[..n], now) + last;
    if i == n {
      AppendAssoc(FlushDeliveries(regs, p[..n], now) + here, [], []);
      assert FlushDeliveries(regs, p, now) == FlushDeliveries(regs, p[..n], now) + here + [];
    } else {
      assert p[..n][i] == p[i];
      ElapsedSent(regs, p[..n], now, i);
      var before, after :| FlushDeliveries(regs, p[..n], now) == before + here + after;
      AppendAssoc(before + here, after, last);
      assert FlushDeliveries(regs, p, now) == before + here + (after + last);
    }
  }

  /** The catch block's alarm. */
  function DownAlarm(x: Exception): (a: AlarmMessage)
    ensures a.level == High && a.origin == Some("Alarm FloodControl") && a.storageID.None?
    ensures a.exceptionMessage == Some(ExceptionMessage(x))
  {
    AlarmMessage(High, Some("Alarm FloodControl"),
                 Some("Alarm message flood control went down. Restart will be tried on next alarm."),
                 Some(ExceptionMessage(x)), None)
  }

  // ---------------------------------------------------------------------------
  // The classes

  class FloodControl {
    var isRunning: bool
    const channels: AlarmChannelHolder
    var perOrigin: Controls

    constructor(channels: AlarmChannelHolder, startOnConstruct: bool)
      ensures this.channels == channels && perOrigin == [] && isRunning == startOnConstruct
    {
      this.channels := channels;
      perOrigin := [];
      isRunning := startOnConstruct;
    }

    /** StartFloodControl: the loop it starts sets IsRunning first. */
    method StartFloodControl()
      modifies this`isRunning
      ensures isRunning
    {
      isRunning := true;
    }

    /** IsOriginFlooding: TryGetValue, which throws on a null key. */
    method IsOriginFlooding(message: AlarmMessage, now: int) returns (r: Result<bool>)
      ensures message.origin.None? <==> r == Err(ArgumentNull("key"))
      ensures message.origin.Some? ==>
        r.Ok? && (r.value <==> message.origin.value in Keys(perOrigin)
                               && now <= Lookup(perOrigin, message.origin.value).value.lastMessageSent + MaxFrequency)
    {
      if message.origin.None? {
        return Err(ArgumentNull("key"));
      }
      var timeCtrl := Lookup(perOrigin, message.origin.value);
      if timeCtrl.Some? {
        return Ok(!OkayToSendFrom(timeCtrl.value, now));
      }
      return Ok(false);
    }

    /** AddMessage at now: GetOrAdd the origin's control, then add the stamped alarm under its identifier. */
    method AddMessage(message: AlarmMessage, now: int) returns (error: Option<Exception>)
      modifies this`perOrigin
      ensures message.origin.None? ==> error == Some(ArgumentNull("key")) && perOrigin == old(perOrigin)
      ensures message.origin.Some? ==> error.None? && perOrigin == Buffer(old(perOrigin), message.origin.value, message, now)
    {
      if message.origin.None? {
        return Some(ArgumentNull("key"));
      }
      var o := message.origin.value;
      var timeControl := GetOrNew(perOrigin, o, now);
      var msgID := MessageId(message);
      var tmsg := Stamped(now, message);
      timeControl := timeControl.(aggregator := MessageAggregator.Added(timeControl.aggregator, tmsg, msgID));
      perOrigin := Put(perOrigin, o, timeControl);
      return None;
    }

    /** SetLastMessageFromOrigin at now. */
    method SetLastMessageFromOrigin(message: AlarmMessage, now: int) returns (error: Option<Exception>)
      modifies this`perOrigin
      ensures message.origin.None? ==> error == Some(ArgumentNull("key")) && perOrigin == old(perOrigin)
      ensures message.origin.Some? ==> error.None? && perOrigin == Touch(old(perOrigin), message.origin.value, now)
    {
      if message.origin.None? {
        return Some(ArgumentNull("key"));
      }
      var o := message.origin.value;
      var timeControl := GetOrNew(perOrigin, o, now);
      perOrigin := Put(perOrigin, o, timeControl.(lastMessageSent := now));
      return None;
    }

    /** One pass of the background loop at now. */
    method FlushStep(now: int)
      modifies this`perOrigin, channels`sent
      ensures perOrigin == Flushed(old(perOrigin), now)
      ensures channels.sent == old(channels.sent) + FlushDeliveries(channels.collection, old(perOrigin), now)
    {
      ghost var p, regs, s0 := perOrigin, channels.collection, channels.sent;
      assert p[..0] == [];
      var i := 0;
      while i < |perOrigin|
        invariant 0 <= i <= |perOrigin| == |p| && channels.collection == regs
        invariant forall j :: 0 <= j < i ==> perOrigin[j] == (p[j].0, FlushControl(p[j].1, now))
        invariant forall j :: i <= j < |p| ==> perOrigin[j] == p[j]
        invariant channels.sent == s0 + FlushDeliveries(regs, p[..i], now)
      {
        FlushEntry(i, now, p, regs, s0);
        i := i + 1;
      }
      assert p[..i] == p;
    }

    /** The body of the background loop for the origin at index i. */
    method FlushEntry(i: nat, now: int, ghost p: Controls, ghost regs: seq<Registration>, ghost s0: seq<Delivery>)
      requires i < |perOrigin| == |p| && channels.collection == regs
      requires forall j :: 0 <= j < i ==> perOrigin[j] == (p[j].0, FlushControl(p[j].1, now))
      requires forall j :: i <= j < |p| ==> perOrigin[j] == p[j]
      requires channels.sent == s0 + FlushDeliveries(regs, p[..i], now)
      modifies this`perOrigin, channels`sent
      ensures |perOrigin| == |p| && channels.collection == regs
      ensures forall j :: 0 <= j < i + 1 ==> perOrigin[j] == (p[j].0, FlushControl(p[j].1, now))
      ensures forall j :: i + 1 <= j < |p| ==> perOrigin[j] == p[j]
      ensures channels.sent == s0 + FlushDeliveries(regs, p[..i + 1], now)
    {
      var control := perOrigin[i];
      assert p[..i + 1][..i] == p[..i] && p[..i + 1][i] == p[i];
      if OkayToSendFrom(control.1, now) {
        channels.SendAggregatedAlarms(control.1.aggregator);
        perOrigin := perOrigin[i := (control.0, OriginTimeControl(now, []))];
      }
    }

    /** The catch block: the loop stops and the High alarm about it goes out. */
    method FloodControlDown(x: Exception)
      modifies this`isRunning, channels`sent
      ensures !isRunning
      ensures channels.sent == old(channels.sent) + Deliveries(channels.collection, DownAlarm(x))
    {
      isRunning := false;
      channels.SendAlarm(DownAlarm(x));
    }
  }

  /** Functions: the two statics the queue trigger uses. */
  class Functions {
    var floodControl: FloodControl?
    var channelHolder: AlarmChannelHolder?

    constructor()
      ensures floodControl == null && channelHolder == null
    {
      floodControl := null;
      channelHolder := null;
    }

    /** Program.Main's set-up: one channel for High alarms, and flood control started on construction. */
    method Setup(slack: ChannelId)
      modifies this
      ensures channelHolder != null && fresh(channelHolder) && channelHolder.collection == [Registration(High, slack)]
      ensures channelHolder.sent == []
      ensures floodControl != null && fresh(floodControl) && floodControl.channels == channelHolder
      ensures floodControl.isRunning && floodControl.perOrigin == []
    {
      var holder := new AlarmChannelHolder();
      holder.AddChannel(High, slack);
      channelHolder := holder;
      floodControl := new FloodControl(holder, true);
    }

    /** ProcessQueueMessage for an alarm received at now. */
    method ProcessQueueMessage(message: AlarmMessage, now: int) returns (error: Option<Exception>)
      modifies floodControl, channelHolder
      ensures floodControl == null ==> error == Some(NullReference("FloodControl not initialised."))
      ensures floodControl != null && channelHolder == null ==>
        error == Some(NullReference("ChannelHolder not initialised.")) && unchanged(floodControl)
      ensures floodControl != null && channelHolder != null ==>
        && floodControl.isRunning
        && var out := Process(old(floodControl.perOrigin), message, now);
           && (out.Err? ==> error == Some(out.error) && floodControl.perOrigin == old(floodControl.perOrigin)
                            && channelHolder.sent == old(channelHolder.sent))
           && (out.Ok? ==> error.None? && floodControl.perOrigin == out.value.controls
                           && channelHolder.sent == old(channelHolder.sent)
                                + (if out.value.deliver then Deliveries(channelHolder.collection, message) else []))
    {
      if floodControl == null {
        return Some(NullReference("FloodControl not initialised."));
      }
      if channelHolder == null {
        return Some(NullReference("ChannelHolder not initialised."));
      }
      error := Handle(floodControl, channelHolder, message, now);
    }

    /** The rest of ProcessQueueMessage once both statics are set: restart flood control if it is down, then buffer or send. */
    method Handle(fc: FloodControl, holder: AlarmChannelHolder, message: AlarmMessage, now: int) returns (error: Option<Exception>)
      modifies fc`isRunning, fc`perOrigin, holder`sent
      ensures fc.isRunning
      ensures var out := Process(old(fc.perOrigin), message, now);
        && (out.Err? ==> error == Some(out.error) && fc.perOrigin == old(fc.perOrigin) && holder.sent == old(holder.sent))
        && (out.Ok? ==> error.None? && fc.perOrigin == out.value.controls
                        && holder.sent == old(holder.sent) + (if out.value.deliver then Deliveries(holder.collection, message) else []))
    {
      if !fc.isRunning {
        fc.StartFloodControl();
      }
      ghost var p := fc.perOrigin;
      var flooding := fc.IsOriginFlooding(message, now);
      if flooding.Err? {
        return Some(flooding.error);
      }
      assert flooding.value == Flooding(p, message.origin.value, now);
      if flooding.value {
        error := fc.AddMessage(message, now);
      } else {
        holder.SendAlarm(message);
        error := fc.SetLastMessageFromOrigin(message, now);
      }
    }
  }
}
