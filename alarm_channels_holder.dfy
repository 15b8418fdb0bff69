/**
 * AlarmChannelHolder: a bag of (level, channel) registrations; an alarm goes
 * to every channel registered for exactly its level.  Channels are named by
 * ids, and what they are asked to send is recorded in the `sent` log.
 */
module AlarmChannelsHolder {
  import opened Common
  import MessageAggregator

  type ChannelId = nat
  type Aggregated = MessageAggregator.Aggregated<AlarmMessage>

  /** AlarmLevelChannelConnection. */
  datatype Registration = Registration(level: AlarmLevel, channel: ChannelId)

  /** One call into a channel: IAlarmChannel.SendAlarm or IAlarmChannel.SendAggregatedAlarm. */
  datatype Delivery =
    | Single(to: ChannelId, message: AlarmMessage)
    | Flood(to: ChannelId, aggregated: Aggregated)

  /** The calls SendAlarm(message) makes, one per registration for the message's level, in registration order. */
  function Deliveries(regs: seq<Registration>, m: AlarmMessage): seq<Delivery>
  {
    if |regs| == 0 then []
    else
      var r := regs[|regs| - 1];
      Deliveries(regs[..|regs| - 1], m) + (if r.level == m.level then [Single(r.channel, m)] else [])
  }

  /** The calls for one aggregated entry: one per registration for the level of its stored message. */
  function FloodFor(regs: seq<Registration>, a: Aggregated): seq<Delivery>
  {
    if |regs| == 0 then []
    else
      var r := regs[|regs| - 1];
      FloodFor(regs[..|regs| - 1], a) + (if r.level == a.message.level then [Flood(r.channel, a)] else [])
  }

  /** The calls SendAlarm(aggregator) makes: the entries in enumeration order, each to its matching registrations. */
  function FloodDeliveries(regs: seq<Registration>, entries: seq<(string, Aggregated)>): seq<Delivery>
  {
    if |entries| == 0 then []
    else FloodDeliveries(regs, entries[..|entries| - 1]) + FloodFor(regs, entries[|entries| - 1].1)
  }

  /**
   * SendAlarm delivers the very message, and channel c receives it exactly as
   * many times as (message level, c) is registered: the level must be equal,
   * not merely as severe.
   */
  lemma {:induction false} DeliveriesExact(regs: seq<Registration>, m: AlarmMessage, c: ChannelId)
    ensures multiset(Deliveries(regs, m))[Single(c, m)] == multiset(regs)[Registration(m.level, c)]
    ensures forall d :: d in Deliveries(regs, m) ==> d.Single? && d.message == m && Registration(m.level, d.to) in regs
  {
    if |regs| > 0 {
      var p, r := regs[..|regs| - 1], regs[|regs| - 1];
      DeliveriesExact(p, m, c);
      assert regs == p + [r];
      assert multiset(regs) == multiset(p) + multiset{r};
    }
  }

  /** A level nobody registered for gets no delivery at all. */
  lemma {:induction false} NoRegistrationNoDelivery(regs: seq<Registration>, m: AlarmMessage)
    requires forall i :: 0 <= i < |regs| ==> regs[i].level != m.level
    ensures Deliveries(regs, m) == []
  {
    if |regs| > 0 {
      NoRegistrationNoDelivery(regs[..|regs| - 1], m);
    }
  }

  /** Each aggregated entry goes to channel c once per registration of (its stored level, c). */
  lemma {:induction false} FloodForExact(regs: seq<Registration>, a: Aggregated, c: ChannelId)
    ensures multiset(FloodFor(regs, a))[Flood(c, a)] == multiset(regs)[Registration(a.message.level, c)]
    ensures forall d :: d in FloodFor(regs, a) ==> d.Flood? && d.aggregated == a && Registration(a.message.level, d.to) in regs
  {
    if |regs| > 0 {
      var p, r := regs[..|regs| - 1], regs[|regs| - 1];
      FloodForExact(p, a, c);
      assert regs == p + [r];
      assert multiset(regs) == multiset(p) + multiset{r};
    }
  }

  /** The number of (entry, registration) pairs whose levels agree. */
  function Pairs(regs: seq<Registration>, entries: seq<(string, Aggregated)>): nat
  {
    if |entries| == 0 then 0
    else Pairs(regs, entries[..|entries| - 1]) + Matching(regs, entries[|entries| - 1].1.message.level)
  }

  /** The number of registrations for a level. */
  function Matching(regs: seq<Registration>, level: AlarmLevel): nat
  {
    if |regs| == 0 then 0
    else Matching(regs[..|regs| - 1], level) + (if regs[|regs| - 1].level == level then 1 else 0)
  }

  lemma {:induction false} FloodForLength(regs: seq<Registration>, a: Aggregated)
    ensures |FloodFor(regs, a)| == Matching(regs, a.message.level)
  {
    if |regs| > 0 {
      FloodForLength(regs[..|regs| - 1], a);
    }
  }

  /** The aggregated overload makes one call per (entry, matching registration), so none for an empty aggregator. */
  lemma {:induction false} FloodDeliveriesCount(regs: seq<Registration>, entries: seq<(string, Aggregated)>)
    ensures |FloodDeliveries(regs, entries)| == Pairs(regs, entries)
    ensures |entries| == 0 ==> FloodDeliveries(regs, entries) == []
  {
    if |entries| > 0 {
      FloodDeliveriesCount(regs, entries[..|entries| - 1]);
      FloodForLength(regs, entries[|entries| - 1].1);
    }
  }

  class AlarmChannelHolder {
    var collection: seq<Registration>
    /** The calls made into the registered channels, oldest first. */
    var sent: seq<Delivery>

    constructor()
      ensures collection == [] && sent == []
    {
      collection := [];
      sent := [];
    }

    /** AddChannel: a new registration, even when the same one exists already. */
    method AddChannel(level: AlarmLevel, channel: ChannelId)
      modifies this`collection
      ensures collection == old(collection) + [Registration(level, channel)]
    {
      collection := collection + [Registration(level, channel)];
    }

    method SendAlarm(message: AlarmMessage)
      modifies this`sent
      ensures sent == old(sent) + Deliveries(collection, message)
    {
      var i := 0;
      while i < |collection|
        invariant 0 <= i <= |collection|
        invariant sent == old(sent) + Deliveries(collection[..i], message)
      {
        var connection := collection[i];
        assert collection[..i + 1][..i] == collection[..i];
        if connection.level == message.level {
          sent := sent + [Single(connection.channel, message)];
        }
        i := i + 1;
      }
      assert collection[..i] == collection;
    }

    /**
     * The overload for an aggregator, given its Collection: each entry in turn
     * to the channels of its stored message's level.
     */
    method SendAggregatedAlarms(entries: seq<(string, Aggregated)>)
      modifies this`sent
      ensures sent == old(sent) + FloodDeliveries(collection, entries)
    {
      var j := 0;
      while j < |entries|
        invariant 0 <= j <= |entries|
        invariant sent == old(sent) + FloodDeliveries(collection, entries[..j])
      {
        SendAggregatedEntry(entries[j].1);
        assert entries[..j + 1][..j] == entries[..j];
        j := j + 1;
      }
      assert entries[..j] == entries;
    }

    /** The inner loop of the aggregated overload, for one entry. */
    method SendAggregatedEntry(a: Aggregated)
      modifies this`sent
      ensures sent == old(sent) + FloodFor(collection, a)
    {
      var i := 0;
      while i < |collection|
        invariant 0 <= i <= |collection|
        invariant sent == old(sent) + FloodFor(collection[..i], a)
      {
        var connection := collection[i];
        assert collection[..i + 1][..i] == collection[..i];
        if connection.level == a.message.level {
          sent := sent + [Flood(connection.channel, a)];
        }
        i := i + 1;
      }
      assert collection[..i] == collection;
    }
  }
}
