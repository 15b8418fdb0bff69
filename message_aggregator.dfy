/**
 * MessageAggregator<T>: a dictionary from message identifiers to an
 * AggregatedMessage holding the first message seen under that identifier, a
 * counter of additions, and the earliest and latest time stamps.  Dictionary
 * enumeration order is taken as insertion order (module Assoc).
 */
module MessageAggregator {
  import opened Common
  import opened Assoc

  /** AggregatedMessage<T>.  AmountCounter is a uint and C# arithmetic is unchecked, so it wraps at 2^32. */
  datatype Aggregated<T> = Aggregated(message: T, amountCounter: UInt32, firstOccurrence: int, lastOccurrence: int)

  const Modulus: int := 0x1_0000_0000

  /** `AmountCounter++` on a uint. */
  function Increment(c: UInt32): (r: UInt32)
    ensures r == (c + 1) % Modulus
  {
    if c == 0xFFFF_FFFF then 0 else c + 1
  }

  /** The collection after AddMessage(m, id). */
  function Added<T>(c: seq<(string, Aggregated<T>)>, m: Stamped<T>, id: string): seq<(string, Aggregated<T>)>
  {
    Put(c, id, Bumped(c, m, id))
  }

  function Min(a: int, b: int): int { if a <= b then a else b }
  function Max(a: int, b: int): int { if a >= b then a else b }

  /** One addition changes the entry under its identifier only, to Bumped. */
  lemma AddedEntry<T>(c: seq<(string, Aggregated<T>)>, m: Stamped<T>, id: string, k: string)
    ensures Lookup(Added(c, m, id), k) == if k == id then Some(Bumped(c, m, id)) else Lookup(c, k)
  {
    LookupPut(c, id, Bumped(c, m, id), k);
  }

  /**
   * The entry AddMessage(m, id) leaves under id: for a new identifier counter
   * 1, both time stamps equal to the message's, and the message; for a known
   * one the stored message is kept, the counter goes up by one (modulo 2^32)
   * and the time stamps widen to include the new one.
   */
  function Bumped<T>(c: seq<(string, Aggregated<T>)>, m: Stamped<T>, id: string): (v': Aggregated<T>)
    ensures Lookup(c, id).None? ==> v' == Aggregated(m.message, 1, m.timeStamp, m.timeStamp)
    ensures Lookup(c, id).Some? ==>
      var v := Lookup(c, id).value;
      v' == Aggregated(v.message, (v.amountCounter + 1) % Modulus,
                       Min(v.firstOccurrence, m.timeStamp), Max(v.lastOccurrence, m.timeStamp))
  {
    match Lookup(c, id)
    case Some(v) =>
      v.(amountCounter := Increment(v.amountCounter),
         firstOccurrence := if m.timeStamp < v.firstOccurrence then m.timeStamp else v.firstOccurrence,
         lastOccurrence := if m.timeStamp > v.lastOccurrence then m.timeStamp else v.lastOccurrence)
    case None => Aggregated(m.message, 1, m.timeStamp, m.timeStamp)
  }

  /** A new identifier is enumerated after all the others; a known one keeps its place. */
  lemma AddedKeys<T>(c: seq<(string, Aggregated<T>)>, m: Stamped<T>, id: string)
    ensures Keys(Added(c, m, id)) == if id in Keys(c) then Keys(c) else Keys(c) + [id]
  {
  }

  /** Every entry has FirstOccurrence <= LastOccurrence. */
  ghost predicate Ordered<T>(c: seq<(string, Aggregated<T>)>)
  {
    forall k :: Lookup(c, k).Some? ==> Lookup(c, k).value.firstOccurrence <= Lookup(c, k).value.lastOccurrence
  }

  lemma AddedKeepsOrdered<T>(c: seq<(string, Aggregated<T>)>, m: Stamped<T>, id: string)
    requires Ordered(c)
    ensures Ordered(Added(c, m, id))
  {
    forall k | Lookup(Added(c, m, id), k).Some?
      ensures Lookup(Added(c, m, id), k).value.firstOccurrence <= Lookup(Added(c, m, id), k).value.lastOccurrence
    {
      AddedEntry(c, m, id, k);
    }
  }

  // ---------------------------------------------------------------------------
  // Reference: the collection as a function of the additions since the last Clear

  /** The collection after the additions `h`, in order, starting from an empty one. */
  function Replay<T>(h: seq<(string, Stamped<T>)>): seq<(string, Aggregated<T>)>
  {
    if |h| == 0 then [] else Added(Replay(h[..|h| - 1]), h[|h| - 1].1, h[|h| - 1].0)
  }

  /** The time stamps added under identifier k, in order. */
  function Stamps<T>(h: seq<(string, Stamped<T>)>, k: string): seq<int>
  {
    if |h| == 0 then []
    else Stamps(h[..|h| - 1], k) + (if h[|h| - 1].0 == k then [h[|h| - 1].1.timeStamp] else [])
  }

  /** The message of the first addition under identifier k. */
  function FirstMessage<T>(h: seq<(string, Stamped<T>)>, k: string): T
    requires |Stamps(h, k)| > 0
  {
    if |Stamps(h[..|h| - 1], k)| > 0 then FirstMessage(h[..|h| - 1], k) else h[|h| - 1].1.message
  }

  function MinOf(s: seq<int>): int
    requires |s| > 0
  {
    if |s| == 1 then s[0] else Min(MinOf(s[..|s| - 1]), s[|s| - 1])
  }

  function MaxOf(s: seq<int>): int
    requires |s| > 0
  {
    if |s| == 1 then s[0] else Max(MaxOf(s[..|s| - 1]), s[|s| - 1])
  }

  lemma {:induction false} MinOfAtMostMaxOf(s: seq<int>)
    requires |s| > 0
    ensures MinOf(s) <= MaxOf(s)
  {
    if |s| > 1 {
      MinOfAtMostMaxOf(s[..|s| - 1]);
    }
  }

  /** The entry v sums up the time stamps s added under its identifier, the first of them with message fm. */
  ghost predicate Summarises<T>(v: Aggregated<T>, s: seq<int>, fm: T)
  {
    |s| > 0 && v.amountCounter == |s| % Modulus && v.firstOccurrence == MinOf(s) && v.lastOccurrence == MaxOf(s)
    && v.message == fm
  }

  /**
   * What the collection holds after a sequence of additions: an entry for
   * exactly the identifiers added, whose counter is the number of additions
   * under it (modulo 2^32), whose time stamps are the least and the greatest
   * added under it, and whose message is the first one added under it.
   */
  lemma {:induction false} ReplayEntry<T>(h: seq<(string, Stamped<T>)>, k: string)
    ensures var s := Stamps(h, k);
      && (Lookup(Replay(h), k).None? <==> |s| == 0)
      && (Lookup(Replay(h), k).Some? ==> Summarises(Lookup(Replay(h), k).value, s, FirstMessage(h, k)))
  {
    if |h| > 0 {
      var p, last := h[..|h| - 1], h[|h| - 1];
      ReplayEntry(p, k);
      var sp := Stamps(p, k);
      var fm := if |sp| > 0 then FirstMessage(p, k) else last.1.message;
      AddedStep(Replay(p), last.1, last.0, k, sp, fm);
      assert Stamps(h, k) == sp + (if last.0 == k then [last.1.timeStamp] else []);
      assert |Stamps(h, k)| > 0 ==> FirstMessage(h, k) == fm;
    }
  }

  /** ReplayEntry's step: one addition keeps each entry a summary of its time stamps. */
  lemma AddedStep<T>(c: seq<(string, Aggregated<T>)>, m: Stamped<T>, id: string, k: string, s: seq<int>, fm: T)
    requires Lookup(c, k).None? <==> |s| == 0
    requires Lookup(c, k).Some? ==> Summarises(Lookup(c, k).value, s, fm)
    requires |s| == 0 && id == k ==> fm == m.message
    ensures var s' := s + (if id == k then [m.timeStamp] else []);
      && (Lookup(Added(c, m, id), k).None? <==> |s'| == 0)
      && (Lookup(Added(c, m, id), k).Some? ==> Summarises(Lookup(Added(c, m, id), k).value, s', fm))
  {
    AddedEntry(c, m, id, k);
    if id == k {
      var s' := s + [m.timeStamp];
      assert s'[..|s'| - 1] == s && s'[|s'| - 1] == m.timeStamp;
      if |s| > 0 {
        IncrementModulo(|s|);
      }
    } else {
      assert s + [] == s;
    }
  }

  lemma IncrementModulo(n: nat)
    ensures (n % Modulus + 1) % Modulus == (n + 1) % Modulus
  {
  }

  /** Hence FirstOccurrence <= LastOccurrence for every entry. */
  lemma ReplayOrdered<T>(h: seq<(string, Stamped<T>)>)
    ensures Ordered(Replay(h))
  {
    forall k | Lookup(Replay(h), k).Some?
      ensures Lookup(Replay(h), k).value.firstOccurrence <= Lookup(Replay(h), k).value.lastOccurrence
    {
      ReplayEntry(h, k);
      MinOfAtMostMaxOf(Stamps(h, k));
    }
  }

  // ---------------------------------------------------------------------------
  // The class

  class MessageAggregator<T> {
    var collection: seq<(string, Aggregated<T>)>
    /** The additions since construction or the last Clear. */
    ghost var history: seq<(string, Stamped<T>)>

    ghost predicate Valid()
      reads this
    {
      collection == Replay(history)
    }

    constructor()
      ensures Valid() && collection == [] && history == []
    {
      collection := [];
      history := [];
    }

    /** AddMessage: TryGetValue, then update the entry in place or add a new one. */
    method AddMessage(message: Stamped<T>, messageIdentifier: string)
      requires Valid()
      modifies this
      ensures Valid() && collection == Added(old(collection), message, messageIdentifier)
      ensures history == old(history) + [(messageIdentifier, message)]
    {
      var value := Lookup(collection, messageIdentifier);
      if value.Some? {
        var v := value.value;
        v := v.(amountCounter := Increment(v.amountCounter));
        if message.timeStamp < v.firstOccurrence {
          v := v.(firstOccurrence := message.timeStamp);
        }
        if message.timeStamp > v.lastOccurrence {
          v := v.(lastOccurrence := message.timeStamp);
        }
        collection := Put(collection, messageIdentifier, v);
      } else {
        var newTracker := Aggregated(message.message, 1, message.timeStamp, message.timeStamp);
        collection := Put(collection, messageIdentifier, newTracker);
      }
      history := history + [(messageIdentifier, message)];
      assert history[..|history| - 1] == old(history);
    }

    /** Collection.Clear(). */
    method Clear()
      modifies this
      ensures Valid() && collection == [] && history == []
    {
      collection := [];
      history := [];
    }
  }

  // ---------------------------------------------------------------------------
  // Draining a queue of time-stamped texts into a fresh aggregator

  /** The additions a drain makes for the messages q: each keyed by its text. */
  function Additions(q: seq<Stamped<string>>): (h: seq<(string, Stamped<string>)>)
    ensures |h| == |q| && forall i :: 0 <= i < |q| ==> h[i] == (q[i].message, q[i])
  {
    if |q| == 0 then [] else Additions(q[..|q| - 1]) + [(q[|q| - 1].message, q[|q| - 1])]
  }

  /** The number of messages `limit` dequeue attempts take off a queue of length n. */
  function Drained(n: nat, limit: nat): (k: nat)
    ensures k <= limit && k <= n && (k < limit ==> k == n)
  {
    if n <= limit then n else limit
  }

  /** An aggregator never has more entries than there were additions. */
  lemma {:induction false} ReplaySize<T>(h: seq<(string, Stamped<T>)>)
    ensures |Replay(h)| <= |h|
  {
    if |h| > 0 {
      var p := h[..|h| - 1];
      ReplaySize(p);
      AddedKeys(Replay(p), h[|h| - 1].1, h[|h| - 1].0);
    }
  }

  /**
   * A drain's aggregator: an entry per distinct text among the at most
   * `limit` messages drained, counting the copies of that text (modulo 2^32),
   * with the least and the greatest of their time stamps, and the text
   * itself as its message; so at most `limit` entries.
   */
  lemma DrainSummary(q: seq<Stamped<string>>, limit: nat, text: string)
    ensures var h := Additions(q[..Drained(|q|, limit)]);
      var c := Replay(h);
      && |c| <= limit
      && (Lookup(c, text).Some? <==> |Stamps(h, text)| > 0)
      && (Lookup(c, text).Some? ==> Summarises(Lookup(c, text).value, Stamps(h, text), FirstMessage(h, text)))
      && (Lookup(c, text).Some? ==> Lookup(c, text).value.message == text)
  {
    var d := q[..Drained(|q|, limit)];
    var h := Additions(d);
    ReplaySize(h);
    ReplayEntry(h, text);
    if |Stamps(h, text)| > 0 {
      FirstMessageIsText(d, text);
    }
  }

  /** The text a drained message is stored under is its own text. */
  lemma {:induction false} FirstMessageIsText(h: seq<Stamped<string>>, text: string)
    requires |Stamps(Additions(h), text)| > 0
    ensures FirstMessage(Additions(h), text) == text
  {
    var a := Additions(h);
    var p := h[..|h| - 1];
    assert a[..|a| - 1] == Additions(p);
    if |Stamps(Additions(p), text)| > 0 {
      FirstMessageIsText(p, text);
    }
  }

  /**
   * The dequeue loop of the hosts: `limit` TryDequeue attempts, each message
   * added to a new aggregator under its own text (standing for the SHA-1
   * identifier of the text, taken as injective).
   */
  method Drain(queue: seq<Stamped<string>>, limit: nat) returns (rest: seq<Stamped<string>>, aggregator: MessageAggregator<string>)
    ensures fresh(aggregator) && aggregator.Valid()
    ensures rest == queue[Drained(|queue|, limit)..] && aggregator.history == Additions(queue[..Drained(|queue|, limit)])
  {
    aggregator := new MessageAggregator<string>();
    rest := queue;
    var i := 0;
    while i < limit
      invariant 0 <= i <= limit
      invariant fresh(aggregator) && aggregator.Valid()
      invariant rest == queue[Drained(|queue|, i)..] && aggregator.history == Additions(queue[..Drained(|queue|, i)])
    {
      if |rest| > 0 {
        var msg := rest[0];
        assert queue[..Drained(|queue|, i) + 1] == queue[..Drained(|queue|, i)] + [msg];
        rest := rest[1..];
        aggregator.AddMessage(msg, msg.message);
      }
      i := i + 1;
    }
  }

  /** Pairs each queued text with the time stamp it was enqueued with (the engine models keep the texts only). */
  function Timestamped(texts: seq<string>, stamps: seq<int>): (q: seq<Stamped<string>>)
    requires |stamps| == |texts|
    ensures |q| == |texts| && forall i :: 0 <= i < |q| ==> q[i] == Stamped(stamps[i], texts[i])
  {
    if |texts| == 0 then [] else Timestamped(texts[..|texts| - 1], stamps[..|stamps| - 1]) + [Stamped(stamps[|stamps| - 1], texts[|texts| - 1])]
  }

  /** `{Message} | {AmountCounter} times from {FirstOccurrence} to {LastOccurrence}`, the DateTime rendering given. */
  function TrackerLine(v: Aggregated<string>, dateText: int -> string): string
  {
    v.message + " | " + NatToString(v.amountCounter) + " times from " + dateText(v.firstOccurrence) + " to " + dateText(v.lastOccurrence)
  }

  /** One line per entry, in enumeration order. */
  function TrackerLines(c: seq<(string, Aggregated<string>)>, dateText: int -> string): (lines: seq<string>)
    ensures |lines| == |c| && forall i :: 0 <= i < |c| ==> lines[i] == TrackerLine(c[i].1, dateText)
  {
    if |c| == 0 then [] else TrackerLines(c[..|c| - 1], dateText) + [TrackerLine(c[|c| - 1].1, dateText)]
  }

  /** The hosts' loop over the aggregator's trackers, collecting the line written for each. */
  method WriteTrackers(c: seq<(string, Aggregated<string>)>, dateText: int -> string) returns (lines: seq<string>)
    ensures lines == TrackerLines(c, dateText)
  {
    lines := [];
    var i := 0;
    while i < |c|
      invariant 0 <= i <= |c| && lines == TrackerLines(c[..i], dateText)
    {
      assert c[..i + 1][..i] == c[..i];
      lines := lines + [TrackerLine(c[i].1, dateText)];
      i := i + 1;
    }
    assert c[..i] == c;
  }
}
