/**
 * Splitting a list of events into Azure table batches, as the table event
 * store's StoreEventsAsync and the quick analyzer's event processor both do.
 * Events are grouped by PartitionKey; a batch holds at most
 * TableServiceBatchMaximumOperations (100) inserts, and a full batch for a
 * key is continued under an alias name recorded for that key.
 *
 * Events are given by their partition keys; a batch records the positions,
 * in the input list, of the events it inserts.
 */
module TableBatches {
  import opened Common
  import opened Assoc

  /** TableConstants.TableServiceBatchMaximumOperations. */
  const MaxOps: nat := 100
  const Addon: string := "X"
  /** The message of the ArgumentException Dictionary.Add throws for a key it already holds. */
  const DuplicateKeyText: string := "An item with " + "the same key " + "has already " + "been added."

  type Batch = seq<nat>

  /** The two dictionaries of the loop: batch name to batch, and partition key to its current alias. */
  datatype Batching = Batching(batches: seq<(string, Batch)>, names: seq<(string, string)>)

  /** GetNewBatchName as the source writes it, or as evidently intended. */
  datatype Naming = AsWritten | Corrected

  /**
   * GetNewBatchName as written: with no alias, records key + "X" and returns
   * it; with alias A, records A + "X" but returns A itself.
   */
  function GetNewBatchName(orginalName: string, names: seq<(string, string)>): (r: (string, seq<(string, string)>))
    ensures Lookup(names, orginalName).None? ==>
      r.0 == orginalName + Addon && Lookup(r.1, orginalName) == Some(orginalName + Addon)
    ensures Lookup(names, orginalName).Some? ==>
      r.0 == Lookup(names, orginalName).value && Lookup(r.1, orginalName) == Some(r.0 + Addon)
  {
    match Lookup(names, orginalName)
    case Some(currentAlias) =>
      LookupPut(names, orginalName, currentAlias + Addon, orginalName);
      (currentAlias, Put(names, orginalName, currentAlias + Addon))
    case None =>
      var currentAlias := orginalName + Addon;
      LookupPut(names, orginalName, currentAlias, orginalName);
      (currentAlias, Put(names, orginalName, currentAlias))
  }

  /** GetNewBatchName as intended: the name returned is always the alias it records. */
  function CorrectedBatchName(orginalName: string, names: seq<(string, string)>): (r: (string, seq<(string, string)>))
    ensures Lookup(names, orginalName).None? ==> r.0 == orginalName + Addon
    ensures Lookup(names, orginalName).Some? ==> r.0 == Lookup(names, orginalName).value + Addon
    ensures Lookup(r.1, orginalName) == Some(r.0)
  {
    var currentAlias := match Lookup(names, orginalName)
      case Some(a) => a + Addon
      case None => orginalName + Addon;
    LookupPut(names, orginalName, currentAlias, orginalName);
    (currentAlias, Put(names, orginalName, currentAlias))
  }

  function NewBatchName(orginalName: string, names: seq<(string, string)>, naming: Naming): (string, seq<(string, string)>)
  {
    if naming == AsWritten then GetNewBatchName(orginalName, names) else CorrectedBatchName(orginalName, names)
  }

  /** The batch name an event with partition key k goes to first: k's alias, or k itself. */
  function BatchNameFor(names: seq<(string, string)>, k: string): string
  {
    match Lookup(names, k)
    case Some(a) => a
    case None => k
  }

  /** The batches with a batch under `name`, added empty when absent. */
  function WithBatch(bs: seq<(string, Batch)>, name: string): (r: seq<(string, Batch)>)
    ensures name in Keys(r)
  {
    if name in Keys(bs) then bs
    else
      assert Keys(bs + [(name, [])])[|bs|] == name;
      bs + [(name, [])]
  }

  /**
   * One iteration of the loop for the event at position i: a null partition
   * key makes TryGetValue throw; otherwise the event is placed.
   */
  function Step(s: Batching, key: NString, i: nat, naming: Naming): Result<Batching>
  {
    match key
    case None => Err(ArgumentNull("key"))
    case Some(k) => Place(WithBatch(s.batches, BatchNameFor(s.names, k)), s.names, BatchNameFor(s.names, k), k, i, naming)
  }

  /**
   * Placing event i with partition key k once the batch `name` exists: a
   * full batch is replaced by a new one under the name GetNewBatchName gives,
   * which Dictionary.Add rejects when taken; otherwise the event is inserted.
   */
  function Place(bs: seq<(string, Batch)>, names: seq<(string, string)>, name: string, k: string, i: nat, naming: Naming): Result<Batching>
    requires name in Keys(bs)
  {
    if |Lookup(bs, name).value| == MaxOps then Overflow(bs, NewBatchName(k, names, naming), i)
    else Ok(Batching(Insert(bs, name, i), names))
  }

  /** The new batch for event i under the new name nn.0, with the aliases nn.1. */
  function Overflow(bs: seq<(string, Batch)>, nn: (string, seq<(string, string)>), i: nat): Result<Batching>
  {
    if nn.0 in Keys(bs) then Err(Argument(DuplicateKeyText)) else Ok(Batching(bs + [(nn.0, [i])], nn.1))
  }

  /** batchOperation.Insert: event i goes to the end of the batch `name`. */
  function Insert(bs: seq<(string, Batch)>, name: string, i: nat): seq<(string, Batch)>
    requires name in Keys(bs)
  {
    Put(bs, name, Lookup(bs, name).value + [i])
  }

  /** The loop over the whole list; the first exception ends it. */
  function Split(keys: seq<NString>, naming: Naming): Result<Batching>
  {
    if |keys| == 0 then Ok(Batching([], []))
    else
      match Split(keys[..|keys| - 1], naming)
      case Err(x) => Err(x)
      case Ok(s) => Step(s, keys[|keys| - 1], |keys| - 1, naming)
  }

  // ---------------------------------------------------------------------------
  // Every batch is within the limit, and every event is in exactly one batch, in order

  /** The number of batches holding position j. */
  function Holders(bs: seq<(string, Batch)>, j: nat): nat
  {
    if |bs| == 0 then 0 else (if j in bs[0].1 then 1 else 0) + Holders(bs[1..], j)
  }

  /** A batch of positions below n, in strictly increasing (arrival) order. */
  predicate InOrder(b: Batch, n: nat)
  {
    (forall t, u :: 0 <= t < u < |b| ==> b[t] < b[u]) && (forall t :: 0 <= t < |b| ==> b[t] < n)
  }

  /** The batches after n events: distinct names, at most MaxOps each, in order, and each event in exactly one. */
  ghost predicate Partitions(bs: seq<(string, Batch)>, n: nat)
  {
    && UniqueKeys(bs)
    && (forall e :: 0 <= e < |bs| ==> |bs[e].1| <= MaxOps && InOrder(bs[e].1, n))
    && (forall j :: 0 <= j < n ==> Holders(bs, j) == 1)
  }

  lemma {:induction false} HoldersAppend(bs: seq<(string, Batch)>, x: (string, Batch), j: nat)
    ensures Holders(bs + [x], j) == Holders(bs, j) + (if j in x.1 then 1 else 0)
  {
    if |bs| > 0 {
      assert (bs + [x])[1..] == bs[1..] + [x];
      HoldersAppend(bs[1..], x, j);
    }
  }

  lemma {:induction false} HoldersUpdate(bs: seq<(string, Batch)>, e: nat, x: (string, Batch), j: nat)
    requires e < |bs|
    ensures Holders(bs[e := x], j) + (if j in bs[e].1 then 1 else 0) == Holders(bs, j) + (if j in x.1 then 1 else 0)
  {
    if e > 0 {
      assert bs[e := x][1..] == bs[1..][e - 1 := x];
      HoldersUpdate(bs[1..], e - 1, x, j);
    } else {
      assert bs[e := x][1..] == bs[1..];
    }
  }

  lemma {:induction false} HoldersNone(bs: seq<(string, Batch)>, n: nat)
    requires forall e :: 0 <= e < |bs| ==> InOrder(bs[e].1, n)
    ensures Holders(bs, n) == 0
  {
    if |bs| > 0 {
      assert n !in bs[0].1;
      assert forall e :: 0 <= e < |bs[1..]| ==> bs[1..][e] == bs[e + 1];
      HoldersNone(bs[1..], n);
    }
  }

  lemma KeysAppend<V>(bs: seq<(string, V)>, x: (string, V))
    ensures Keys(bs + [x]) == Keys(bs) + [x.0]
  {
    assert forall t :: 0 <= t < |bs| ==> (bs + [x])[t] == bs[t];
  }

  /** Adding an empty batch under a new name keeps the batches a partition. */
  lemma AddEmptyPartitions(bs: seq<(string, Batch)>, n: nat, name: string)
    requires Partitions(bs, n) && name !in Keys(bs)
    ensures Partitions(bs + [(name, [])], n)
  {
    var r := bs + [(name, [])];
    KeysAppend(bs, (name, []));
    forall t, u | 0 <= t < u < |r| ensures r[t].0 != r[u].0 {
      if u == |bs| {
        assert Keys(bs)[t] == r[t].0;
      }
    }
    forall j | 0 <= j < n ensures Holders(r, j) == 1 {
      HoldersAppend(bs, (name, []), j);
    }
  }

  /** Inserting event n into a batch of the partition that is not full makes a partition of n + 1 events. */
  lemma InsertPartitions(bs: seq<(string, Batch)>, n: nat, name: string)
    requires Partitions(bs, n) && name in Keys(bs) && |Lookup(bs, name).value| < MaxOps
    ensures Partitions(Insert(bs, name, n), n + 1)
  {
    var e :| 0 <= e < |bs| && Keys(bs)[e] == name;
    LookupAt(bs, e);
    PutAt(bs, e, bs[e].1 + [n]);
    UpdatePartitions(bs, n, e);
  }

  /** InsertPartitions on the batch at index e. */
  lemma UpdatePartitions(bs: seq<(string, Batch)>, n: nat, e: nat)
    requires Partitions(bs, n) && e < |bs| && |bs[e].1| < MaxOps
    ensures Partitions(bs[e := (bs[e].0, bs[e].1 + [n])], n + 1)
  {
    var x := (bs[e].0, bs[e].1 + [n]);
    var r := bs[e := x];
    forall t, u | 0 <= t < u < |r| ensures r[t].0 != r[u].0 {
      assert r[t].0 == bs[t].0 && r[u].0 == bs[u].0;
    }
    forall f | 0 <= f < |r| ensures |r[f].1| <= MaxOps && InOrder(r[f].1, n + 1) {
      if f != e {
        assert r[f] == bs[f];
      }
    }
    HoldersNone(bs, n);
    forall j | 0 <= j < n + 1 ensures Holders(r, j) == 1 {
      HoldersUpdate(bs, e, x, j);
    }
  }

  /** Adding the new batch [n] under a new name makes a partition of n + 1 events. */
  lemma OverflowPartitions(bs: seq<(string, Batch)>, n: nat, name: string)
    requires Partitions(bs, n) && name !in Keys(bs)
    ensures Partitions(bs + [(name, [n])], n + 1)
  {
    var r := bs + [(name, [n])];
    KeysAppend(bs, (name, [n]));
    forall t, u | 0 <= t < u < |r| ensures r[t].0 != r[u].0 {
      if u == |bs| {
        assert Keys(bs)[t] == r[t].0;
      }
    }
    HoldersNone(bs, n);
    forall j | 0 <= j < n + 1 ensures Holders(r, j) == 1 {
      HoldersAppend(bs, (name, [n]), j);
    }
  }

  lemma WithBatchPartitions(bs: seq<(string, Batch)>, n: nat, name: string)
    requires Partitions(bs, n)
    ensures Partitions(WithBatch(bs, name), n)
  {
    if name !in Keys(bs) {
      AddEmptyPartitions(bs, n, name);
    }
  }

  /** Placing event n keeps the batches a partition. */
  lemma PlacePartitions(bs: seq<(string, Batch)>, names: seq<(string, string)>, name: string, k: string, n: nat, naming: Naming)
    requires name in Keys(bs) && Partitions(bs, n) && Place(bs, names, name, k, n, naming).Ok?
    ensures Partitions(Place(bs, names, name, k, n, naming).value.batches, n + 1)
  {
    if |Lookup(bs, name).value| == MaxOps {
      OverflowPartitions(bs, n, NewBatchName(k, names, naming).0);
    } else {
      InsertPartitions(bs, n, name);
    }
  }

  /** One step keeps the batches a partition of the events seen. */
  lemma StepPartitions(s: Batching, key: NString, i: nat, naming: Naming)
    requires Partitions(s.batches, i) && Step(s, key, i, naming).Ok?
    ensures Partitions(Step(s, key, i, naming).value.batches, i + 1)
  {
    var name := BatchNameFor(s.names, key.value);
    WithBatchPartitions(s.batches, i, name);
    PlacePartitions(WithBatch(s.batches, name), s.names, name, key.value, i, naming);
  }

  /**
   * Whenever the loop gets through the list, no batch holds more than
   * MaxOps inserts and every event is inserted into exactly one batch, the
   * batches listing their events in arrival order.
   */
  lemma {:induction false} SplitPartitions(keys: seq<NString>, naming: Naming)
    requires Split(keys, naming).Ok?
    ensures Partitions(Split(keys, naming).value.batches, |keys|)
  {
    if |keys| > 0 {
      var p := keys[..|keys| - 1];
      SplitPartitions(p, naming);
      StepPartitions(Split(p, naming).value, keys[|keys| - 1], |keys| - 1, naming);
    }
  }

  /** A null partition key anywhere fails the loop. */
  lemma {:induction false} NullKeyFails(keys: seq<NString>, naming: Naming, i: nat)
    requires i < |keys| && keys[i].None?
    ensures Split(keys, naming).Err?
  {
    if i < |keys| - 1 {
      assert keys[..|keys| - 1][i] == keys[i];
      NullKeyFails(keys[..|keys| - 1], naming, i);
    }
  }

  // ---------------------------------------------------------------------------
  // One partition key repeated

  /** Xs(m): "X" m times. */
  function Xs(m: nat): (r: string)
    ensures |r| == m
  {
    if m == 0 then "" else Xs(m - 1) + Addon
  }

  /** The positions lo, lo + 1, ..., hi - 1. */
  function Range(lo: nat, hi: nat): (r: Batch)
    requires lo <= hi
    ensures |r| == hi - lo && forall t :: 0 <= t < |r| ==> r[t] == lo + t
  {
    seq(hi - lo, t requires 0 <= t < hi - lo => lo + t)
  }

  function Min(a: nat, b: nat): nat { if a <= b then a else b }

  /** The batches n >= 1 events with one partition key k end in: k, kX, kXX, ... with 100 events each but the last. */
  function Chunks(k: string, n: nat): (r: seq<(string, Batch)>)
    requires n >= 1
    ensures |r| == (n - 1) / MaxOps + 1
  {
    seq((n - 1) / MaxOps + 1, j requires 0 <= j <= (n - 1) / MaxOps => (k + Xs(j), Range(MaxOps * j, Min(MaxOps * (j + 1), n))))
  }

  /** The alias recorded for k after n >= 1 such events (when the corrected naming is used). */
  function ChunkNames(k: string, n: nat): seq<(string, string)>
    requires n >= 1
  {
    if (n - 1) / MaxOps == 0 then [] else [(k, k + Xs((n - 1) / MaxOps))]
  }

  lemma ChunkNamesUnique(k: string, n: nat)
    requires n >= 1
    ensures UniqueKeys(Chunks(k, n))
  {
    var c := Chunks(k, n);
    forall t, u | 0 <= t < u < |c| ensures c[t].0 != c[u].0 {
      assert |c[t].0| == |k| + t && |c[u].0| == |k| + u;
    }
  }

  /** The last batch of Chunks(k, n): the name with (n - 1) / MaxOps X's, holding from MaxOps times that on. */
  lemma ChunkLast(k: string, n: nat)
    requires n >= 1
    ensures var q := (n - 1) / MaxOps;
      && 1 <= n - MaxOps * q <= MaxOps
      && Lookup(Chunks(k, n), k + Xs(q)) == Some(Range(MaxOps * q, n))
  {
    var q := (n - 1) / MaxOps;
    var c := Chunks(k, n);
    ChunkNamesUnique(k, n);
    assert c[q] == (k + Xs(q), Range(MaxOps * q, n));
    LookupAt(c, q);
  }

  /** A name with more X's than Chunks(k, n) has batches is not among them. */
  lemma ChunkAbsent(k: string, n: nat, m: nat)
    requires n >= 1 && m > (n - 1) / MaxOps
    ensures k + Xs(m) !in Keys(Chunks(k, n))
  {
    var c := Chunks(k, n);
    forall t | 0 <= t < |c| ensures Keys(c)[t] != k + Xs(m) {
      assert |Keys(c)[t]| == |k| + t;
    }
  }

  /** Event n goes to the last batch when that has room. */
  lemma ChunksGrow(k: string, n: nat)
    requires n >= 1 && n % MaxOps != 0
    ensures var q := (n - 1) / MaxOps;
      (n + 1 - 1) / MaxOps == q
      && Chunks(k, n + 1) == Chunks(k, n)[q := (k + Xs(q), Range(MaxOps * q, n) + [n])]
  {
    var q := (n - 1) / MaxOps;
    var c, c' := Chunks(k, n), Chunks(k, n + 1);
    assert MaxOps * q < n < MaxOps * (q + 1);
    assert |c'| == |c|;
    forall j | 0 <= j < |c'| ensures c[q := (k + Xs(q), Range(MaxOps * q, n) + [n])][j] == c'[j] {
      if j < q {
        assert MaxOps * (j + 1) <= MaxOps * q;
        assert Min(MaxOps * (j + 1), n + 1) == Min(MaxOps * (j + 1), n);
      } else {
        assert Min(MaxOps * (q + 1), n + 1) == n + 1 && Min(MaxOps * (q + 1), n) == n;
        assert Range(MaxOps * q, n + 1) == Range(MaxOps * q, n) + [n];
      }
    }
  }

  /** Event n opens a new batch with one more X when the last one is full. */
  lemma ChunksOpen(k: string, n: nat)
    requires n >= 1 && n % MaxOps == 0
    ensures var q := (n - 1) / MaxOps;
      (n + 1 - 1) / MaxOps == q + 1
      && Chunks(k, n + 1) == Chunks(k, n) + [(k + Xs(q + 1), [n])]
  {
    var q := (n - 1) / MaxOps;
    var c, c' := Chunks(k, n), Chunks(k, n + 1);
    assert n == MaxOps * (q + 1);
    forall j | 0 <= j < |c'| ensures (c + [(k + Xs(q + 1), [n])])[j] == c'[j] {
      if j <= q {
        assert MaxOps * (j + 1) <= n;
        assert Min(MaxOps * (j + 1), n + 1) == Min(MaxOps * (j + 1), n);
      } else {
        assert Min(MaxOps * (q + 2), n + 1) == n + 1;
        assert Range(n, n + 1) == [n];
      }
    }
  }

  /** k followed by one X more. */
  lemma XsStep(k: string, m: nat)
    ensures k + Xs(m) + Addon == k + Xs(m + 1)
  {
  }

  /** The step from n to n + 1 events with key k, for the corrected naming, or for the as-written one below 200. */
  lemma OneMoreOfKey(k: string, n: nat, naming: Naming)
    requires n >= 1 && (naming == Corrected || n < 2 * MaxOps)
    ensures Step(Batching(Chunks(k, n), ChunkNames(k, n)), Some(k), n, naming) == Ok(Batching(Chunks(k, n + 1), ChunkNames(k, n + 1)))
  {
    var q := (n - 1) / MaxOps;
    var c, names := Chunks(k, n), ChunkNames(k, n);
    var name := k + Xs(q);
    assert k + Xs(0) == k;
    assert BatchNameFor(names, k) == name;
    ChunkLast(k, n);
    assert name in Keys(c);
    assert WithBatch(c, name) == c;
    if n % MaxOps == 0 {
      OneMoreOfKeyFull(k, n, naming);
    } else {
      OneMoreOfKeyOpen(k, n, naming);
    }
  }

  /** OneMoreOfKey when the last batch is full: a new batch under the next alias. */
  lemma OneMoreOfKeyFull(k: string, n: nat, naming: Naming)
    requires n >= 1 && (naming == Corrected || n < 2 * MaxOps) && n % MaxOps == 0
    ensures var q := (n - 1) / MaxOps;
      && k + Xs(q) in Keys(Chunks(k, n))
      && Place(Chunks(k, n), ChunkNames(k, n), k + Xs(q), k, n, naming) == Ok(Batching(Chunks(k, n + 1), ChunkNames(k, n + 1)))
  {
    var q := (n - 1) / MaxOps;
    var c, names := Chunks(k, n), ChunkNames(k, n);
    var name := k + Xs(q);
    ChunkLast(k, n);
    ChunksOpen(k, n);
    XsStep(k, q);
    var nn := NewBatchName(k, names, naming);
    assert nn.0 == k + Xs(q + 1) && nn.1 == ChunkNames(k, n + 1);
    ChunkAbsent(k, n, q + 1);
    assert Place(c, names, name, k, n, naming) == Overflow(c, nn, n);
  }

  /** OneMoreOfKey when the last batch has room: the event joins it. */
  lemma OneMoreOfKeyOpen(k: string, n: nat, naming: Naming)
    requires n >= 1 && n % MaxOps != 0
    ensures var q := (n - 1) / MaxOps;
      && k + Xs(q) in Keys(Chunks(k, n))
      && Place(Chunks(k, n), ChunkNames(k, n), k + Xs(q), k, n, naming) == Ok(Batching(Chunks(k, n + 1), ChunkNames(k, n + 1)))
  {
    var q := (n - 1) / MaxOps;
    var c, names := Chunks(k, n), ChunkNames(k, n);
    var name := k + Xs(q);
    ChunkLast(k, n);
    ChunksGrow(k, n);
    ChunkNamesUnique(k, n);
    PutAt(c, q, Range(MaxOps * q, n) + [n]);
    assert Place(c, names, name, k, n, naming) == Ok(Batching(Insert(c, name, n), names));
  }

  /** n events, all with partition key k. */
  function Repeat(k: string, n: nat): (r: seq<NString>)
    ensures |r| == n && forall t :: 0 <= t < n ==> r[t] == Some(k)
  {
    seq(n, _ => Some(k))
  }

  lemma RepeatSnoc(k: string, m: nat, n: nat)
    requires n == m + 1
    ensures Repeat(k, n) == Repeat(k, m) + [Some(k)]
  {
  }

  /** Split on a list whose prefix splits to s is one Step further. */
  lemma SplitLast(keys: seq<NString>, naming: Naming, s: Batching)
    requires |keys| > 0 && Split(keys[..|keys| - 1], naming) == Ok(s)
    ensures Split(keys, naming) == Step(s, keys[|keys| - 1], |keys| - 1, naming)
  {
  }

  /** Split on a list with an Ok prefix is one Step further. */
  lemma SplitSnoc(p: seq<NString>, x: NString, naming: Naming, s: Batching)
    requires Split(p, naming) == Ok(s)
    ensures Split(p + [x], naming) == Step(s, x, |p|, naming)
  {
    assert (p + [x])[..|p|] == p;
  }

  /** n >= 1 events with one partition key end in Chunks and ChunkNames: always with the corrected naming, up to 200 as written. */
  lemma {:induction false} SingleKey(k: string, n: nat, naming: Naming)
    requires n >= 1 && (naming == Corrected || n <= 2 * MaxOps)
    ensures Split(Repeat(k, n), naming) == Ok(Batching(Chunks(k, n), ChunkNames(k, n)))
    decreases n, 1
  {
    if n == 1 {
      SingleKeyOne(k, n, naming);
    } else {
      SplitRepeatStep(k, n - 1, n, naming);
    }
  }

  /** The induction step of SingleKey: from m events to m + 1. */
  lemma {:induction false} SplitRepeatStep(k: string, m: nat, n: nat, naming: Naming)
    requires m >= 1 && n == m + 1 && (naming == Corrected || m < 2 * MaxOps)
    ensures Split(Repeat(k, n), naming) == Ok(Batching(Chunks(k, n), ChunkNames(k, n)))
    decreases n, 0
  {
    SingleKey(k, m, naming);
    assert Chunks(k, m + 1) == Chunks(k, n) && ChunkNames(k, m + 1) == ChunkNames(k, n);
    RepeatSnoc(k, m, n);
    SplitSnoc(Repeat(k, m), Some(k), naming, Batching(Chunks(k, m), ChunkNames(k, m)));
    OneMoreOfKey(k, m, naming);
  }

  lemma SingleKeyOne(k: string, n: nat, naming: Naming)
    requires n == 1
    ensures Split(Repeat(k, n), naming) == Ok(Batching(Chunks(k, n), ChunkNames(k, n)))
  {
    assert Repeat(k, 1) == [] + [Some(k)];
    assert k + Xs(0) == k && Range(0, 1) == [0];
    assert Chunks(k, 1) == [(k, [0])];
    FirstStep(k, naming);
    SplitSnoc([], Some(k), naming, Batching([], []));
  }

  /** The first event opens the batch named after its key. */
  lemma FirstStep(k: string, naming: Naming)
    ensures Step(Batching([], []), Some(k), 0, naming) == Ok(Batching([(k, [0])], []))
  {
    var b0: seq<(string, Batch)> := [(k, [])];
    assert BatchNameFor([], k) == k;
    assert WithBatch([], k) == b0;
    assert Lookup(b0, k).value + [0] == [0];
    PutAt(b0, 0, [0]);
    assert Insert(b0, k, 0) == [(k, [0])];
  }

  /** As written, the step for the 201st event with key k: the alias returned is kX, a name already taken. */
  lemma FullSecondBatchFails(k: string)
    ensures Step(Batching(Chunks(k, 2 * MaxOps), ChunkNames(k, 2 * MaxOps)), Some(k), 2 * MaxOps, AsWritten)
         == Err(Argument(DuplicateKeyText))
  {
    var n := 2 * MaxOps;
    var c, names := Chunks(k, n), ChunkNames(k, n);
    var name := k + Xs(1);
    assert names == [(k, name)];
    assert BatchNameFor(names, k) == name;
    ChunkLast(k, n);
    assert name in Keys(c);
    assert WithBatch(c, name) == c;
    assert NewBatchName(k, names, AsWritten).0 == name;
  }

  /**
   * As written, the 201st event with one partition key fails: the first
   * overflow records alias kX and uses it, the second returns kX again
   * (recording kXX), and Dictionary.Add throws for the name kX it holds.
   */
  lemma TwoHundredFirstFails(k: string)
    ensures Split(Repeat(k, 2 * MaxOps + 1), AsWritten) == Err(Argument(DuplicateKeyText))
  {
    var n := 2 * MaxOps;
    RepeatSnoc(k, n, n + 1);
    SingleKey(k, n, AsWritten);
    SplitSnoc(Repeat(k, n), Some(k), AsWritten, Batching(Chunks(k, n), ChunkNames(k, n)));
    FullSecondBatchFails(k);
  }

  /** With the corrected naming, any number of events with one partition key is split without failing. */
  lemma SingleKeyNeverFails(k: string, n: nat)
    ensures Split(Repeat(k, n), Corrected).Ok?
  {
    if n == 0 {
      assert Repeat(k, n) == [];
    } else {
      SingleKey(k, n, Corrected);
    }
  }

  /** The step AliasSharesBatch turns on: key kX finds k's second batch and joins it. */
  lemma AliasStep(k: string, n: nat, naming: Naming)
    requires n == MaxOps + 1
    ensures && Step(Batching(Chunks(k, n), ChunkNames(k, n)), Some(k + Addon), n, naming).Ok?
      && Lookup(Step(Batching(Chunks(k, n), ChunkNames(k, n)), Some(k + Addon), n, naming).value.batches, k + Addon)
         == Some([MaxOps, MaxOps + 1])
  {
    var c, names := Chunks(k, n), ChunkNames(k, n);
    var name := k + Addon;
    AliasNames(k, n);
    InsertStep(c, names, name, n, naming, [MaxOps]);
    LookupPut(c, name, [MaxOps] + [n], name);
    Pair(MaxOps, n);
  }

  /** After 101 events with key k, kX is already k's second batch, holding event 100, and it is no alias itself. */
  lemma AliasNames(k: string, n: nat)
    requires n == MaxOps + 1
    ensures ChunkNames(k, n) == [(k, k + Addon)] && Lookup(ChunkNames(k, n), k + Addon).None?
    ensures Lookup(Chunks(k, n), k + Addon) == Some([MaxOps])
  {
    assert (n - 1) / MaxOps == 1;
    assert k + Xs(1) == k + Addon;
    assert Lookup(ChunkNames(k, n), k + Addon).None? by {
      assert |k + Addon| != |k|;
    }
    ChunkLast(k, n);
    assert Range(MaxOps, n) == [MaxOps];
  }

  /** An event whose key has no alias and whose batch exists with room is appended to that batch. */
  lemma InsertStep(bs: seq<(string, Batch)>, names: seq<(string, string)>, k: string, i: nat, naming: Naming, v: Batch)
    requires Lookup(bs, k) == Some(v) && |v| < MaxOps && Lookup(names, k).None?
    ensures Step(Batching(bs, names), Some(k), i, naming) == Ok(Batching(Put(bs, k, v + [i]), names))
  {
    assert BatchNameFor(names, k) == k;
    assert WithBatch(bs, k) == bs;
  }

  /**
   * Alias names are not kept apart from real partition keys: after 101
   * events with key k, an event with key kX goes into k's second batch.
   */
  lemma AliasSharesBatch(k: string, naming: Naming)
    ensures var keys := Repeat(k, MaxOps + 1) + [Some(k + Addon)];
      && Split(keys, naming).Ok?
      && Lookup(Split(keys, naming).value.batches, k + Addon) == Some([MaxOps, MaxOps + 1])
  {
    var n := MaxOps + 1;
    SingleKey(k, n, naming);
    SplitSnoc(Repeat(k, n), Some(k + Addon), naming, Batching(Chunks(k, n), ChunkNames(k, n)));
    AliasStep(k, n, naming);
  }

  // ---------------------------------------------------------------------------
  // The loop and the method around it

  /**
   * The batch-building loop, with GetNewBatchName as written (the program)
   * or as intended.
   */
  method BuildBatches(keys: seq<NString>, naming: Naming) returns (r: Result<Batching>)
    ensures r == Split(keys, naming)
  {
    var batches: seq<(string, Batch)> := [];
    var batchNames: seq<(string, string)> := [];
    var i := 0;
    while i < |keys|
      invariant 0 <= i <= |keys|
      invariant Split(keys[..i], naming) == Ok(Batching(batches, batchNames))
    {
      var next := PlaceEvent(batches, batchNames, keys[i], i, naming);
      SplitNext(keys, i, naming, Batching(batches, batchNames));
      if next.Err? {
        SplitErrStays(keys, naming, i + 1);
        return next;
      }
      batches, batchNames := next.value.batches, next.value.names;
      i := i + 1;
    }
    assert keys[..i] == keys;
    return Ok(Batching(batches, batchNames));
  }

  /**
   * The body of the loop for event i with partition key `key`: the batch for
   * the key's current name (created when missing) takes the event, or, when
   * full, a new batch under a new alias does, unless that name is taken.
   */
  method PlaceEvent(batches: seq<(string, Batch)>, batchNames: seq<(string, string)>, key: NString, i: nat, naming: Naming)
    returns (r: Result<Batching>)
    ensures r == Step(Batching(batches, batchNames), key, i, naming)
  {
    if key.None? {
      return Err(ArgumentNull("key"));
    }
    var partitionKey := key.value;
    var batchName := BatchNameFor(batchNames, partitionKey);
    var current := WithBatch(batches, batchName);
    var batchOperation := Lookup(current, batchName).value;
    if |batchOperation| == MaxOps {
      var nn := if naming == AsWritten then GetNewBatchName(partitionKey, batchNames) else CorrectedBatchName(partitionKey, batchNames);
      if nn.0 in Keys(current) {
        return Err(Argument(DuplicateKeyText));
      }
      return Ok(Batching(current + [(nn.0, [i])], nn.1));
    }
    return Ok(Batching(Put(current, batchName, batchOperation + [i]), batchNames));
  }

  /** The loop on one more event is one Step further. */
  lemma SplitNext(keys: seq<NString>, i: nat, naming: Naming, s: Batching)
    requires i < |keys| && Split(keys[..i], naming) == Ok(s)
    ensures Split(keys[..i + 1], naming) == Step(s, keys[i], i, naming)
  {
    assert keys[..i + 1][..i] == keys[..i];
  }

  /** Once the loop has failed on a prefix, it fails on the whole list with the same exception. */
  lemma {:induction false} SplitErrStays(keys: seq<NString>, naming: Naming, i: nat)
    requires i <= |keys| && Split(keys[..i], naming).Err?
    ensures Split(keys, naming) == Split(keys[..i], naming)
  {
    if i < |keys| {
      var p := keys[..|keys| - 1];
      assert p[..i] == keys[..i];
      SplitErrStays(p, naming, i);
    } else {
      assert keys[..i] == keys;
    }
  }

  /** An exception StoreEventsAsync catches: the two message filters and LeaseLostException. */
  predicate Filtered(x: Exception)
  {
    || Contains(ExceptionMessage(x), "The specified entity already exists")
    || Contains(ExceptionMessage(x), "lease for the blob has expired")
    || x.LeaseLost?
  }

  /** String.Contains (ordinal). */
  predicate Contains(s: string, sub: string)
  {
    exists t :: 0 <= t <= |s| - |sub| && IsAt(s, sub, t)
  }

  predicate IsAt(s: string, sub: string, t: int)
  {
    0 <= t && t + |sub| <= |s| && s[t..t + |sub|] == sub
  }

  /** Every character of a contained string occurs in the containing one. */
  lemma ContainsChar(s: string, sub: string, c: char)
    requires Contains(s, sub) && c in sub
    ensures c in s
  {
    var t :| 0 <= t <= |s| - |sub| && IsAt(s, sub, t);
    var j :| 0 <= j < |sub| && sub[j] == c;
    assert s[t..t + |sub|][j] == s[t + j];
  }

  /**
   * StoreEventsAsync: the table-service exceptions of the set-up and of
   * executing the batches are parameters.  It answers "Running batches" once
   * the batches are built and "" when a caught exception comes first; other
   * exceptions escape.
   */
  method StoreEventsAsync(keys: seq<NString>, setupError: Option<Exception>, executeError: Option<Exception>, naming: Naming)
    returns (r: Result<string>)
    ensures r == StoreOutcome(Split(keys, naming), setupError, executeError)
  {
    var retVal := "";
    if setupError.Some? {
      return if Filtered(setupError.value) then Ok(retVal) else Err(setupError.value);
    }
    var built := BuildBatches(keys, naming);
    if built.Err? {
      return if Filtered(built.error) then Ok(retVal) else Err(built.error);
    }
    retVal := "Running batches";
    if executeError.Some? {
      return if Filtered(executeError.value) then Ok(retVal) else Err(executeError.value);
    }
    return Ok(retVal);
  }

  /** StoreEventsAsync's answer for a given split and table-service behaviour. */
  function StoreOutcome(built: Result<Batching>, setupError: Option<Exception>, executeError: Option<Exception>): Result<string>
  {
    if setupError.Some? then (if Filtered(setupError.value) then Ok("") else Err(setupError.value))
    else if built.Err? then (if Filtered(built.error) then Ok("") else Err(built.error))
    else if executeError.Some? then (if Filtered(executeError.value) then Ok("Running batches") else Err(executeError.value))
    else Ok("Running batches")
  }

  /** The loop's own exceptions are not among the caught ones, so they escape StoreEventsAsync. */
  lemma SplitErrorsEscape(keys: seq<NString>, naming: Naming)
    requires Split(keys, naming).Err?
    ensures !Filtered(Split(keys, naming).error)
    ensures StoreOutcome(Split(keys, naming), None, None) == Err(Split(keys, naming).error)
  {
    SplitErrorKinds(keys, naming);
    var m := ExceptionMessage(Split(keys, naming).error);
    NoX(Split(keys, naming).error);
    assert 'x' in "The specified entity already exists" && 'x' in "lease for the blob has expired";
    if Contains(m, "The specified entity already exists") {
      ContainsChar(m, "The specified entity already exists", 'x');
    }
    if Contains(m, "lease for the blob has expired") {
      ContainsChar(m, "lease for the blob has expired", 'x');
    }
  }

  /**
   * As written, StoreEventsAsync on 201 events with one partition key and a
   * table service that throws nothing does not answer: the duplicate-name
   * ArgumentException escapes it.
   */
  lemma TwoHundredFirstEscapes(k: string)
    ensures StoreOutcome(Split(Repeat(k, 2 * MaxOps + 1), AsWritten), None, None) == Err(Argument(DuplicateKeyText))
  {
    TwoHundredFirstFails(k);
    SplitErrorsEscape(Repeat(k, 2 * MaxOps + 1), AsWritten);
  }

  /** Neither of the loop's exception messages has an 'x', which both caught messages have. */
  lemma NoX(x: Exception)
    requires x == ArgumentNull("key") || x == Argument(DuplicateKeyText)
    ensures 'x' !in ExceptionMessage(x)
  {
    if x == ArgumentNull("key") {
      assert 'x' !in "Value cannot " && 'x' !in "be null." && 'x' !in "\r\n" && 'x' !in "Parameter " && 'x' !in "name: " && 'x' !in "key";
    } else {
      NoXInDuplicateKeyText();
    }
  }

  lemma NoXInDuplicateKeyText()
    ensures 'x' !in DuplicateKeyText
  {
    assert 'x' !in "An item with " && 'x' !in "the same key " && 'x' !in "has already " && 'x' !in "been added.";
  }

  /** The loop fails only with the null-key or the duplicate-name exception. */
  lemma {:induction false} SplitErrorKinds(keys: seq<NString>, naming: Naming)
    requires Split(keys, naming).Err?
    ensures Split(keys, naming).error in {ArgumentNull("key"), Argument(DuplicateKeyText)}
  {
    var p := keys[..|keys| - 1];
    match Split(p, naming)
    case Err(_) => SplitErrorKinds(p, naming);
    case Ok(s) => StepErrorKinds(s, keys[|keys| - 1], |keys| - 1, naming);
  }

  /** One step fails only with the null-key or the duplicate-name exception. */
  lemma StepErrorKinds(s: Batching, key: NString, i: nat, naming: Naming)
    ensures Step(s, key, i, naming).Err? ==> Step(s, key, i, naming).error in {ArgumentNull("key"), Argument(DuplicateKeyText)}
  {
    if key.Some? {
      var name := BatchNameFor(s.names, key.value);
      var bs := WithBatch(s.batches, name);
      assert Step(s, key, i, naming) == Place(bs, s.names, name, key.value, i, naming);
    }
  }
}
