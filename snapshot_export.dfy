/**
 * The export queue of the status-snapshot generators (both copies of
 * StatusSnapshot.cs): each snapshot pops the stack of messages gathered since
 * the previous one, newest first, into a queue that persists between
 * snapshots and is trimmed at the front, and reports how many of the popped
 * messages did not fit.
 *
 * As written the queue is trimmed only when it holds more than listSize (20)
 * entries before an enqueue, so it keeps 21, while the overflow count is reckoned against
 * 20.  `Bound` selects the trim as written or as evidently intended.
 */
module SnapshotExport {
  import opened Common

  /** listSize. */
  const ListSize: nat := 20

  datatype Bound = AsWritten | Corrected

  /** The number of entries the queue keeps: 21 as written (`Count > listSize`), 20 as intended. */
  function Capacity(b: Bound): nat
  {
    if b == AsWritten then ListSize + 1 else ListSize
  }

  function Reverse<T>(s: seq<T>): (r: seq<T>)
    ensures |r| == |s| && forall i :: 0 <= i < |s| ==> r[i] == s[|s| - 1 - i]
  {
    if |s| == 0 then [] else [s[|s| - 1]] + Reverse(s[..|s| - 1])
  }

  /** One pass of the pop loop: drop the front of a full queue, then enqueue m. */
  function Enqueued<T>(q: seq<T>, m: T, b: Bound): seq<T>
  {
    (if |q| >= Capacity(b) then q[1..] else q) + [m]
  }

  /** The queue after enqueuing the popped messages in order. */
  function ExportedAll<T>(q: seq<T>, popped: seq<T>, b: Bound): seq<T>
  {
    if |popped| == 0 then q
    else Enqueued(ExportedAll(q, popped[..|popped| - 1], b), popped[|popped| - 1], b)
  }

  /** The last n entries of s (all of them when there are fewer). */
  function Latest<T>(s: seq<T>, n: nat): (r: seq<T>)
    ensures |r| == if |s| <= n then |s| else n
    ensures forall i :: 0 <= i < |r| ==> r[i] == s[|s| - |r| + i]
  {
    if |s| <= n then s else s[|s| - n..]
  }

  /** The overflow a call reports for `popped` messages: those beyond listSize. */
  function Overflow(popped: nat): nat
  {
    if popped > ListSize then popped - ListSize else 0
  }

  /**
   * A queue within its capacity ends, after any number of messages, as the
   * latest Capacity(b) entries of the old queue followed by those messages;
   * in particular it stays within its capacity.
   */
  lemma {:induction false} ExportedIsLatest<T>(q: seq<T>, popped: seq<T>, b: Bound)
    requires |q| <= Capacity(b)
    ensures ExportedAll(q, popped, b) == Latest(q + popped, Capacity(b))
    ensures |ExportedAll(q, popped, b)| <= Capacity(b)
  {
    if |popped| > 0 {
      var p, m := popped[..|popped| - 1], popped[|popped| - 1];
      ExportedIsLatest(q, p, b);
      assert q + popped == (q + p) + [m];
      LatestStep(q + p, m, Capacity(b));
    }
  }

  /** Latest over one more entry is one Enqueued further. */
  lemma LatestStep<T>(s: seq<T>, m: T, n: nat)
    requires n >= 1
    ensures Latest(s + [m], n) == (if |Latest(s, n)| >= n then Latest(s, n)[1..] else Latest(s, n)) + [m]
  {
    var l := Latest(s, n);
    var r := (if |l| >= n then l[1..] else l) + [m];
    assert |Latest(s + [m], n)| == |r|;
    forall i | 0 <= i < |r| ensures Latest(s + [m], n)[i] == r[i] {
      if i < |r| - 1 {
        if |l| >= n {
          assert r[i] == l[i + 1];
        } else {
          assert r[i] == l[i];
        }
      }
    }
  }

  /**
   * With the intended trim, the overflow a call reports is exactly the
   * number of its messages that are lost: the popped messages after the
   * first Overflow(|popped|) of them end the queue, and when there is
   * overflow they are the whole queue.
   */
  lemma OverflowIsLost<T>(q: seq<T>, popped: seq<T>)
    requires |q| <= Capacity(Corrected)
    ensures var r := ExportedAll(q, popped, Corrected);
      var kept := popped[Overflow(|popped|)..];
      && |kept| <= |r| && r[|r| - |kept|..] == kept
      && (Overflow(|popped|) > 0 ==> r == kept)
  {
    ExportedIsLatest(q, popped, Corrected);
  }

  /**
   * As written, 21 messages popped into an empty queue are all kept, and yet
   * one of them is reported as overflow.
   */
  lemma OverflowMiscounted<T>(popped: seq<T>)
    requires |popped| == ListSize + 1
    ensures ExportedAll([], popped, AsWritten) == popped && Overflow(|popped|) == 1
  {
    ExportedIsLatest([], popped, AsWritten);
    assert [] + popped == popped;
  }

  /**
   * GetListToExport's pop loop: pops `stack` (top last) empty, newest first,
   * trimming the front of the persistent queue before each enqueue, and
   * counts the popped messages for the overflow.
   */
  method Export<T>(stack: seq<T>, queue: seq<T>, b: Bound) returns (exported: seq<T>, overflow: nat)
    ensures exported == ExportedAll(queue, Reverse(stack), b) && overflow == Overflow(|stack|)
  {
    var s := stack;
    exported := queue;
    var enqueuedCounter := 0;
    while |s| > 0
      invariant |s| <= |stack| && s == stack[..|s|] && enqueuedCounter == |stack| - |s|
      invariant exported == ExportedAll(queue, Reverse(stack)[..enqueuedCounter], b)
    {
      var message := s[|s| - 1];
      ExportStep(queue, Reverse(stack), enqueuedCounter, b);
      s := s[..|s| - 1];
      if |exported| >= Capacity(b) {
        exported := exported[1..];
      }
      exported := exported + [message];
      enqueuedCounter := enqueuedCounter + 1;
    }
    assert Reverse(stack)[..enqueuedCounter] == Reverse(stack);
    overflow := 0;
    if enqueuedCounter > ListSize {
      overflow := enqueuedCounter - ListSize;
    }
  }

  lemma ExportStep<T>(q: seq<T>, p: seq<T>, j: nat, b: Bound)
    requires j < |p|
    ensures ExportedAll(q, p[..j + 1], b) == Enqueued(ExportedAll(q, p[..j], b), p[j], b)
  {
    assert p[..j + 1][..j] == p[..j];
  }
}
