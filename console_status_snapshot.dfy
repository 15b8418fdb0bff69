/**
 * The console host's StatusSnapShotGenerator: two message stacks of which one
 * is current (new messages are pushed onto it) while the other is exported,
 * the persistent export queue, the analyzer infos keyed by name, and the
 * ShallRun flag of the snapshot thread.  Writing the snapshot file, its
 * folder checks and the sleep between snapshots are not modelled.
 */
module ConsoleStatusSnapshot {
  import opened Common
  import opened Assoc
  import opened SnapshotExport
  import EngineSpec

  type Info = EngineSpec.AnalyzerInstanceInfo
  type Message = Stamped<string>

  /** StatusSnapshot: when it was made, the exported messages, the overflow count and the analyzer infos. */
  datatype Snapshot = Snapshot(generatedUtc: int, messages: seq<Message>, overFlowMessages: int, analyzerList: seq<Info>)

  /** AddOrUpdate(info.Name, info, ...): a null name is rejected as the dictionary key. */
  function InfoAdded(infos: seq<(string, Info)>, info: Info): Result<seq<(string, Info)>>
  {
    if info.name.None? then Err(ArgumentNull("key")) else Ok(Put(infos, info.name.value, info))
  }

  /** Adding an info replaces the one of the same name and touches no other; names stay unique. */
  lemma InfoAddedSpec(infos: seq<(string, Info)>, info: Info, name: string)
    requires UniqueKeys(infos)
    ensures InfoAdded(infos, info).Err? <==> info.name.None?
    ensures InfoAdded(infos, info).Ok? ==>
      && UniqueKeys(InfoAdded(infos, info).value)
      && Lookup(InfoAdded(infos, info).value, name) == if Some(name) == info.name then Some(info) else Lookup(infos, name)
  {
    if info.name.Some? {
      UniqueAfterPut(infos, info.name.value, info);
      LookupPut(infos, info.name.value, info, name);
    }
  }

  class StatusSnapShotGenerator {
    var lastFileGeneratedTime: int
    var analyzerInfo: seq<(string, Info)>
    var shallRun: bool
    var messageList1: seq<Message>
    var messageList2: seq<Message>
    var list1IsCurrent: bool
    var listToExport: seq<Message>
    /** The snapshot threads started by Run. */
    var threads: nat

    /** The export queue is within its capacity, and the infos have one entry per name. */
    ghost predicate Valid()
      reads this
    {
      |listToExport| <= Capacity(AsWritten) && UniqueKeys(analyzerInfo)
    }

    /** The stack CurrentList returns: the top is the last element. */
    function CurrentList(): seq<Message>
      reads this
    {
      if list1IsCurrent then messageList1 else messageList2
    }

    /** NotCurrentList: always the other stack. */
    function NotCurrentList(): seq<Message>
      reads this
    {
      if !list1IsCurrent then messageList1 else messageList2
    }

    /** DateTime.MinValue is tick 0. */
    constructor()
      ensures Valid() && lastFileGeneratedTime == 0 && analyzerInfo == [] && !shallRun
      ensures messageList1 == [] && messageList2 == [] && list1IsCurrent && listToExport == [] && threads == 0
    {
      lastFileGeneratedTime := 0;
      analyzerInfo := [];
      shallRun := false;
      messageList1 := [];
      messageList2 := [];
      list1IsCurrent := true;
      listToExport := [];
      threads := 0;
    }

    /** Reset clears the analyzer infos and nothing else. */
    method Reset()
      modifies this`analyzerInfo
      ensures analyzerInfo == [] && (old(Valid()) ==> Valid())
    {
      analyzerInfo := [];
    }

    /** The message goes on top of the current stack; the other stack is untouched. */
    method AddMessageToSnapShot(timestamp: int, message: string)
      modifies this`messageList1, this`messageList2
      ensures CurrentList() == old(CurrentList()) + [Stamped(timestamp, message)]
      ensures NotCurrentList() == old(NotCurrentList())
    {
      if list1IsCurrent {
        messageList1 := messageList1 + [Stamped(timestamp, message)];
      } else {
        messageList2 := messageList2 + [Stamped(timestamp, message)];
      }
    }

    method AddAnalyzerInfoToSnapShot(info: Info) returns (error: Option<Exception>)
      requires Valid()
      modifies this`analyzerInfo
      ensures Valid()
      ensures var r := InfoAdded(old(analyzerInfo), info);
        (r.Ok? ==> error.None? && analyzerInfo == r.value) && (r.Err? ==> error == Some(r.error) && analyzerInfo == old(analyzerInfo))
    {
      var r := InfoAdded(analyzerInfo, info);
      if r.Err? {
        return Some(r.error);
      }
      InfoAddedSpec(analyzerInfo, info, "");
      analyzerInfo := r.value;
      return None;
    }

    /** The two stacks trade roles. */
    method SwitchList()
      modifies this`list1IsCurrent
      ensures CurrentList() == old(NotCurrentList()) && NotCurrentList() == old(CurrentList())
    {
      list1IsCurrent := !list1IsCurrent;
    }

    /**
     * GetListToExport: the not-current stack is emptied newest first into the
     * export queue, which is returned with the overflow count; the current
     * stack is untouched.
     */
    method GetListToExport() returns (list: seq<Message>, overflow: nat)
      requires Valid()
      modifies this`messageList1, this`messageList2, this`listToExport
      ensures Valid()
      ensures listToExport == ExportedAll(old(listToExport), Reverse(old(NotCurrentList())), AsWritten)
      ensures list == listToExport && overflow == Overflow(|old(NotCurrentList())|)
      ensures NotCurrentList() == [] && CurrentList() == old(CurrentList())
    {
      listToExport, overflow := Export(NotCurrentList(), listToExport, AsWritten);
      ExportedIsLatest(old(listToExport), Reverse(old(NotCurrentList())), AsWritten);
      if list1IsCurrent {
        messageList2 := [];
      } else {
        messageList1 := [];
      }
      list := listToExport;
    }

    method Stop()
      modifies this`shallRun
      ensures !shallRun
    {
      shallRun := false;
    }

    /** StartGenerator: while the flag is set nothing happens; otherwise it is set and a snapshot thread is started. */
    method StartGenerator()
      modifies this`shallRun, this`threads
      ensures old(shallRun) ==> shallRun && threads == old(threads)
      ensures !old(shallRun) ==> shallRun && threads == old(threads) + 1
    {
      if !shallRun {
        shallRun := true;
        threads := threads + 1;
      }
    }

    /**
     * One pass of the snapshot thread's loop while ShallRun: switch the
     * stacks, list the infos, export the messages gathered on the stack that
     * was current, and note the time.
     */
    method SnapshotStep(now: int) returns (snap: Snapshot)
      requires Valid() && shallRun
      modifies this`list1IsCurrent, this`messageList1, this`messageList2, this`listToExport, this`lastFileGeneratedTime
      ensures Valid() && lastFileGeneratedTime == now
      ensures NotCurrentList() == [] && CurrentList() == old(NotCurrentList())
      ensures listToExport == ExportedAll(old(listToExport), Reverse(old(CurrentList())), AsWritten)
      ensures snap == Snapshot(now, listToExport, Overflow(|old(CurrentList())|), Values(analyzerInfo))
    {
      SwitchList();
      var infos := Values(analyzerInfo);
      var list, overflow := GetListToExport();
      snap := Snapshot(now, list, overflow, infos);
      lastFileGeneratedTime := now;
    }
  }
}
