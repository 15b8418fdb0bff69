/**
 * The engine control window's StatusSnapShotGenerator: the same double
 * buffer and export queue as the console host's, over plain string messages,
 * with an IsRunning flag and a snapshot task.  Writing the snapshot file, its
 * folder checks and the delay between snapshots are not modelled.
 */
module EngineControlStatusSnapshot {
  import opened Common
  import opened Assoc
  import opened SnapshotExport
  import ConsoleStatusSnapshot

  type Info = ConsoleStatusSnapshot.Info

  /** The nested StatusSnapshot written to the file. */
  class StatusSnapshot {
    var generatedUtc: int
    var messages: seq<string>
    var overFlowMessages: int
    var analyzerList: seq<Info>

    constructor(generatedUtc: int)
      ensures this.generatedUtc == generatedUtc && messages == [] && overFlowMessages == 0 && analyzerList == []
    {
      this.generatedUtc := generatedUtc;
      messages := [];
      overFlowMessages := 0;
      analyzerList := [];
    }

    /** Reset empties both lists and keeps the time and the overflow count. */
    method Reset()
      modifies this`messages, this`analyzerList
      ensures messages == [] && analyzerList == []
    {
      messages := [];
      analyzerList := [];
    }
  }

  class StatusSnapShotGenerator {
    var analyzerInfo: seq<(string, Info)>
    var isRunning: bool
    var messageList1: seq<string>
    var messageList2: seq<string>
    var list1IsCurrent: bool
    var listToExport: seq<string>
    /** The snapshot tasks started by Run. */
    var tasks: nat

    ghost predicate Valid()
      reads this
    {
      |listToExport| <= Capacity(AsWritten) && UniqueKeys(analyzerInfo)
    }

    function CurrentList(): seq<string>
      reads this
    {
      if list1IsCurrent then messageList1 else messageList2
    }

    function NotCurrentList(): seq<string>
      reads this
    {
      if !list1IsCurrent then messageList1 else messageList2
    }

    constructor()
      ensures Valid() && analyzerInfo == [] && !isRunning && tasks == 0
      ensures messageList1 == [] && messageList2 == [] && list1IsCurrent && listToExport == []
    {
      analyzerInfo := [];
      isRunning := false;
      messageList1 := [];
      messageList2 := [];
      list1IsCurrent := true;
      listToExport := [];
      tasks := 0;
    }

    method Reset()
      modifies this`analyzerInfo
      ensures analyzerInfo == [] && (old(Valid()) ==> Valid())
    {
      analyzerInfo := [];
    }

    method AddMessageToSnapShot(message: string)
      modifies this`messageList1, this`messageList2
      ensures CurrentList() == old(CurrentList()) + [message]
      ensures NotCurrentList() == old(NotCurrentList())
    {
      if list1IsCurrent {
        messageList1 := messageList1 + [message];
      } else {
        messageList2 := messageList2 + [message];
      }
    }

    method AddAnalyzerInfoToSnapShot(info: Info) returns (error: Option<Exception>)
      requires Valid()
      modifies this`analyzerInfo
      ensures Valid()
      ensures var r := ConsoleStatusSnapshot.InfoAdded(old(analyzerInfo), info);
        (r.Ok? ==> error.None? && analyzerInfo == r.value) && (r.Err? ==> error == Some(r.error) && analyzerInfo == old(analyzerInfo))
    {
      var r := ConsoleStatusSnapshot.InfoAdded(analyzerInfo, info);
      if r.Err? {
        return Some(r.error);
      }
      ConsoleStatusSnapshot.InfoAddedSpec(analyzerInfo, info, "");
      analyzerInfo := r.value;
      return None;
    }

    method SwitchList()
      modifies this`list1IsCurrent
      ensures CurrentList() == old(NotCurrentList()) && NotCurrentList() == old(CurrentList())
    {
      list1IsCurrent := !list1IsCurrent;
    }

    method GetListToExport() returns (list: seq<string>, overflow: nat)
      requires Valid()
      modifies this`messageList1, this`messageList2, this`listToExport
      ensures Valid()
      ensures listToExport == ExportedAll(old(listToExport), Reverse(old(NotCurrentList())), AsWritten)
      ensures list == listToExport && overflow == Overflow(|old(NotCurrentList())|)
      ensures NotCurrentList() == [] && CurrentList() == old(CurrentList())
    {
      listToExport, overflow := Export(NotCurrentList(), listToExport, AsWritten);
      ExportedIsLatest(old(listToExport), Reverse(old(NotCurrentList())), AsWritten);
      if list1IsCurrent {
        messageList2 := [];
      } else {
        messageList1 := [];
      }
      list := listToExport;
    }

    /**
     * StartGenerator: idempotent while IsRunning; otherwise it sets the flag
     * and Run starts one snapshot task (starting a task is taken never to
     * throw, so Run's own closing call to StartGenerator does nothing).
     */
    method StartGenerator()
      modifies this`isRunning, this`tasks
      decreases if isRunning then 0 else 2
      ensures isRunning
      ensures old(isRunning) ==> tasks == old(tasks)
      ensures !old(isRunning) ==> tasks == old(tasks) + 1
    {
      if !isRunning {
        isRunning := true;
        Run();
      }
    }

    method Run()
      requires isRunning
      modifies this`isRunning, this`tasks
      decreases 1
      ensures isRunning && tasks == old(tasks) + 1
    {
      tasks := tasks + 1;
      StartGenerator();
    }

    /** One pass of the snapshot task's loop while IsRunning. */
    method SnapshotStep(now: int) returns (snap: StatusSnapshot)
      requires Valid() && isRunning
      modifies this`list1IsCurrent, this`messageList1, this`messageList2, this`listToExport
      ensures Valid() && fresh(snap)
      ensures NotCurrentList() == [] && CurrentList() == old(NotCurrentList())
      ensures listToExport == ExportedAll(old(listToExport), Reverse(old(CurrentList())), AsWritten)
      ensures snap.generatedUtc == now && snap.messages == listToExport
      ensures snap.overFlowMessages == Overflow(|old(CurrentList())|) && snap.analyzerList == Values(analyzerInfo)
    {
      SwitchList();
      snap := new StatusSnapshot(now);
      snap.analyzerList := Values(analyzerInfo);
      var list, overflow := GetListToExport();
      snap.messages := list;
      snap.overFlowMessages := overflow;
    }
  }
}
