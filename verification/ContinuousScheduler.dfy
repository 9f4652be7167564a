/** The scheduler with its pools updated in place, driving a manager object it shares. */
module Scheduler {
  import opened Prelude
  import opened Manager
  import opened Scheduling

  class ContinuousScheduler {
    const maxNumSeqs: nat
    const blockManager: BlockSpaceManager
    var waitingQueue: seq<Sequence>
    var runningPool: map<nat, Sequence>
    var finishedPool: map<nat, Sequence>

    // History, see `Scheduling.Sched`.
    ghost var failedSteps: map<nat, nat>
    ghost var submitted: seq<nat>
    ghost var admitted: seq<nat>
    ghost var withdrawn: set<nat>

    ghost function Model(): Sched
      reads this, blockManager, blockManager.physicalBlocks
    {
      Sched(blockManager.Model(), maxNumSeqs, waitingQueue, runningPool, finishedPool, failedSteps, submitted, admitted,
            withdrawn)
    }

    constructor (maxNumSeqs: nat, blockManager: BlockSpaceManager)
      ensures this.blockManager == blockManager
      ensures Model() == Sched(blockManager.Model(), maxNumSeqs, [], map[], map[], map[], [], [], {})
    {
      this.maxNumSeqs := maxNumSeqs;
      this.blockManager := blockManager;
      waitingQueue, runningPool, finishedPool := [], map[], map[];
      failedSteps, submitted, admitted, withdrawn := map[], [], [], {};
    }

    method SubmitSequence(q: Sequence)
      modifies this
      ensures Model() == Submit(old(Model()), q)
    {
      waitingQueue := waitingQueue + [q];
      submitted := submitted + [q.id];
    }

    method ScheduleIteration() returns (r: Reply<Option<Batch>>)
      requires blockManager.Valid()
      modifies this, blockManager, blockManager.physicalBlocks
      ensures blockManager.Valid()
      ensures (Model(), r) == Scheduling.ScheduleIteration(old(Model()))
    {
      // 1. Decode what is running.
      if runningPool != map[] {
        return Done(Some(Decode(map id | id in runningPool :: runningPool[id].TotalTokens())));
      }
      // 2. Admit from the waiting queue.
      if |runningPool| < maxNumSeqs {
        if waitingQueue != [] {
          r := AdmitNext();
          return;
        }
      }
      r := Done(None);
    }

    /** Admit the head of the queue, or put it back when its pages cannot be had. */
    method AdmitNext() returns (r: Reply<Option<Batch>>)
      requires blockManager.Valid() && waitingQueue != []
      modifies this, blockManager, blockManager.physicalBlocks
      ensures blockManager.Valid()
      ensures (Model(), r) == Admit(old(Model()))
    {
      var next := waitingQueue[0];
      waitingQueue := waitingQueue[1..];
      var matched := blockManager.MatchOrAllocatePrefix(next.id, next.promptTokens);
      if matched.Err? {
        var _ := blockManager.FreeSequence(next.id);
        HeadBack(old(waitingQueue));
        waitingQueue := [next] + waitingQueue;
        return Failed(Memory(matched.error));
      }
      next := next.(status := Running);
      runningPool := runningPool[next.id := next];
      failedSteps := failedSteps[next.id := 0];
      admitted := admitted + [next.id];
      r := Done(Some(Prefill(next.id, |next.promptTokens|)));
    }

    method StepSequence(seqId: nat, tokenId: u32, isStopToken: bool) returns (r: Reply<()>)
      requires blockManager.Valid()
      modifies this, blockManager, blockManager.physicalBlocks
      ensures blockManager.Valid()
      ensures (Model(), r) == Scheduling.StepSequence(old(Model()), seqId, tokenId, isStopToken)
    {
      if seqId !in runningPool {
        return Failed(NotFound(seqId));
      }
      var q := runningPool[seqId];
      q := q.(outputTokens := q.outputTokens + [tokenId]);
      runningPool := runningPool[seqId := q];
      var appended := blockManager.AppendTokens(seqId, 1);
      if appended.Err? {
        failedSteps := failedSteps[seqId := (if seqId in failedSteps then failedSteps[seqId] else 0) + 1];
        return Failed(Memory(appended.error));
      }
      if isStopToken {
        q := q.(status := Finished(StopTokenEncountered));
      } else if |q.outputTokens| >= q.maxTokens {
        q := q.(status := Finished(MaxTokensReached));
      }
      PutAgain(old(runningPool), seqId, runningPool[seqId], q);
      runningPool := runningPool[seqId := q];
      if q.status.Finished? {
        r := Retire(seqId, q);
      } else {
        r := Done(());
      }
    }

    /** Take a finished sequence out of the running pool, free its pages, and file it. */
    method Retire(seqId: nat, q: Sequence) returns (r: Reply<()>)
      requires blockManager.Valid()
      modifies this, blockManager, blockManager.physicalBlocks
      ensures blockManager.Valid()
      ensures (Model(), r) == Finish(old(Model()), seqId, q)
    {
      runningPool := runningPool - {seqId};
      var freed := blockManager.FreeSequence(seqId);
      if freed.Err? {
        return Failed(Memory(freed.error));
      }
      finishedPool := finishedPool[seqId := q];
      r := Done(());
    }

    method AbortSequence(seqId: nat) returns (r: Reply<()>)
      requires blockManager.Valid()
      modifies this, blockManager, blockManager.physicalBlocks
      ensures blockManager.Valid()
      ensures (Model(), r) == Scheduling.AbortSequence(old(Model()), seqId)
    {
      if seqId in runningPool {
        var q := runningPool[seqId];
        runningPool := runningPool - {seqId};
        var _ := blockManager.FreeSequence(seqId);
        finishedPool := finishedPool[seqId := q.(status := Finished(Aborted))];
        return Done(());
      }
      var i := FindWaiting(seqId);
      if i < |waitingQueue| {
        var q := waitingQueue[i];
        waitingQueue := waitingQueue[..i] + waitingQueue[i + 1..];
        withdrawn := withdrawn + {seqId};
        var _ := blockManager.FreeSequence(seqId);
        finishedPool := finishedPool[seqId := q.(status := Finished(Aborted))];
        return Done(());
      }
      if seqId in finishedPool {
        return Failed(AlreadyFinished(seqId));
      }
      r := Failed(NotFound(seqId));
    }

    /** Position of the first waiting sequence with this id, or the length of the queue. */
    method FindWaiting(seqId: nat) returns (i: nat)
      ensures i == Position(waitingQueue, seqId)
    {
      i := 0;
      while i < |waitingQueue| && waitingQueue[i].id != seqId
        invariant i <= |waitingQueue|
        invariant Position(waitingQueue, seqId) == i + Position(waitingQueue[i..], seqId)
      {
        assert waitingQueue[i..][1..] == waitingQueue[i + 1..];
        i := i + 1;
      }
    }

    method RunningCount() returns (n: nat)
      ensures n == |Model().running|
    {
      n := |runningPool|;
    }

    method WaitingCount() returns (n: nat)
      ensures n == |Model().waiting|
    {
      n := |waitingQueue|;
    }
  }
  lemma HeadBack<T>(l: seq<T>)
    requires l != []
    ensures [l[0]] + l[1..] == l
  {
  }

  /** A second entry under a key leaves nothing of the first; taking it out leaves nothing of either. */
  lemma PutAgain<T>(m: map<nat, T>, id: nat, x: T, y: T)
    ensures m[id := x][id := y] == m[id := y]
    ensures m[id := y] - {id} == m - {id}
  {
  }
}
