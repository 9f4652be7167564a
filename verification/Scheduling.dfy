/** The continuous scheduler as functions on its pools and on the manager it drives. */
module Scheduling {
  import opened Prelude
  import opened BlockSpace

  datatype FinishReason = MaxTokensReached | StopTokenEncountered | Aborted

  datatype Status = Waiting | Running | Finished(reason: FinishReason)

  datatype Sequence = Sequence(id: nat, promptTokens: seq<u32>, outputTokens: seq<u32>, maxTokens: nat,
                               status: Status) {
    function TotalTokens(): nat {
      |promptTokens| + |outputTokens|
    }
  }

  /** A decode batch lists running sequences in no particular order. */
  datatype Batch = Prefill(id: nat, tokenCount: nat) | Decode(tokenCounts: map<nat, nat>)

  datatype SchedulerError = Memory(error: MemoryError) | NotFound(id: nat) | AlreadyFinished(id: nat)

  datatype Reply<+T> = Done(value: T) | Failed(error: SchedulerError)

  /**
   The scheduler's fields and the manager's state. The last four are history: failed steps of the
   sequence running under an id, ids submitted and admitted so far in order, and ids aborted while waiting.
   */
  datatype Sched = Sched(
    mgr: State,
    maxNumSeqs: nat,
    waiting: seq<Sequence>,
    running: map<nat, Sequence>,
    finished: map<nat, Sequence>,
    failedSteps: map<nat, nat>,
    submitted: seq<nat>,
    admitted: seq<nat>,
    withdrawn: set<nat>)

  function InitSched(cfg: Config, maxNumSeqs: nat): (s: Sched)
    requires cfg.blockSize > 0
    ensures Wf(s.mgr)
  {
    Sched(InitState(cfg), maxNumSeqs, [], map[], map[], map[], [], [], {})
  }

  function NewSequence(id: nat, promptTokens: seq<u32>, maxTokens: nat): Sequence {
    Sequence(id, promptTokens, [], maxTokens, Waiting)
  }

  function Submit(s: Sched, q: Sequence): Sched {
    s.(waiting := s.waiting + [q], submitted := s.submitted + [q.id])
  }

  /** Admit the sequence at the head of the queue. */
  function Admit(s: Sched): (r: (Sched, Reply<Option<Batch>>))
    requires Wf(s.mgr) && s.waiting != []
    ensures Wf(r.0.mgr)
  {
    var q := s.waiting[0];
    var (m, res) := MatchOrAllocatePrefix(s.mgr, q.id, q.promptTokens);
    if res.Err? then (s.(mgr := FreeSequence(m, q.id).0), Failed(Memory(res.error)))
    else
      (s.(mgr := m, waiting := s.waiting[1..], running := s.running[q.id := q.(status := Running)],
          failedSteps := s.failedSteps[q.id := 0], admitted := s.admitted + [q.id]),
       Done(Some(Prefill(q.id, |q.promptTokens|))))
  }

  function ScheduleIteration(s: Sched): (r: (Sched, Reply<Option<Batch>>))
    requires Wf(s.mgr)
    ensures Wf(r.0.mgr)
  {
    if s.running != map[] then (s, Done(Some(Decode(map id | id in s.running :: s.running[id].TotalTokens()))))
    else if |s.running| < s.maxNumSeqs && s.waiting != [] then Admit(s)
    else (s, Done(None))
  }

  /** The sequence after it received a token and its page was secured. */
  function AfterToken(q: Sequence, token: u32, isStop: bool): Sequence {
    var p := q.(outputTokens := q.outputTokens + [token]);
    if isStop then p.(status := Finished(StopTokenEncountered))
    else if |p.outputTokens| >= p.maxTokens then p.(status := Finished(MaxTokensReached))
    else p
  }

  function StepSequence(s: Sched, id: nat, token: u32, isStop: bool): (r: (Sched, Reply<()>))
    requires Wf(s.mgr)
    ensures Wf(r.0.mgr)
  {
    if id !in s.running then (s, Failed(NotFound(id)))
    else
      var q := s.running[id];
      var (m, res) := AppendTokens(s.mgr, id, 1);
      if res.Err? then
        (s.(mgr := m, running := s.running[id := q.(outputTokens := q.outputTokens + [token])],
            failedSteps := s.failedSteps[id := (if id in s.failedSteps then s.failedSteps[id] else 0) + 1]),
         Failed(Memory(res.error)))
      else
        var p := AfterToken(q, token, isStop);
        if p.status.Finished? then Finish(s.(mgr := m), id, p)
        else (s.(mgr := m, running := s.running[id := p]), Done(()))
  }

  /** Take a finished sequence out of the running pool, free its pages, and file it if that went well. */
  function Finish(s: Sched, id: nat, p: Sequence): (r: (Sched, Reply<()>))
    requires Wf(s.mgr)
    ensures Wf(r.0.mgr)
  {
    var (m, res) := FreeSequence(s.mgr, id);
    var s1 := s.(mgr := m, running := s.running - {id});
    if res.Err? then (s1, Failed(Memory(res.error))) else (s1.(finished := s.finished[id := p]), Done(()))
  }

  /** Position of the first waiting sequence with this id; the queue's length if there is none. */
  function Position(waiting: seq<Sequence>, id: nat): (i: nat)
    ensures i <= |waiting|
    ensures i < |waiting| ==> waiting[i].id == id
    ensures forall j :: 0 <= j < i ==> waiting[j].id != id
  {
    if waiting == [] then 0
    else if waiting[0].id == id then 0
    else 1 + Position(waiting[1..], id)
  }

  function AbortSequence(s: Sched, id: nat): (r: (Sched, Reply<()>))
    requires Wf(s.mgr)
    ensures Wf(r.0.mgr)
  {
    if id in s.running then
      (s.(mgr := FreeSequence(s.mgr, id).0, running := s.running - {id},
          finished := s.finished[id := s.running[id].(status := Finished(Aborted))]),
       Done(()))
    else
      var i := Position(s.waiting, id);
      if i < |s.waiting| then
        (s.(mgr := FreeSequence(s.mgr, id).0, waiting := s.waiting[..i] + s.waiting[i + 1..],
            finished := s.finished[id := s.waiting[i].(status := Finished(Aborted))], withdrawn := s.withdrawn + {id}),
         Done(()))
      else if id in s.finished then (s, Failed(AlreadyFinished(id)))
      else (s, Failed(NotFound(id)))
  }

  // ----- Runs -----

  datatype Call =
    | SubmitCall(id: nat, promptTokens: seq<u32>, maxTokens: nat)
    | ScheduleCall
    | StepCall(seqId: nat, token: u32, isStop: bool)
    | AbortCall(abortId: nat)

  function Next(s: Sched, c: Call): (r: Sched)
    requires Wf(s.mgr)
    ensures Wf(r.mgr)
  {
    match c
    case SubmitCall(id, prompt, maxTokens) => Submit(s, NewSequence(id, prompt, maxTokens))
    case ScheduleCall => ScheduleIteration(s).0
    case StepCall(id, token, isStop) => StepSequence(s, id, token, isStop).0
    case AbortCall(id) => AbortSequence(s, id).0
  }

  function Drive(s: Sched, calls: seq<Call>): (r: Sched)
    requires Wf(s.mgr)
    ensures Wf(r.mgr)
  {
    if calls == [] then s else Next(Drive(s, Init(calls)), Last(calls))
  }
}
