/** What the scheduler answers, what a stop token and an abort file, and that every filed reason is due. */
module SchedulerReplies {
  import opened Prelude
  import opened BlockSpace
  import opened PrefixTrie
  import opened Accounting
  import opened Runs
  import opened PrefixMatching
  import opened AppendOutcomes
  import opened ReleaseOutcomes
  import opened Scheduling
  import opened SchedulerCoherence
  import opened SchedulerLifecycle
  import opened SchedulerCompletion
  import opened DrainedPool

  // ----- Scheduling -----

  lemma OnlyEntry(m: map<nat, Sequence>, id: nat)
    requires |m| <= 1 && id in m
    ensures m == map[id := m[id]]
  {
    forall k | k in m ensures k == id { OnlyKey(m, id, k); }
  }

  /**
   The answer of a scheduling round in every state a scheduler can reach. While a sequence runs nothing changes
   and the answer is the decode batch of exactly that sequence, with all its tokens. Nothing is scheduled if and
   only if nothing runs and nobody waits or no sequence is allowed. Otherwise the head of the queue is admitted
   if and only if the free pool covers its shortfall.
   */
  lemma ScheduleReply(s: Sched)
    requires Wf(s.mgr) && Coherent(s)
    ensures forall id :: id in s.running ==>
              ScheduleIteration(s)
              == (s, Done(Some(Decode(map[id := |s.running[id].promptTokens| + |s.running[id].outputTokens|]))))
    ensures ScheduleIteration(s).1 == Done(None)
            <==> s.running == map[] && (s.waiting == [] || s.maxNumSeqs == 0)
    ensures ScheduleIteration(s).1 == Done(None) ==> ScheduleIteration(s).0 == s
    ensures s.running == map[] && s.waiting != [] && s.maxNumSeqs > 0 ==>
              AdmissionReply(s, s.waiting[0], ScheduleIteration(s).0, ScheduleIteration(s).1)
  {
    forall id | id in s.running
      ensures ScheduleIteration(s)
              == (s, Done(Some(Decode(map[id := |s.running[id].promptTokens| + |s.running[id].outputTokens|]))))
    {
      DecodesOne(s, id, s.running[id], |s.running[id].promptTokens| + |s.running[id].outputTokens|);
    }
    if s.running == map[] && s.waiting != [] && s.maxNumSeqs > 0 { AdmissionReplies(s, s.waiting[0]); }
  }

  lemma DecodesOne(s: Sched, id: nat, q: Sequence, count: nat)
    requires Wf(s.mgr) && |s.running| <= 1 && id in s.running && q == s.running[id]
    requires count == |q.promptTokens| + |q.outputTokens|
    ensures ScheduleIteration(s) == (s, Done(Some(Decode(map[id := count]))))
  {
    OnlyEntry(s.running, id);
    assert ScheduleIteration(s).1.value.value.tokenCounts == map[id := count];
  }

  /** An admission succeeds with a prefill of the whole prompt, or runs out of memory and puts its head back. */
  ghost predicate AdmissionReply(s: Sched, q: Sequence, t: Sched, r: Reply<Option<Batch>>)
    requires s.mgr.cfg.blockSize > 0 && s.waiting != []
  {
    if Shortfall(s.mgr, q.promptTokens) <= |s.mgr.freeStack| then
      && r == Done(Some(Prefill(q.id, |q.promptTokens|)))
      && t.running == map[q.id := q.(status := Running)] && t.waiting == s.waiting[1..] && t.finished == s.finished
    else
      && r == Failed(Memory(OutOfMemory))
      && t.running == map[] && t.waiting == s.waiting && t.finished == s.finished
  }

  lemma AdmissionReplies(s: Sched, q: Sequence)
    requires Wf(s.mgr) && s.running == map[] && s.maxNumSeqs > 0 && s.waiting != [] && q == s.waiting[0]
    ensures AdmissionReply(s, q, ScheduleIteration(s).0, ScheduleIteration(s).1)
  {
    MatchOutcome(s.mgr, q.id, q.promptTokens);
  }

  // ----- The tokens of a running sequence -----

  /** The tokens that calls gave to `id` since it last was not running. */
  function TokensSince(s: Sched, calls: seq<Call>, id: nat): seq<u32>
    requires Wf(s.mgr)
  {
    if calls == [] || id !in Drive(s, Init(calls)).running then []
    else TokensSince(s, Init(calls), id) + TokenFor(Last(calls), id)
  }

  /** The call by which a sequence was submitted. */
  predicate WasSubmitted(calls: seq<Call>, q: Sequence) {
    SubmitCall(q.id, q.promptTokens, q.maxTokens) in calls
  }

  /** A call keeps a running sequence as it is but for the token it gives, whether the page for it is had or not. */
  lemma StillRunning(s: Sched, id: nat, c: Call, t: Sched)
    requires Wf(s.mgr) && id in s.running && t == Next(s, c) && id in t.running
    ensures t.running[id] == s.running[id].(outputTokens := s.running[id].outputTokens + TokenFor(c, id))
  {
    if c.StepCall? && c.seqId == id {
      StepGives(s, id, c.token, c.isStop, t);
    } else {
      NothingGiven(s, id, c, t);
      assert s.running[id].outputTokens + [] == s.running[id].outputTokens;
    }
  }

  lemma NothingGiven(s: Sched, id: nat, c: Call, t: Sched)
    requires Wf(s.mgr) && id in s.running && TokenFor(c, id) == [] && t == Next(s, c) && id in t.running
    ensures t.running[id] == s.running[id]
  {
    match c
    case StepCall(k, token, isStop) => StepFacts(s, c, t);
    case _ =>
  }

  lemma StepGives(s: Sched, id: nat, token: u32, isStop: bool, t: Sched)
    requires Wf(s.mgr) && id in s.running && t == StepSequence(s, id, token, isStop).0 && id in t.running
    ensures t.running[id] == s.running[id].(outputTokens := s.running[id].outputTokens + [token])
  {
  }

  /** A sequence that has just begun to run comes from the head of the queue. */
  lemma JustAdmitted(s: Sched, id: nat, c: Call, t: Sched)
    requires Wf(s.mgr) && Coherent(s) && id !in s.running && t == Next(s, c) && id in t.running
    ensures c == ScheduleCall && s.waiting != [] && t.running[id] == s.waiting[0].(status := Running)
    ensures s.waiting[0].id == id && s.waiting[0].outputTokens == []
  {
    match c
    case ScheduleCall => if s.waiting != [] { assert Untouched(s.waiting[0]); }
    case StepCall(k, token, isStop) => StepFacts(s, c, t);
    case _ =>
  }

  /** In every reachable state a running sequence has exactly the tokens given to it since it began to run. */
  lemma {:induction false} OutputsAreGiven(cfg: Config, maxNumSeqs: nat, calls: seq<Call>, id: nat)
    requires cfg.blockSize > 0 && id in Drive(InitSched(cfg, maxNumSeqs), calls).running
    ensures Drive(InitSched(cfg, maxNumSeqs), calls).running[id].outputTokens
            == TokensSince(InitSched(cfg, maxNumSeqs), calls, id)
  {
    var s0 := InitSched(cfg, maxNumSeqs);
    if calls == [] {
    } else {
      var s := Drive(s0, Init(calls));
      AlwaysCoherent(cfg, maxNumSeqs, Init(calls));
      if id in s.running {
        OutputsAreGiven(cfg, maxNumSeqs, Init(calls), id);
        StillRunning(s, id, Last(calls), Drive(s0, calls));
      } else {
        JustAdmitted(s, id, Last(calls), Drive(s0, calls));
      }
    }
  }

  /** Whatever waits or runs was submitted as it is. */
  ghost predicate AllSubmitted(s: Sched, calls: seq<Call>) {
    && (forall i :: 0 <= i < |s.waiting| ==> WasSubmitted(calls, s.waiting[i]))
    && (forall id :: id in s.running ==> s.running[id].id == id && WasSubmitted(calls, s.running[id]))
  }

  lemma NextSubmitted(s: Sched, calls: seq<Call>, c: Call, t: Sched)
    requires Wf(s.mgr) && Coherent(s) && AllSubmitted(s, calls) && t == Next(s, c)
    ensures AllSubmitted(t, calls + [c])
  {
    forall i | 0 <= i < |t.waiting| ensures WasSubmitted(calls + [c], t.waiting[i]) {
      WaitingBefore(s, c, t, i);
    }
    forall id | id in t.running ensures t.running[id].id == id && WasSubmitted(calls + [c], t.running[id]) {
      if id in s.running { StillRunning(s, id, c, t); } else { JustAdmitted(s, id, c, t); }
    }
  }

  /** A waiting sequence waited before or was submitted by this call. */
  lemma WaitingBefore(s: Sched, c: Call, t: Sched, i: nat)
    requires Wf(s.mgr) && t == Next(s, c) && i < |t.waiting|
    ensures t.waiting[i] in s.waiting
            || c == SubmitCall(t.waiting[i].id, t.waiting[i].promptTokens, t.waiting[i].maxTokens)
  {
    match c
    case StepCall(k, token, isStop) => StepFacts(s, c, t);
    case _ =>
  }

  lemma {:induction false} RunsSubmitted(cfg: Config, maxNumSeqs: nat, calls: seq<Call>)
    requires cfg.blockSize > 0
    ensures AllSubmitted(Drive(InitSched(cfg, maxNumSeqs), calls), calls)
  {
    if calls == [] {
    } else {
      RunsSubmitted(cfg, maxNumSeqs, Init(calls));
      AlwaysCoherent(cfg, maxNumSeqs, Init(calls));
      NextSubmitted(Drive(InitSched(cfg, maxNumSeqs), Init(calls)), Init(calls), Last(calls),
                    Drive(InitSched(cfg, maxNumSeqs), calls));
      InitLast(calls);
    }
  }

  /**
   Every decode batch, whatever the calls before and their results: while `id` runs, a scheduling round answers
   with exactly `id` and the length of the prompt it was submitted with plus the number of tokens given to it
   since it began to run, those whose page could not be had included.
   */
  lemma DecodeCountsTokens(cfg: Config, maxNumSeqs: nat, calls: seq<Call>, id: nat, s: Sched, prompt: seq<u32>,
                           count: nat)
    requires cfg.blockSize > 0 && s == Drive(InitSched(cfg, maxNumSeqs), calls)
    requires id in s.running && prompt == s.running[id].promptTokens
    requires count == |prompt| + |TokensSince(InitSched(cfg, maxNumSeqs), calls, id)|
    ensures SubmitCall(id, prompt, s.running[id].maxTokens) in calls
    ensures ScheduleIteration(s) == (s, Done(Some(Decode(map[id := count]))))
  {
    AlwaysCoherent(cfg, maxNumSeqs, calls);
    OutputsAreGiven(cfg, maxNumSeqs, calls, id);
    RunsSubmitted(cfg, maxNumSeqs, calls);
    DecodesOne(s, id, s.running[id], count);
  }

  // ----- Stepping -----

  /** With the pages its tokens need, a table needs another for one more token exactly at a page boundary. */
  lemma NextPage(m: State, id: nat)
    requires m.cfg.blockSize > 0 && id in m.tables && PagesMatch(m, id)
    ensures LeastMore(|m.tables[id].blockIds|, if m.tables[id].logicalTokens % m.cfg.blockSize == 0 then 1 else 0,
                      m.tables[id].logicalTokens + 1, m.cfg.blockSize)
  {
    var tokens, size := m.tables[id].logicalTokens, m.cfg.blockSize;
    var n := tokens / size;
    BlocksForFloor(tokens, size);
    assert tokens == n * size + tokens % size;
    assert (n + 1) * size == n * size + size;
  }

  /**
   The answer of a step in every reachable state: not found exactly when the sequence does not run, and then
   nothing changes; over capacity exactly when one more token is over the page limit; out of memory exactly when
   the limit allows it, the tokens end on a page boundary and no block is free; and another error exactly when
   the step finishes its sequence and loses it.
   */
  lemma StepReply(s: Sched, id: nat, token: u32, isStop: bool)
    requires Wf(s.mgr) && Coherent(s)
    ensures var (t, r) := StepSequence(s, id, token, isStop);
            && (r == Failed(NotFound(id)) <==> id !in s.running) && (id !in s.running ==> t == s)
            && (id in s.running ==>
                  && id in s.mgr.tables
                  && var tokens := s.mgr.tables[id].logicalTokens;
                     && (r == Failed(Memory(CapacityExceeded)) <==> OverLimit(s.mgr.cfg, tokens + 1))
                     && (r == Failed(Memory(OutOfMemory)) <==>
                           !OverLimit(s.mgr.cfg, tokens + 1) && tokens % s.mgr.cfg.blockSize == 0
                             && s.mgr.freeStack == [])
                     && (r.Failed? && r != Failed(Memory(CapacityExceeded)) && r != Failed(Memory(OutOfMemory)) <==>
                           Loses(s, StepCall(id, token, isStop))))
  {
    if id in s.running {
      assert InStep(s, id);
      AppendReply(s.mgr, id);
      FreesReport(AppendTokens(s.mgr, id, 1).0, id);
      StepFails(s, id, token, isStop);
    }
  }

  lemma AppendReply(m: State, id: nat)
    requires Wf(m) && id in m.tables && PagesMatch(m, id)
    ensures var r := AppendTokens(m, id, 1).1;
            var tokens := m.tables[id].logicalTokens;
            && (r == Err(CapacityExceeded) <==> OverLimit(m.cfg, tokens + 1))
            && (r == Err(OutOfMemory) <==>
                  !OverLimit(m.cfg, tokens + 1) && tokens % m.cfg.blockSize == 0 && m.freeStack == [])
            && (r == Ok(()) || r == Err(CapacityExceeded) || r == Err(OutOfMemory))
  {
    AppendRefused(m, id, 1);
    if !OverLimit(m.cfg, m.tables[id].logicalTokens + 1) {
      NextPage(m, id);
      AppendOutcome(m, id, 1, if m.tables[id].logicalTokens % m.cfg.blockSize == 0 then 1 else 0);
    }
  }

  /** A step fails by its append, or by the free that loses its sequence. */
  lemma StepFails(s: Sched, id: nat, token: u32, isStop: bool)
    requires Wf(s.mgr) && id in s.running
    ensures var a := AppendTokens(s.mgr, id, 1);
            var r := StepSequence(s, id, token, isStop).1;
            && (a.1.Err? ==> r == Failed(Memory(a.1.error)) && !Loses(s, StepCall(id, token, isStop)))
            && (a.1.Ok? && Loses(s, StepCall(id, token, isStop)) ==>
                  FreeSequence(a.0, id).1.Err? && r == Failed(Memory(FreeSequence(a.0, id).1.error)))
            && (a.1.Ok? && !Loses(s, StepCall(id, token, isStop)) ==> r == Done(()))
  {
  }

  lemma FreesReport(m: State, id: nat)
    requires Wf(m)
    ensures FreeSequence(m, id).1.Err? ==> FreeSequence(m, id).1.error.DoubleFree?
  {
    if id in m.tables { OnlyDoubleFrees(RemoveTable(m, id), m.tables[id].blockIds); }
  }

  // ----- Stop tokens -----

  /** The pages for a prompt and so many more tokens. */
  function PagesFor(prompt: seq<u32>, n: nat, blockSize: nat): nat
    requires blockSize > 0
  {
    BlocksFor(|prompt| + n, blockSize)
  }

  lemma PagesUpTo(s: Sched, id: nat, given: seq<u32>, n: nat, pages: nat)
    requires Coherent(s) && HasRoom(s, id, given) && |given| < n <= StepsNeeded(s.running[id])
    requires pages == PagesFor(s.running[id].promptTokens, n, s.mgr.cfg.blockSize)
    ensures var l := s.mgr.tables[id].blockIds;
            && |l| <= pages <= |l| + |s.mgr.freeStack| && Wanted(s.mgr, id, 1) <= pages - |l|
            && (|given| + 1 == n ==> Wanted(s.mgr, id, 1) == pages - |l|)
  {
    assert InStep(s, id);
    var tokens := s.mgr.tables[id].logicalTokens;
    BlocksForMonotone(tokens, tokens + 1, s.mgr.cfg.blockSize);
    BlocksForMonotone(tokens + 1, |s.running[id].promptTokens| + n, s.mgr.cfg.blockSize);
    BlocksForMonotone(|s.running[id].promptTokens| + n, |s.running[id].promptTokens| + StepsNeeded(s.running[id]),
                      s.mgr.cfg.blockSize);
  }

  /** Calls that leave it running change nothing about whether its first `n` tokens will list a block too often. */
  lemma {:induction false} DoomThroughCalls(s: Sched, id: nat, calls: seq<Call>, n: nat, pages: nat)
    requires Wf(s.mgr) && Coherent(s) && HasRoom(s, id, []) && id !in Ids(s.waiting) && AllSpare(calls, id)
    requires |TokensFor(calls, id)| < n <= StepsNeeded(s.running[id])
    requires pages == PagesFor(s.running[id].promptTokens, n, s.mgr.cfg.blockSize)
    ensures id in Drive(s, calls).mgr.tables
    ensures Doomed(Drive(s, calls).mgr, id, pages) <==> Doomed(s.mgr, id, pages)
  {
    if calls == [] {
    } else {
      var u := Drive(s, Init(calls));
      DoomThroughCalls(s, id, Init(calls), n, pages);
      RunsAlong(s, id, Init(calls));
      DoomThroughCall(u, id, TokensFor(Init(calls), id), Last(calls), Next(u, Last(calls)), n, pages);
    }
  }

  /** While given fewer tokens than it takes, the sequence runs with them, with room for the rest. */
  lemma RunsAlong(s: Sched, id: nat, calls: seq<Call>)
    requires Wf(s.mgr) && Coherent(s) && HasRoom(s, id, []) && id !in Ids(s.waiting) && AllSpare(calls, id)
    requires |TokensFor(calls, id)| < StepsNeeded(s.running[id])
    ensures var u := Drive(s, calls);
            && Coherent(u) && HasRoom(u, id, TokensFor(calls, id)) && u.mgr.cfg == s.mgr.cfg
            && u.running[id] == s.running[id].(outputTokens := TokensFor(calls, id))
            && id !in Ids(u.waiting) && FiledAs(u, id) == FiledAs(s, id)
  {
    assert InStep(s, id);
    DriveProgress(s, id, s.running[id], calls, Doomed(s.mgr, id, PagesNeeded(s.running[id], s.mgr.cfg.blockSize)),
                  FiledAs(s, id));
    DriveKeepsConfig(s, calls);
  }

  lemma {:induction false} DriveKeepsConfig(s: Sched, calls: seq<Call>)
    requires Wf(s.mgr)
    ensures Drive(s, calls).mgr.cfg == s.mgr.cfg
  {
    if calls == [] {
    } else {
      DriveKeepsConfig(s, Init(calls));
      NextKeepsLoose(Drive(s, Init(calls)), Last(calls));
    }
  }

  lemma DoomThroughCall(u: Sched, id: nat, given: seq<u32>, c: Call, t: Sched, n: nat, pages: nat)
    requires Wf(u.mgr) && Coherent(u) && HasRoom(u, id, given) && Spares(c, id) && t == Next(u, c)
    requires |given + TokenFor(c, id)| < n <= StepsNeeded(u.running[id])
    requires pages == PagesFor(u.running[id].promptTokens, n, u.mgr.cfg.blockSize)
    ensures id in t.mgr.tables && (Doomed(t.mgr, id, pages) <==> Doomed(u.mgr, id, pages))
  {
    if TokenFor(c, id) == [] {
      OthersChangeNothing(u, id, c, t);
    } else {
      assert InStep(u, id);
      StepFits(u, id, given);
      StepStores(u, id, c.token, t);
      PagesUpTo(u, id, given, n, pages);
      AppendKeepsDoom(u.mgr, id, pages, pages - |u.mgr.tables[id].blockIds|);
    }
  }

  /** A step with a stop token ends the sequence, and loses it exactly when some block is listed too often. */
  lemma StopDecides(u: Sched, id: nat, given: seq<u32>, c: Call, n: nat, pages: nat)
    requires Wf(u.mgr) && Coherent(u) && HasRoom(u, id, given) && c.StepCall? && c.seqId == id && c.isStop
    requires n == |given| + 1 && pages == PagesFor(u.running[id].promptTokens, n, u.mgr.cfg.blockSize)
    ensures Finishes(u, c) && (Loses(u, c) <==> Doomed(u.mgr, id, pages))
  {
    StepFits(u, id, given);
    PagesUpTo(u, id, given, n, pages);
    LosesIffOverlisted(u, c);
    var l := u.mgr.tables[id].blockIds;
    var taken := NextBlocks(u.mgr, id);
    DoomedIs(u.mgr, id, pages, l, Wanted(u.mgr, id, 1), taken, l + taken);
  }

  /** What it leaves in the pools. */
  lemma StopLeaves(u: Sched, id: nat, given: seq<u32>, c: Call, t: Sched, p: Sequence, lost: bool)
    requires Wf(u.mgr) && Finishes(u, c) && c.seqId == id && c.isStop && t == Next(u, c) && lost == Loses(u, c)
    requires p == u.running[id].(outputTokens := u.running[id].outputTokens + [c.token],
                                 status := Finished(StopTokenEncountered))
    ensures t.waiting == u.waiting && t.running == u.running - {id}
    ensures t.finished == if lost then u.finished else u.finished[id := p]
  {
    StepFacts(u, c, t);
  }

  /** What a sequence stopped with these tokens is filed as. */
  function Stopped(q: Sequence, given: seq<u32>): Sequence {
    q.(outputTokens := given, status := Finished(StopTokenEncountered))
  }

  /**
   A stop token ends a sequence early: with room for its tokens, and among any other calls, a sequence that is
   given a stop token before its last step is filed with exactly the tokens given up to and including that one,
   as stopped, and stays so; or it is lost, if its table and the blocks for those tokens list some block more
   often than counted.
   */
  lemma StopFiles(s: Sched, id: nat, calls: seq<Call>, token: u32, later: seq<Call>, given: seq<u32>, pages: nat)
    requires Wf(s.mgr) && Coherent(s) && HasRoom(s, id, []) && id !in Ids(s.waiting) && AllSpare(calls, id)
    requires |TokensFor(calls, id)| < StepsNeeded(s.running[id]) && given == TokensFor(calls, id) + [token]
    requires pages == PagesFor(s.running[id].promptTokens, |given|, s.mgr.cfg.blockSize) && NoneNew(later, id)
    ensures Rests(Drive(Next(Drive(s, calls), StepCall(id, token, true)), later), id,
                  if Doomed(s.mgr, id, pages) then FiledAs(s, id) else Some(Stopped(s.running[id], given)))
  {
    var u, c := Drive(s, calls), StepCall(id, token, true);
    RunsAlong(s, id, calls);
    DoomThroughCalls(s, id, calls, |given|, pages);
    StopDecides(u, id, TokensFor(calls, id), c, |given|, pages);
    StopThenRests(s, u, id, TokensFor(calls, id), c, Doomed(s.mgr, id, pages), FiledAs(s, id));
    RestsThroughCalls(Next(u, c), id, if Doomed(s.mgr, id, pages) then FiledAs(s, id)
                      else Some(Stopped(s.running[id], given)),
                      later);
  }

  lemma StopThenRests(s: Sched, u: Sched, id: nat, given: seq<u32>, c: Call, lost: bool, before: Option<Sequence>)
    requires Wf(u.mgr) && id in s.running && Finishes(u, c) && c.seqId == id && c.isStop && lost == Loses(u, c)
    requires u.running[id] == s.running[id].(outputTokens := given) && id !in Ids(u.waiting) && FiledAs(u, id) == before
    ensures Rests(Next(u, c), id, if lost then before else Some(Stopped(s.running[id], given + [c.token])))
  {
    var p := Stopped(s.running[id], given + [c.token]);
    StopLeaves(u, id, given, c, Next(u, c), p, lost);
    NowRests(u, id, p, Next(u, c), lost, before);
  }

  /**
   From the admission: as at the last step, a sequence is lost exactly when a hit lies among the blocks
   taken by then.
   */
  lemma AdmittedStopFiles(s: Sched, q: Sequence, calls: seq<Call>, token: u32, later: seq<Call>, given: seq<u32>,
                          pages: nat)
    requires Wf(s.mgr) && Coherent(s) && s.running == map[] && s.maxNumSeqs > 0
    requires s.waiting != [] && q == s.waiting[0] && q.id !in Ids(s.waiting[1..])
    requires var most := PagesNeeded(q, s.mgr.cfg.blockSize);
             most <= s.mgr.cfg.maxBlocksPerSeq && most <= |HitBlocks(s.mgr, q.promptTokens)| + |s.mgr.freeStack|
    requires AllSpare(calls, q.id) && |TokensFor(calls, q.id)| < StepsNeeded(q)
    requires given == TokensFor(calls, q.id) + [token] && NoneNew(later, q.id)
    requires pages == PagesFor(q.promptTokens, |given|, s.mgr.cfg.blockSize)
    ensures Rests(Drive(Next(Drive(ScheduleIteration(s).0, calls), StepCall(q.id, token, true)), later), q.id,
                  if HitsAhead(s.mgr, q.promptTokens, pages) then FiledAs(s, q.id) else Some(Stopped(q, given)))
  {
    var t := ScheduleIteration(s).0;
    AdmittedHasRoom(s, q, PagesNeeded(q, s.mgr.cfg.blockSize));
    AdmittedDoomUpTo(s.mgr, q, |given|, pages);
    StopFiles(t, q.id, calls, token, later, given, pages);
  }

  lemma AdmittedDoomUpTo(m: State, q: Sequence, n: nat, pages: nat)
    requires Wf(m) && n <= StepsNeeded(q) && pages == PagesFor(q.promptTokens, n, m.cfg.blockSize)
    requires PagesNeeded(q, m.cfg.blockSize) <= |HitBlocks(m, q.promptTokens)| + |m.freeStack|
    ensures var t := MatchOrAllocatePrefix(m, q.id, q.promptTokens).0;
            q.id in t.tables && (Doomed(t, q.id, pages) <==> HitsAhead(m, q.promptTokens, pages))
  {
    BlocksForMonotone(|q.promptTokens|, |q.promptTokens| + n, m.cfg.blockSize);
    BlocksForMonotone(|q.promptTokens| + n, |q.promptTokens| + StepsNeeded(q), m.cfg.blockSize);
    AdmittedDoom(m, q.id, q.promptTokens, pages);
  }

  /** Between, every scheduling round decodes it: the prompt and the tokens the calls gave it. */
  lemma AdmittedDecodes(s: Sched, q: Sequence, calls: seq<Call>, count: nat)
    requires Wf(s.mgr) && Coherent(s) && s.running == map[] && s.maxNumSeqs > 0
    requires s.waiting != [] && q == s.waiting[0] && q.id !in Ids(s.waiting[1..])
    requires var pages := PagesNeeded(q, s.mgr.cfg.blockSize);
             pages <= s.mgr.cfg.maxBlocksPerSeq && pages <= |HitBlocks(s.mgr, q.promptTokens)| + |s.mgr.freeStack|
    requires AllSpare(calls, q.id) && |TokensFor(calls, q.id)| < StepsNeeded(q)
    requires count == |q.promptTokens| + |TokensFor(calls, q.id)|
    ensures var t := Drive(ScheduleIteration(s).0, calls);
            ScheduleIteration(t) == (t, Done(Some(Decode(map[q.id := count]))))
  {
    var t := ScheduleIteration(s).0;
    AdmittedHasRoom(s, q, PagesNeeded(q, s.mgr.cfg.blockSize));
    DecodesAlong(t, q.id, calls, count);
  }

  lemma DecodesAlong(s: Sched, id: nat, calls: seq<Call>, count: nat)
    requires Wf(s.mgr) && Coherent(s) && HasRoom(s, id, []) && id !in Ids(s.waiting) && AllSpare(calls, id)
    requires |TokensFor(calls, id)| < StepsNeeded(s.running[id])
    requires count == |s.running[id].promptTokens| + |TokensFor(calls, id)|
    ensures var t := Drive(s, calls); ScheduleIteration(t) == (t, Done(Some(Decode(map[id := count]))))
  {
    var t := Drive(s, calls);
    RunsAlong(s, id, calls);
    DecodesOne(t, id, t.running[id], count);
  }

  // ----- Reasons -----

  /**
   The call that filed a sequence: a step without stop token that reached the token limit, a step with one, or
   an abort, and in the steps the last output is the token of that step.
   */
  predicate FiledBy(c: Call, id: nat, p: Sequence) {
    match p.status
    case Finished(MaxTokensReached) =>
      p.outputTokens != [] && c == StepCall(id, Last(p.outputTokens), false) && |p.outputTokens| >= p.maxTokens
    case Finished(StopTokenEncountered) => p.outputTokens != [] && c == StepCall(id, Last(p.outputTokens), true)
    case Finished(Aborted) => c == AbortCall(id)
    case _ => false
  }

  lemma NewlyFiled(s: Sched, c: Call, t: Sched, id: nat)
    requires Wf(s.mgr) && t == Next(s, c) && id in t.finished
    requires forall k :: k in s.running ==> s.running[k].status == Running
    ensures FiledAs(t, id) == FiledAs(s, id) || FiledBy(c, id, t.finished[id])
  {
    match c
    case StepCall(k, token, isStop) => if k == id { StepFiles(s, c, t, id); } else { StepFacts(s, c, t); }
    case AbortCall(k) => AbortFiles(s, k, t, id);
    case _ =>
  }

  lemma StepFiles(s: Sched, c: Call, t: Sched, id: nat)
    requires Wf(s.mgr) && c.StepCall? && c.seqId == id && t == Next(s, c) && id in t.finished
    requires id in s.running ==> s.running[id].status == Running
    ensures FiledAs(t, id) == FiledAs(s, id) || FiledBy(c, id, t.finished[id])
  {
    StepFacts(s, c, t);
    if Finishes(s, c) { LastToken(s.running[id], id, c.token, c.isStop); }
  }

  /** A sequence that runs until this token ends by a stop token or by its limit, with this token last. */
  lemma LastToken(q: Sequence, id: nat, token: u32, isStop: bool)
    requires q.status == Running && AfterToken(q, token, isStop).status.Finished?
    ensures FiledBy(StepCall(id, token, isStop), id, AfterToken(q, token, isStop))
  {
  }

  lemma AbortFiles(s: Sched, k: nat, t: Sched, id: nat)
    requires Wf(s.mgr) && t == AbortSequence(s, k).0 && id in t.finished
    ensures FiledAs(t, id) == FiledAs(s, id) || FiledBy(AbortCall(k), id, t.finished[id])
  {
  }

  /**
   In every reachable state, whatever the calls and their results, each filed sequence was filed by a call
   that its reason names.
   */
  lemma {:induction false} ReasonsAreDue(cfg: Config, maxNumSeqs: nat, calls: seq<Call>, id: nat)
    requires cfg.blockSize > 0 && id in Drive(InitSched(cfg, maxNumSeqs), calls).finished
    ensures exists k :: 0 <= k < |calls| && FiledBy(calls[k], id, Drive(InitSched(cfg, maxNumSeqs), calls).finished[id])
  {
    var s0 := InitSched(cfg, maxNumSeqs);
    if calls == [] {
    } else {
      var s := Drive(s0, Init(calls));
      var t := Drive(s0, calls);
      AlwaysCoherent(cfg, maxNumSeqs, Init(calls));
      forall k | k in s.running ensures s.running[k].status == Running { assert InStep(s, k); }
      NewlyFiled(s, Last(calls), t, id);
      if FiledBy(Last(calls), id, t.finished[id]) {
        assert calls[|calls| - 1] == Last(calls);
      } else {
        ReasonsAreDue(cfg, maxNumSeqs, Init(calls), id);
        var k :| 0 <= k < |Init(calls)| && FiledBy(Init(calls)[k], id, s.finished[id]);
        assert calls[k] == Init(calls)[k];
      }
    }
  }

  // ----- Aborting -----

  /**
   The answer of an abort: done exactly when the sequence runs or waits; otherwise nothing changes, and the
   answer tells a filed sequence from an unknown one.
   */
  lemma AbortReply(s: Sched, id: nat)
    requires Wf(s.mgr)
    ensures var (t, r) := AbortSequence(s, id);
            && (r == Done(()) <==> id in s.running || id in Ids(s.waiting))
            && (r == Failed(AlreadyFinished(id)) <==> id !in s.running && id !in Ids(s.waiting) && id in s.finished)
            && (r == Failed(NotFound(id)) <==> id !in s.running && id !in Ids(s.waiting) && id !in s.finished)
            && (r.Failed? ==> t == s)
            && (r.Done? ==> id !in t.running && id !in t.mgr.tables)
            && (id in s.running ==>
                  && t.waiting == s.waiting
                  && FiledAs(t, id) == Some(s.running[id].(status := Finished(Aborted))))
            && (id !in s.running && r.Done? ==>
                  exists i :: 0 <= i < |s.waiting| && FirstWaiting(s.waiting, id, i)
                              && t.waiting == s.waiting[..i] + s.waiting[i + 1..]
                              && FiledAs(t, id) == Some(s.waiting[i].(status := Finished(Aborted))))
  {
    FreeSequenceTables(s.mgr, id);
    var i := Position(s.waiting, id);
    if i < |s.waiting| {
      assert Ids(s.waiting)[i] == id;
      assert FirstWaiting(s.waiting, id, i);
    }
  }

  /** Entry `i` is the first that waits under this id. */
  predicate FirstWaiting(waiting: seq<Sequence>, id: nat, i: nat) {
    i < |waiting| && waiting[i].id == id && forall j :: 0 <= j < i ==> waiting[j].id != id
  }

  /**
   An aborted sequence stays aborted with the tokens it had, and every later abort of it, after any calls that
   do not submit its id again, is told that it has finished.
   */
  lemma AbortedForGood(s: Sched, id: nat, later: seq<Call>)
    requires Wf(s.mgr) && id in s.running && id !in Ids(s.waiting) && NoneNew(later, id)
    ensures var u := Drive(Next(s, AbortCall(id)), later);
            && Rests(u, id, Some(s.running[id].(status := Finished(Aborted))))
            && AbortSequence(u, id) == (u, Failed(AlreadyFinished(id)))
  {
    var t := Next(s, AbortCall(id));
    AbortReply(s, id);
    RestsThroughCalls(t, id, Some(s.running[id].(status := Finished(Aborted))), later);
    AbortReply(Drive(t, later), id);
  }

  /** An id that was never submitted is never found. */
  lemma NeverSubmitted(cfg: Config, maxNumSeqs: nat, calls: seq<Call>, id: nat, token: u32, isStop: bool)
    requires cfg.blockSize > 0 && NoneNew(calls, id)
    ensures var s := Drive(InitSched(cfg, maxNumSeqs), calls);
            && AbortSequence(s, id) == (s, Failed(NotFound(id)))
            && StepSequence(s, id, token, isStop) == (s, Failed(NotFound(id)))
  {
    RestsThroughCalls(InitSched(cfg, maxNumSeqs), id, None, calls);
    AbortReply(Drive(InitSched(cfg, maxNumSeqs), calls), id);
  }
}
