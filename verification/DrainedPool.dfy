/** A failed admission is final: the blocks it took are in no table, so no scheduler call ever gives them back. */
module DrainedPool {
  import opened Prelude
  import opened BlockSpace
  import opened PrefixTrie
  import opened Accounting
  import opened Runs
  import opened ReferenceCounts
  import opened PrefixMatching
  import opened Scheduling
  import opened SchedulerCoherence
  import opened SchedulerLifecycle
  import opened SchedulerCompletion

  /** The books are in order and every block has a reference that no page table holds. */
  ghost predicate Drained(m: State) {
    Accounted(m) && (forall b :: 0 <= b < |m.blocks| ==> LooseRefs(m.loose)[b] > 0)
  }

  /** Then nothing is free, and every hit is live. */
  lemma NothingIsFree(m: State)
    requires Wf(m) && Drained(m)
    ensures m.freeStack == [] && AllocatedBlocksCount(m) == m.cfg.totalBlocks
    ensures forall b :: 0 <= b < |m.blocks| ==> m.blocks[b].refCount > 0
  {
    forall b | 0 <= b < |m.blocks| ensures m.blocks[b].refCount > 0 && b !in m.freeStack {
      assert LooseRefs(m.loose)[b] > 0;
    }
    HasMember(m.freeStack);
  }

  lemma HasMember(l: seq<nat>)
    ensures l != [] ==> exists b :: b in l
  {
    if l != [] { assert l[0] in l; }
  }

  lemma DrainedHitsAreLive(m: State, prompt: seq<u32>)
    requires Wf(m) && Drained(m)
    ensures LiveHits(m, prompt)
  {
    NothingIsFree(m);
    HitsInRange(m, prompt);
  }

  // ----- What no scheduler call gives back -----

  /** The pool has the same blocks, and no reference outside the tables was dropped. */
  ghost predicate KeepsLoose(m: State, t: State) {
    m.loose <= t.loose && t.cfg == m.cfg
  }

  lemma FreeSequenceKeepsLoose(m: State, id: nat)
    requires Wf(m)
    ensures KeepsLoose(m, FreeSequence(m, id).0)
  {
    FreeSequenceStrandsNothing(m, id);
    FreeSequenceTables(m, id);
  }

  lemma MatchKeepsLoose(m: State, id: nat, prompt: seq<u32>)
    requires Wf(m)
    ensures KeepsLoose(m, MatchOrAllocatePrefix(m, id, prompt).0)
  {
    RegisteredSame(m, id, prompt);
    TakePromptFrame(Registered(m, id), id, prompt);
  }

  lemma AppendKeepsLoose(m: State, id: nat, n: nat)
    requires Wf(m)
    ensures KeepsLoose(m, AppendTokens(m, id, n).0)
  {
  }

  lemma NextKeepsLoose(s: Sched, c: Call)
    requires Wf(s.mgr)
    ensures KeepsLoose(s.mgr, Next(s, c).mgr)
  {
    match c
    case SubmitCall(id, prompt, maxTokens) =>
    case ScheduleCall => ScheduleKeepsLoose(s, Next(s, c).mgr);
    case StepCall(id, token, isStop) =>
      var m := AppendTokens(s.mgr, id, 1).0;
      AppendKeepsLoose(s.mgr, id, 1);
      FreeSequenceKeepsLoose(m, id);
      StepMgrIs(s, id, token, isStop, m, Next(s, c).mgr);
    case AbortCall(id) => FreeSequenceKeepsLoose(s.mgr, id);
  }

  lemma ScheduleKeepsLoose(s: Sched, t: State)
    requires Wf(s.mgr) && t == ScheduleIteration(s).0.mgr
    ensures KeepsLoose(s.mgr, t)
  {
    if s.waiting != [] {
      var q := s.waiting[0];
      var u := MatchOrAllocatePrefix(s.mgr, q.id, q.promptTokens).0;
      MatchKeepsLoose(s.mgr, q.id, q.promptTokens);
      FreeSequenceKeepsLoose(u, q.id);
      ScheduleMgrIs(s, u, t);
      EitherKeepsLoose(s.mgr, u, FreeSequence(u, q.id).0, t);
    }
  }

  lemma ScheduleMgrIs(s: Sched, u: State, t: State)
    requires Wf(s.mgr) && s.waiting != [] && t == ScheduleIteration(s).0.mgr
    requires u == MatchOrAllocatePrefix(s.mgr, s.waiting[0].id, s.waiting[0].promptTokens).0
    ensures t == s.mgr || t == u || t == FreeSequence(u, s.waiting[0].id).0
  {
  }

  lemma EitherKeepsLoose(m: State, u: State, v: State, t: State)
    requires KeepsLoose(m, u) && KeepsLoose(u, v) && (t == m || t == u || t == v)
    ensures KeepsLoose(m, t)
  {
  }

  lemma StillDrained(m: State, t: State)
    requires Wf(m) && Wf(t) && Drained(m) && Accounted(t) && KeepsLoose(m, t)
    ensures Drained(t)
  {
    var added := t.loose[|m.loose|..];
    assert t.loose == m.loose + added;
    LooseRefsConcat(m.loose, added);
  }

  /** Whatever is called, a drained pool stays drained. */
  lemma {:induction false} DrainedForever(s: Sched, calls: seq<Call>)
    requires Wf(s.mgr) && Drained(s.mgr)
    ensures Drained(Drive(s, calls).mgr)
  {
    if calls == [] {
    } else {
      DrainedForever(s, Init(calls));
      var u := Drive(s, Init(calls));
      if u.waiting != [] { DrainedHitsAreLive(u.mgr, u.waiting[0].promptTokens); }
      NextAccounted(u, Last(calls));
      NextKeepsLoose(u, Last(calls));
      StillDrained(u.mgr, Next(u, Last(calls)).mgr);
    }
  }

  // ----- A failed admission -----

  /** With the books in order and no dead hit, a failed admission leaves every block to nobody. */
  lemma FailedAdmissionDrains(s: Sched)
    requires Wf(s.mgr) && Coherent(s) && Accounted(s.mgr) && LiveCall(s, ScheduleCall) && ScheduleIteration(s).1.Failed?
    ensures Drained(ScheduleIteration(s).0.mgr)
  {
    var t := ScheduleIteration(s).0.mgr;
    FailedAdmission(s);
    ScheduleAccounted(s, t);
    assert s.mgr.tables == map[];
    forall b | 0 <= b < |t.blocks| ensures LooseRefs(t.loose)[b] > 0 {
      assert t.blocks[b].refCount == Held(t)[b];
    }
  }

  /** One more token for this sequence fits the pages it has. */
  predicate NeedsNoPage(m: State, id: nat)
    requires m.cfg.blockSize > 0
  {
    id in m.tables && FitsLimit(m, id, 1) && Wanted(m, id, 1) == 0
  }

  lemma DrainedAppend(m: State, id: nat)
    requires Wf(m) && Drained(m)
    ensures AppendTokens(m, id, 1).1.Ok? <==> NeedsNoPage(m, id)
  {
    NothingIsFree(m);
    if id in m.tables { AllocateManyShape(m, id, Wanted(m, id, 1)); }
  }

  lemma DrainedAdmission(s: Sched)
    requires Wf(s.mgr) && Drained(s.mgr) && s.running == map[] && s.maxNumSeqs > 0 && s.waiting != []
    ensures ScheduleIteration(s).1.Done? <==> Shortfall(s.mgr, s.waiting[0].promptTokens) == 0
  {
    NothingIsFree(s.mgr);
    AdmissionIsMatch(s, s.waiting[0]);
    MatchOutcome(s.mgr, s.waiting[0].id, s.waiting[0].promptTokens);
  }

  lemma AdmissionIsMatch(s: Sched, q: Sequence)
    requires Wf(s.mgr) && s.running == map[] && s.maxNumSeqs > 0 && s.waiting != [] && q == s.waiting[0]
    ensures ScheduleIteration(s).1.Done? <==> MatchOrAllocatePrefix(s.mgr, q.id, q.promptTokens).1.Ok?
  {
  }

  /**
   One failed admission, in order books and without a dead hit, is final. After any later calls no block is
   free; a sequence is admitted exactly when the trie holds its whole prompt, with no remainder, and a
   running one gets another token exactly when that needs no page.
   */
  lemma FailedAdmissionIsFinal(s: Sched, later: seq<Call>)
    requires Wf(s.mgr) && Coherent(s) && Accounted(s.mgr) && LiveCall(s, ScheduleCall) && ScheduleIteration(s).1.Failed?
    ensures var u := Drive(ScheduleIteration(s).0, later);
            && u.mgr.freeStack == [] && AllocatedBlocksCount(u.mgr) == u.mgr.cfg.totalBlocks
            && (u.running == map[] && u.maxNumSeqs > 0 && u.waiting != [] ==>
                  (ScheduleIteration(u).1.Done? <==> Shortfall(u.mgr, u.waiting[0].promptTokens) == 0))
            && (forall id :: AppendTokens(u.mgr, id, 1).1.Ok? <==> NeedsNoPage(u.mgr, id))
  {
    FailedAdmissionDrains(s);
    DrainedForever(ScheduleIteration(s).0, later);
    DrainedCalls(Drive(ScheduleIteration(s).0, later));
  }

  lemma DrainedCalls(u: Sched)
    requires Wf(u.mgr) && Drained(u.mgr)
    ensures u.mgr.freeStack == [] && AllocatedBlocksCount(u.mgr) == u.mgr.cfg.totalBlocks
    ensures u.running == map[] && u.maxNumSeqs > 0 && u.waiting != [] ==>
              (ScheduleIteration(u).1.Done? <==> Shortfall(u.mgr, u.waiting[0].promptTokens) == 0)
    ensures forall id :: AppendTokens(u.mgr, id, 1).1.Ok? <==> NeedsNoPage(u.mgr, id)
  {
    NothingIsFree(u.mgr);
    if u.running == map[] && u.maxNumSeqs > 0 && u.waiting != [] { DrainedAdmission(u); }
    forall id: nat ensures AppendTokens(u.mgr, id, 1).1.Ok? <==> NeedsNoPage(u.mgr, id) { DrainedAppend(u.mgr, id); }
  }
}
