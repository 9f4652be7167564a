/** The scheduler and the manager agree in every reachable state, errors included. */
module SchedulerCoherence {
  import opened Prelude
  import opened BlockSpace
  import opened Runs
  import opened ReferenceCounts
  import opened PrefixMatching
  import opened Scheduling

  /** A running sequence against its page table. */
  ghost predicate InStep(s: Sched, id: nat)
    requires s.mgr.cfg.blockSize > 0 && id in s.mgr.tables && id in s.running
  {
    var t := s.mgr.tables[id];
    && PagesMatch(s.mgr, id)
    && id in s.failedSteps
    && t.logicalTokens + s.failedSteps[id] == s.running[id].TotalTokens()
    && s.running[id].status == Running
  }

  /** Page tables and running pool have the same ids, in step; and at most one sequence runs. */
  ghost predicate Coherent(s: Sched) {
    && s.mgr.cfg.blockSize > 0
    && s.mgr.tables.Keys == s.running.Keys
    && (forall id :: id in s.running ==> InStep(s, id))
    && |s.running| <= 1 && (s.maxNumSeqs == 0 ==> s.running == map[])
    && (forall i :: 0 <= i < |s.waiting| ==> Untouched(s.waiting[i]))
  }

  /** A sequence as submitted. */
  predicate Untouched(q: Sequence) {
    q.outputTokens == [] && q.status == Waiting
  }

  lemma FreeSequenceTables(m: State, id: nat)
    requires Wf(m)
    ensures FreeSequence(m, id).0.tables == m.tables - {id} && FreeSequence(m, id).0.cfg == m.cfg
  {
    if id in m.tables {
      FreeAllKeepsTables(RemoveTable(m, id), m.tables[id].blockIds);
      FreeAllKeepsConfig(RemoveTable(m, id), m.tables[id].blockIds);
    }
  }

  lemma AppendTable(m: State, id: nat)
    requires Wf(m) && id in m.tables && PagesMatch(m, id)
    ensures var (t, r) := AppendTokens(m, id, 1);
            && t.cfg == m.cfg
            && (r.Err? ==> t.tables == m.tables)
            && (r.Ok? ==>
                  && id in t.tables && t.tables == m.tables[id := t.tables[id]]
                  && PagesFit(m.cfg, t.tables[id], m.tables[id].logicalTokens + 1))
  {
    if AppendProceeds(m, id, 1) {
      AllocateManyShape(m, id, Wanted(m, id, 1));
      BlocksForMonotone(m.tables[id].logicalTokens, m.tables[id].logicalTokens + 1, m.cfg.blockSize);
    }
  }

  /** A table of this many tokens, with the pages for them. */
  ghost predicate PagesFit(cfg: Config, t: PageTable, tokens: nat) {
    cfg.blockSize > 0 && t.logicalTokens == tokens && |t.blockIds| == BlocksFor(tokens, cfg.blockSize)
  }

  lemma MatchTable(m: State, id: nat, prompt: seq<u32>)
    requires Wf(m)
    ensures var (t, r) := MatchOrAllocatePrefix(m, id, prompt);
            && t.cfg == m.cfg
            && (r.Err? ==> t.tables.Keys == m.tables.Keys + {id})
            && (r.Ok? ==>
                  && id in t.tables && t.tables == m.tables[id := t.tables[id]]
                  && PagesFit(m.cfg, t.tables[id], |prompt|))
  {
    MatchOutcome(m, id, prompt);
    BlocksForFloor(|prompt|, m.cfg.blockSize);
  }

  lemma AdmitCoherent(s: Sched)
    requires Wf(s.mgr) && Coherent(s) && s.running == map[] && s.waiting != [] && s.maxNumSeqs > 0
    ensures Coherent(Admit(s).0)
  {
    var q := s.waiting[0];
    MatchTable(s.mgr, q.id, q.promptTokens);
    var (m, r) := MatchOrAllocatePrefix(s.mgr, q.id, q.promptTokens);
    FreeSequenceTables(m, q.id);
    if r.Err? {
      NothingRuns(s, Admit(s).0, m.tables, q.id);
    } else {
      OnlyOneRuns(s, m, Admit(s).0, q);
    }
  }

  lemma NothingRuns(s: Sched, t: Sched, tables: map<nat, PageTable>, id: nat)
    requires Coherent(s) && s.running == map[] && tables.Keys == s.mgr.tables.Keys + {id}
    requires t == s.(mgr := t.mgr) && t.mgr.tables == tables - {id} && t.mgr.cfg == s.mgr.cfg
    ensures Coherent(t)
  {
    assert s.mgr.tables.Keys == {};
    assert t.mgr.tables.Keys == {};
  }

  lemma OnlyOneRuns(s: Sched, m: State, t: Sched, q: Sequence)
    requires Coherent(s) && s.running == map[] && s.maxNumSeqs > 0 && s.waiting != [] && q == s.waiting[0]
    requires m.cfg == s.mgr.cfg && q.id in m.tables && m.tables == s.mgr.tables[q.id := m.tables[q.id]]
             && PagesFit(m.cfg, m.tables[q.id], |q.promptTokens|)
    requires t == s.(mgr := m, waiting := s.waiting[1..], running := s.running[q.id := q.(status := Running)],
                     failedSteps := s.failedSteps[q.id := 0], admitted := s.admitted + [q.id])
    ensures Coherent(t)
  {
    assert Untouched(q);
    assert s.mgr.tables.Keys == {};
    assert t.running == map[q.id := q.(status := Running)];
    assert t.mgr.tables.Keys == {q.id};
  }

  /** Removing one id on both sides. */
  lemma RemovedCoherent(s: Sched, t: Sched, id: nat)
    requires Coherent(s) && t.mgr.cfg == s.mgr.cfg && t.maxNumSeqs == s.maxNumSeqs && t.failedSteps == s.failedSteps
    requires t.mgr.tables == s.mgr.tables - {id} && t.running == s.running - {id}
    requires forall i :: 0 <= i < |t.waiting| ==> Untouched(t.waiting[i])
    ensures Coherent(t)
  {
    SmallerMap(s.running, id);
    forall k | k in t.running ensures InStep(t, k) {
      assert InStep(s, k);
    }
  }

  lemma SmallerMap(m: map<nat, Sequence>, id: nat)
    ensures |m - {id}| <= |m|
    ensures m == map[] ==> m - {id} == map[]
  {
    if id in m {
      assert m.Keys == (m - {id}).Keys + {id};
    } else {
      assert m - {id} == m;
    }
  }

  /** Updating the one entry of an id on both sides. */
  lemma UpdatedCoherent(s: Sched, t: Sched, id: nat)
    requires Coherent(s) && id in s.running && t.mgr.cfg == s.mgr.cfg && t.maxNumSeqs == s.maxNumSeqs
    requires id in t.running && id in t.mgr.tables && id in t.failedSteps
    requires t.running == s.running[id := t.running[id]] && t.mgr.tables == s.mgr.tables[id := t.mgr.tables[id]]
    requires t.failedSteps == s.failedSteps[id := t.failedSteps[id]] && t.waiting == s.waiting
    requires InStep(t, id)
    ensures Coherent(t)
  {
    assert t.running.Keys == s.running.Keys;
    SameSize(s.running, t.running);
    forall k | k in t.running ensures InStep(t, k) {
      assert InStep(s, k);
    }
  }

  lemma SameSize(a: map<nat, Sequence>, b: map<nat, Sequence>)
    requires a.Keys == b.Keys
    ensures |a| == |b|
  {
    assert |a| == |a.Keys| && |b| == |b.Keys|;
  }

  /** The append failed: the token stays, the table does not grow, and the failure is counted. */
  lemma TokenLost(s: Sched, t: Sched, id: nat, token: u32)
    requires Coherent(s) && id in s.running && id in s.failedSteps
    requires t == s.(mgr := t.mgr,
                     running := s.running[id := s.running[id].(outputTokens := s.running[id].outputTokens + [token])],
                     failedSteps := s.failedSteps[id := s.failedSteps[id] + 1])
    requires t.mgr.cfg == s.mgr.cfg && t.mgr.tables == s.mgr.tables
    ensures Coherent(t)
  {
    assert InStep(s, id);
    UpdatedCoherent(s, t, id);
  }

  lemma TokenStored(s: Sched, t: Sched, id: nat, p: Sequence)
    requires Coherent(s) && id in s.running && p.status == Running
    requires p.TotalTokens() == s.running[id].TotalTokens() + 1
    requires t == s.(mgr := t.mgr, running := s.running[id := p])
    requires t.mgr.cfg == s.mgr.cfg && id in s.mgr.tables && id in t.mgr.tables
             && t.mgr.tables == s.mgr.tables[id := t.mgr.tables[id]]
    requires PagesFit(t.mgr.cfg, t.mgr.tables[id], s.mgr.tables[id].logicalTokens + 1)
    ensures Coherent(t)
  {
    assert InStep(s, id);
    UpdatedCoherent(s, t, id);
  }

  lemma FinishCoherent(s: Sched, m: State, id: nat, p: Sequence, t: Sched)
    requires Wf(m) && Coherent(s) && m.cfg == s.mgr.cfg && id in m.tables
             && m.tables == s.mgr.tables[id := m.tables[id]]
    requires t == Finish(s.(mgr := m), id, p).0
    ensures Coherent(t)
  {
    FreeSequenceTables(m, id);
    PutRemove(s.mgr.tables, id, m.tables[id]);
    RemovedCoherent(s, t, id);
  }

  lemma PutRemove<T>(m: map<nat, T>, id: nat, x: T)
    ensures m[id := x] - {id} == m - {id}
  {
  }

  lemma StepCoherent(s: Sched, id: nat, token: u32, isStop: bool)
    requires Wf(s.mgr) && Coherent(s)
    ensures Coherent(StepSequence(s, id, token, isStop).0)
  {
    if id in s.running {
      assert InStep(s, id);
      AppendTable(s.mgr, id);
      var m := AppendTokens(s.mgr, id, 1).0;
      var p := AfterToken(s.running[id], token, isStop);
      StepIs(s, id, token, isStop, m, p);
      OneMoreToken(s.running[id], token, isStop);
      if AppendTokens(s.mgr, id, 1).1.Err? {
        TokenLost(s, StepSequence(s, id, token, isStop).0, id, token);
      } else {
        TokenTaken(s, m, StepSequence(s, id, token, isStop).0, id, p);
      }
    }
  }

  lemma StepIs(s: Sched, id: nat, token: u32, isStop: bool, m: State, p: Sequence)
    requires Wf(s.mgr) && id in s.running && id in s.failedSteps
    requires m == AppendTokens(s.mgr, id, 1).0 && p == AfterToken(s.running[id], token, isStop)
    ensures StepSequence(s, id, token, isStop).0
            == if AppendTokens(s.mgr, id, 1).1.Err? then
                 s.(mgr := m,
                    running := s.running[id := s.running[id].(outputTokens := s.running[id].outputTokens + [token])],
                    failedSteps := s.failedSteps[id := s.failedSteps[id] + 1])
               else if p.status.Finished? then Finish(s.(mgr := m), id, p).0
               else s.(mgr := m, running := s.running[id := p])
  {
  }

  lemma OneMoreToken(q: Sequence, token: u32, isStop: bool)
    ensures var p := AfterToken(q, token, isStop);
            p.TotalTokens() == q.TotalTokens() + 1 && (p.status.Finished? || p.status == q.status)
  {
  }

  lemma TokenTaken(s: Sched, m: State, t: Sched, id: nat, p: Sequence)
    requires Coherent(s) && id in s.running && p.TotalTokens() == s.running[id].TotalTokens() + 1
    requires Wf(m) && m.cfg == s.mgr.cfg && id in m.tables && m.tables == s.mgr.tables[id := m.tables[id]]
    requires PagesFit(m.cfg, m.tables[id], s.mgr.tables[id].logicalTokens + 1)
    requires p.status.Finished? || p.status == Running
    requires t == if p.status.Finished? then Finish(s.(mgr := m), id, p).0
             else s.(mgr := m, running := s.running[id := p])
    ensures Coherent(t)
  {
    if p.status.Finished? {
      FinishCoherent(s, m, id, p, t);
    } else {
      TokenStored(s, t, id, p);
    }
  }

  lemma AbortCoherent(s: Sched, id: nat)
    requires Wf(s.mgr) && Coherent(s)
    ensures Coherent(AbortSequence(s, id).0)
  {
    FreeSequenceTables(s.mgr, id);
    AbortedCoherent(s, id, FreeSequence(s.mgr, id).0, AbortSequence(s, id).0);
  }

  lemma AbortedCoherent(s: Sched, id: nat, m: State, t: Sched)
    requires Coherent(s) && m.tables == s.mgr.tables - {id} && m.cfg == s.mgr.cfg
    requires var i := Position(s.waiting, id);
             if id in s.running then t == s.(mgr := m, running := s.running - {id}, finished := t.finished)
             else if i < |s.waiting| then
               t == s.(mgr := m, waiting := s.waiting[..i] + s.waiting[i + 1..], finished := t.finished,
                       withdrawn := t.withdrawn)
             else t == s
    ensures Coherent(t)
  {
    if id in s.running {
      RemovedCoherent(s, t, id);
    } else if Position(s.waiting, id) < |s.waiting| {
      NoSuchKey(s.running, id);
      OneFewerWaits(s.waiting, Position(s.waiting, id));
      RemovedCoherent(s, t, id);
    }
  }

  lemma NoSuchKey<T>(m: map<nat, T>, id: nat)
    requires id !in m
    ensures m - {id} == m
  {
  }

  lemma OneFewerWaits(waiting: seq<Sequence>, i: nat)
    requires i < |waiting| && forall j :: 0 <= j < |waiting| ==> Untouched(waiting[j])
    ensures var rest := waiting[..i] + waiting[i + 1..];
            forall j :: 0 <= j < |rest| ==> Untouched(rest[j])
  {
  }

  lemma ScheduleCoherent(s: Sched)
    requires Wf(s.mgr) && Coherent(s)
    ensures Coherent(ScheduleIteration(s).0)
  {
    if s.running == map[] && s.waiting != [] && s.maxNumSeqs > 0 { AdmitCoherent(s); }
  }

  lemma SubmitCoherent(s: Sched, q: Sequence)
    requires Coherent(s) && Untouched(q)
    ensures Coherent(Submit(s, q))
  {
    var t := Submit(s, q);
    forall k | k in t.running ensures InStep(t, k) { assert InStep(s, k); }
  }

  lemma NextCoherent(s: Sched, c: Call)
    requires Wf(s.mgr) && Coherent(s)
    ensures Coherent(Next(s, c))
  {
    match c
    case SubmitCall(id, prompt, maxTokens) => SubmitCoherent(s, NewSequence(id, prompt, maxTokens));
    case ScheduleCall => ScheduleCoherent(s);
    case StepCall(id, token, isStop) => StepCoherent(s, id, token, isStop);
    case AbortCall(id) => AbortCoherent(s, id);
  }

  /**
   In every state a scheduler can reach, whatever the calls and their results: page-table ids equal running
   ids, every running table has the pages its tokens need, its length plus the failed steps is the
   sequence's total, and no more than min(1, maxNumSeqs) sequences run.
   */
  lemma {:induction false} AlwaysCoherent(cfg: Config, maxNumSeqs: nat, calls: seq<Call>)
    requires cfg.blockSize > 0
    ensures Coherent(Drive(InitSched(cfg, maxNumSeqs), calls))
  {
    if calls == [] {
    } else {
      AlwaysCoherent(cfg, maxNumSeqs, Init(calls));
      NextCoherent(Drive(InitSched(cfg, maxNumSeqs), Init(calls)), Last(calls));
    }
  }
}
