/** Where sequences are, in what order they are admitted, and when one is lost. */
module SchedulerLifecycle {
  import opened Prelude
  import opened BlockSpace
  import opened PrefixTrie
  import opened Accounting
  import opened Runs
  import opened ReferenceCounts
  import opened PrefixMatching
  import opened Scheduling
  import opened SchedulerCoherence

  function Ids(waiting: seq<Sequence>): (r: seq<nat>)
    ensures |r| == |waiting| && forall i :: 0 <= i < |r| ==> r[i] == waiting[i].id
  {
    seq(|waiting|, i requires 0 <= i < |waiting| => waiting[i].id)
  }

  // ----- When a finishing sequence is lost -----

  /** A step that finishes its sequence. */
  predicate Finishes(s: Sched, c: Call)
    requires Wf(s.mgr)
  {
    && c.StepCall? && c.seqId in s.running
    && AppendTokens(s.mgr, c.seqId, 1).1.Ok?
    && AfterToken(s.running[c.seqId], c.token, c.isStop).status.Finished?
  }

  /** The finishing step leaves the running pool and fails to file the sequence. */
  predicate Loses(s: Sched, c: Call)
    requires Wf(s.mgr)
  {
    Finishes(s, c) && StepSequence(s, c.seqId, c.token, c.isStop).1.Failed?
  }

  /** The state after the append decides: the table then lists some block more often than it is counted. */
  lemma LosesIffFreeFails(s: Sched, c: Call)
    requires Wf(s.mgr) && Finishes(s, c)
    ensures var m := AppendTokens(s.mgr, c.seqId, 1).0;
            && c.seqId in m.tables
            && var l := m.tables[c.seqId].blockIds;
               Loses(s, c) <==> exists b :: b in l && (b >= |m.blocks| || multiset(l)[b] > m.blocks[b].refCount)
  {
    var m := AppendTokens(s.mgr, c.seqId, 1).0;
    assert c.seqId in s.mgr.tables;
    FreeAllSucceeds(RemoveTable(m, c.seqId), m.tables[c.seqId].blockIds);
  }

  /** The blocks that one more token takes from the top of the free stack. */
  function NextBlocks(m: State, id: nat): seq<nat>
    requires m.cfg.blockSize > 0 && id in m.tables
  {
    Top(m.freeStack, Min(Wanted(m, id, 1), |m.freeStack|))
  }

  /** Block `b` occurs more often in the list than it is counted, when the blocks taken count once. */
  predicate Overlisted(m: State, l: seq<nat>, taken: seq<nat>, b: nat) {
    b in l && b < |m.blocks| && multiset(l)[b] > (if b in taken then 1 else m.blocks[b].refCount)
  }

  /**
   A finishing step loses its sequence exactly when, before the step, the table followed by the top of the
   free stack lists some block more often than it is counted, where the blocks about to be taken count once.
   */
  lemma LosesIffOverlisted(s: Sched, c: Call)
    requires Wf(s.mgr) && Finishes(s, c)
    ensures c.seqId in s.mgr.tables
    ensures var taken := NextBlocks(s.mgr, c.seqId);
            var l := s.mgr.tables[c.seqId].blockIds + taken;
            AllBelow(l, |s.mgr.blocks|) && (Loses(s, c) <==> exists b :: Overlisted(s.mgr, l, taken, b))
  {
    assert c.seqId in s.mgr.tables;
    AppendLists(s.mgr, c.seqId);
    LosesIffFreeFails(s, c);
    CountsAgree(s.mgr, AppendTokens(s.mgr, c.seqId, 1).0, s.mgr.tables[c.seqId].blockIds + NextBlocks(s.mgr, c.seqId),
                NextBlocks(s.mgr, c.seqId));
  }

  /** The table and the counts after a successful append of one token. */
  lemma AppendLists(m: State, id: nat)
    requires Wf(m) && id in m.tables && AppendTokens(m, id, 1).1.Ok?
    ensures var t := AppendTokens(m, id, 1).0;
            var taken := NextBlocks(m, id);
            && id in t.tables && t.tables[id].blockIds == m.tables[id].blockIds + taken
            && AllBelow(m.tables[id].blockIds + taken, |m.blocks|) && |t.blocks| == |m.blocks|
            && (forall b :: 0 <= b < |m.blocks| ==>
                  t.blocks[b].refCount == if b in taken then 1 else m.blocks[b].refCount)
  {
    var k := Wanted(m, id, 1);
    AllocateManyShape(m, id, k);
    AllocateManyBlocks(m, id, k);
    TopBelow(m.freeStack, Min(k, |m.freeStack|), |m.blocks|);
  }

  lemma TopBelow(stack: seq<nat>, x: nat, bound: nat)
    requires x <= |stack| && AllBelow(stack, bound)
    ensures AllBelow(Top(stack, x), bound)
  {
  }

  lemma CountsAgree(m: State, t: State, l: seq<nat>, taken: seq<nat>)
    requires AllBelow(l, |m.blocks|) && |t.blocks| == |m.blocks|
    requires forall b :: 0 <= b < |m.blocks| ==> t.blocks[b].refCount == if b in taken then 1 else m.blocks[b].refCount
    ensures (exists b :: b in l && (b >= |t.blocks| || multiset(l)[b] > t.blocks[b].refCount))
            <==> (exists b :: Overlisted(m, l, taken, b))
  {
    forall b: nat ensures (b in l && (b >= |t.blocks| || multiset(l)[b] > t.blocks[b].refCount))
      <==> Overlisted(m, l, taken, b) {
      if b in l { assert b < |m.blocks|; }
    }
  }

  /** With the books in order, no finishing step loses its sequence. */
  lemma AccountedLosesNothing(s: Sched, c: Call)
    requires Wf(s.mgr) && Accounted(s.mgr)
    ensures !Loses(s, c)
  {
    if Finishes(s, c) {
      AppendAccounted(s.mgr, c.seqId, 1);
      FreeSequenceAccounted(AppendTokens(s.mgr, c.seqId, 1).0, c.seqId);
    }
  }

  // ----- Conservation -----

  /** Every id in the three pools, with multiplicity. */
  ghost function Pools(s: Sched): multiset<nat> {
    multiset(Ids(s.waiting)) + multiset(s.running.Keys) + multiset(s.finished.Keys)
  }

  /** Each submitted id is in exactly one pool, and nothing else is. */
  ghost predicate Conserved(s: Sched) {
    Distinct(s.submitted) && Pools(s) == multiset(s.submitted)
  }

  lemma {:induction false} DistinctMultiset(l: seq<nat>, id: nat)
    requires Distinct(l)
    ensures multiset(l)[id] == if id in l then 1 else 0
  {
    if l == [] {
    } else {
      DistinctMultiset(Init(l), id);
      InitLast(l);
    }
  }

  /** No id is in two pools or twice in one. */
  lemma OnePool(s: Sched, id: nat)
    requires Conserved(s)
    ensures multiset(Ids(s.waiting))[id] + (if id in s.running then 1 else 0) + (if id in s.finished then 1 else 0)
            == (if id in s.submitted then 1 else 0)
  {
    DistinctMultiset(s.submitted, id);
    assert Pools(s)[id] == multiset(Ids(s.waiting))[id] + multiset(s.running.Keys)[id] + multiset(s.finished.Keys)[id];
  }

  lemma PutKeys(m: map<nat, Sequence>, id: nat, q: Sequence)
    ensures id !in m ==> multiset(m[id := q].Keys) == multiset(m.Keys) + multiset{id}
    ensures id in m ==> multiset(m[id := q].Keys) == multiset(m.Keys)
  {
    if id !in m {
      assert m[id := q].Keys == m.Keys + {id};
    } else {
      assert m[id := q].Keys == m.Keys;
    }
  }

  lemma DropKeys(m: map<nat, Sequence>, id: nat)
    requires id in m
    ensures multiset((m - {id}).Keys) + multiset{id} == multiset(m.Keys)
  {
    assert (m - {id}).Keys == m.Keys - {id};
  }

  lemma HeadIds(waiting: seq<Sequence>)
    requires waiting != []
    ensures multiset(Ids(waiting)) == multiset{waiting[0].id} + multiset(Ids(waiting[1..]))
    ensures Ids(waiting) == [waiting[0].id] + Ids(waiting[1..])
  {
    assert Ids(waiting) == [waiting[0].id] + Ids(waiting[1..]);
  }

  lemma WithoutIds(waiting: seq<Sequence>, i: nat)
    requires i < |waiting|
    ensures Ids(waiting[..i] + waiting[i + 1..]) == Ids(waiting)[..i] + Ids(waiting)[i + 1..]
    ensures multiset(Ids(waiting[..i] + waiting[i + 1..])) + multiset{waiting[i].id} == multiset(Ids(waiting))
  {
    var l := Ids(waiting);
    assert Ids(waiting[..i] + waiting[i + 1..]) == l[..i] + l[i + 1..];
    assert l == l[..i] + [l[i]] + l[i + 1..];
  }

  /** One submission adds its id. */
  lemma SubmitPools(s: Sched, q: Sequence)
    ensures Pools(Submit(s, q)) == Pools(s) + multiset{q.id}
    ensures Ids(Submit(s, q).waiting) == Ids(s.waiting) + [q.id]
  {
    assert Ids(Submit(s, q).waiting) == Ids(s.waiting) + [q.id];
  }

  /** Moving a head-of-queue sequence to the running pool keeps the pools. */
  lemma AdmitPools(s: Sched, t: Sched, q: Sequence)
    requires s.waiting != [] && q.id == s.waiting[0].id && q.id !in s.running
    requires t.waiting == s.waiting[1..] && t.running == s.running[q.id := q] && t.finished == s.finished
    ensures Pools(t) == Pools(s)
  {
    HeadIds(s.waiting);
    PutKeys(s.running, q.id, q);
  }

  /** Moving a sequence out of the running pool: filed or lost. */
  lemma LeavePools(s: Sched, t: Sched, id: nat, q: Sequence)
    requires id in s.running && id !in s.finished && t.waiting == s.waiting && t.running == s.running - {id}
    ensures t.finished == s.finished[id := q] ==> Pools(t) == Pools(s)
    ensures t.finished == s.finished ==> Pools(t) + multiset{id} == Pools(s)
  {
    DropKeys(s.running, id);
    PutKeys(s.finished, id, q);
  }

  lemma WithdrawPools(s: Sched, t: Sched, i: nat, q: Sequence)
    requires i < |s.waiting| && q.id == s.waiting[i].id && q.id !in s.finished
    requires t.waiting == s.waiting[..i] + s.waiting[i + 1..] && t.running == s.running
             && t.finished == s.finished[q.id := q]
    ensures Pools(t) == Pools(s)
  {
    WithoutIds(s.waiting, i);
    PutKeys(s.finished, q.id, q);
  }

  /** Ids are unique: a submission brings a new one. */
  predicate FreshCall(s: Sched, c: Call) {
    c.SubmitCall? ==> c.id !in s.submitted
  }

  /** What a step does to the pools, case by case. */
  lemma StepFacts(s: Sched, c: Call, t: Sched)
    requires Wf(s.mgr) && c.StepCall? && t == Next(s, c)
    ensures t.waiting == s.waiting && t.submitted == s.submitted && t.admitted == s.admitted
            && t.withdrawn == s.withdrawn
    ensures c.seqId !in s.running ==> t == s && !Loses(s, c)
    ensures c.seqId in s.running && !Finishes(s, c) ==>
              c.seqId in t.running && t.running == s.running[c.seqId := t.running[c.seqId]] && t.finished == s.finished
    ensures Finishes(s, c) ==> t.running == s.running - {c.seqId}
    ensures Finishes(s, c) ==>
              t.finished == if Loses(s, c) then s.finished
                            else s.finished[c.seqId := AfterToken(s.running[c.seqId], c.token, c.isStop)]
  {
    StepFrame(s, c, t);
    if Finishes(s, c) { FinishFacts(s, c, t); }
  }

  lemma FinishFacts(s: Sched, c: Call, t: Sched)
    requires Wf(s.mgr) && Finishes(s, c) && t == Next(s, c)
    ensures t.running == s.running - {c.seqId}
    ensures t.finished == if Loses(s, c) then s.finished
            else s.finished[c.seqId := AfterToken(s.running[c.seqId], c.token, c.isStop)]
  {
  }

  lemma StepFrame(s: Sched, c: Call, t: Sched)
    requires Wf(s.mgr) && c.StepCall? && t == Next(s, c)
    ensures t == s.(mgr := t.mgr, running := t.running, finished := t.finished, failedSteps := t.failedSteps)
  {
    if Finishes(s, c) {
      FinishFrame(s.(mgr := AppendTokens(s.mgr, c.seqId, 1).0), c.seqId,
                  AfterToken(s.running[c.seqId], c.token, c.isStop));
    }
  }

  lemma FinishFrame(s: Sched, id: nat, p: Sequence)
    requires Wf(s.mgr)
    ensures var t := Finish(s, id, p).0; t == s.(mgr := t.mgr, running := t.running, finished := t.finished)
  {
  }

  lemma StepPools(s: Sched, c: Call)
    requires Wf(s.mgr) && Conserved(s) && c.StepCall?
    ensures Pools(Next(s, c)) + (if Loses(s, c) then multiset{c.seqId} else multiset{}) == Pools(s)
  {
    OnePool(s, c.seqId);
    StepFacts(s, c, Next(s, c));
    MovedPools(s, Next(s, c), c.seqId, c.seqId in s.running && Finishes(s, c), Loses(s, c));
  }

  lemma MovedPools(s: Sched, t: Sched, id: nat, done: bool, lost: bool)
    requires t.waiting == s.waiting && (id in s.running ==> id !in s.finished)
    requires id !in s.running ==> t == s && !lost && !done
    requires id in s.running && !done
             ==> !lost && id in t.running && t.running == s.running[id := t.running[id]] && t.finished == s.finished
    requires done ==> t.running == s.running - {id}
    requires done && !lost ==> id in t.finished && t.finished == s.finished[id := t.finished[id]]
    requires lost ==> done && t.finished == s.finished
    ensures Pools(t) + (if lost then multiset{id} else multiset{}) == Pools(s)
  {
    if done {
      LeavePools(s, t, id, if lost then s.running[id] else t.finished[id]);
    } else if id in s.running {
      PutKeys(s.running, id, t.running[id]);
    }
  }

  lemma AbortPools(s: Sched, id: nat)
    requires Wf(s.mgr) && Conserved(s)
    ensures Pools(AbortSequence(s, id).0) == Pools(s)
  {
    OnePool(s, id);
    var t := AbortSequence(s, id).0;
    var i := Position(s.waiting, id);
    if id in s.running {
      LeavePools(s, t, id, t.finished[id]);
    } else if i < |s.waiting| {
      assert Ids(s.waiting)[i] == id;
      WithdrawPools(s, t, i, s.waiting[i].(status := Finished(Aborted)));
    }
  }

  lemma SchedulePools(s: Sched)
    requires Wf(s.mgr) && Conserved(s)
    ensures Pools(ScheduleIteration(s).0) == Pools(s)
  {
    if s.running == map[] && |s.running| < s.maxNumSeqs && s.waiting != [] {
      var q := s.waiting[0];
      if ScheduleIteration(s).1.Done? {
        AdmitPools(s, ScheduleIteration(s).0, q.(status := Running));
      }
    }
  }

  lemma PoolsDecide(s: Sched, t: Sched, id: nat, lost: bool)
    requires Conserved(s) && t.submitted == s.submitted
    requires Pools(t) + (if lost then multiset{id} else multiset{}) == Pools(s)
    ensures Conserved(t) <==> !lost
  {
    assert lost ==> |Pools(t)| + 1 == |Pools(s)|;
  }

  lemma SubmitConserves(s: Sched, q: Sequence)
    requires Conserved(s) && q.id !in s.submitted
    ensures Conserved(Submit(s, q))
  {
    SubmitPools(s, q);
    assert multiset(s.submitted + [q.id]) == multiset(s.submitted) + multiset{q.id};
  }

  lemma ScheduleConserves(s: Sched)
    requires Wf(s.mgr) && Conserved(s)
    ensures Conserved(ScheduleIteration(s).0)
  {
    SchedulePools(s);
    PoolsDecide(s, ScheduleIteration(s).0, 0, false);
  }

  lemma AbortConserves(s: Sched, id: nat)
    requires Wf(s.mgr) && Conserved(s)
    ensures Conserved(AbortSequence(s, id).0)
  {
    AbortPools(s, id);
    PoolsDecide(s, AbortSequence(s, id).0, id, false);
  }

  lemma StepConserves(s: Sched, c: Call, t: Sched)
    requires Wf(s.mgr) && Conserved(s) && c.StepCall? && t == Next(s, c)
    ensures Conserved(t) <==> !Loses(s, c)
  {
    StepFrame(s, c, t);
    StepPools(s, c);
    PoolsDecide(s, t, c.seqId, Loses(s, c));
  }

  /** With unique ids, one call keeps every submitted sequence in exactly one pool, exactly unless it loses one. */
  lemma NextConserves(s: Sched, c: Call)
    requires Wf(s.mgr) && Conserved(s) && FreshCall(s, c)
    ensures Conserved(Next(s, c)) <==> !Loses(s, c)
  {
    match c
    case SubmitCall(id, prompt, maxTokens) => SubmitConserves(s, NewSequence(id, prompt, maxTokens));
    case ScheduleCall => ScheduleConserves(s);
    case StepCall(id, token, isStop) => StepConserves(s, c, Next(s, c));
    case AbortCall(id) => AbortConserves(s, id);
  }

  // ----- First in, first out -----

  /** `l` without the ids in `gone`. */
  function Without(l: seq<nat>, gone: set<nat>): seq<nat> {
    if l == [] then []
    else Without(Init(l), gone) + (if Last(l) in gone then [] else [Last(l)])
  }

  lemma {:induction false} WithoutConcat(a: seq<nat>, b: seq<nat>, gone: set<nat>)
    ensures Without(a + b, gone) == Without(a, gone) + Without(b, gone)
  {
    if b == [] {
      assert a + b == a;
    } else {
      assert Init(a + b) == a + Init(b);
      WithoutConcat(a, Init(b), gone);
    }
  }

  lemma {:induction false} WithoutNothing(l: seq<nat>, gone: set<nat>)
    requires forall i :: 0 <= i < |l| ==> l[i] !in gone
    ensures Without(l, gone) == l
  {
    if l == [] {
    } else {
      var init, last := Init(l), Last(l);
      WithoutNothing(init, gone);
      assert l == init + [last] && last == l[|l| - 1];
    }
  }

  lemma {:induction false} WithoutMembers(l: seq<nat>, gone: set<nat>, id: nat)
    ensures id in Without(l, gone) <==> id in l && id !in gone
  {
    if l == [] {
    } else {
      WithoutMembers(Init(l), gone, id);
      InitLast(l);
    }
  }

  lemma {:induction false} WithoutDistinct(l: seq<nat>, gone: set<nat>)
    requires Distinct(l)
    ensures Distinct(Without(l, gone))
  {
    if l == [] {
    } else {
      WithoutDistinct(Init(l), gone);
      WithoutMembers(Init(l), gone, Last(l));
    }
  }

  lemma {:induction false} WithoutTwice(l: seq<nat>, gone: set<nat>, id: nat)
    ensures Without(Without(l, gone), {id}) == Without(l, gone + {id})
  {
    if l == [] {
    } else {
      WithoutTwice(Init(l), gone, id);
      var last := if Last(l) in gone then [] else [Last(l)];
      WithoutConcat(Without(Init(l), gone), last, {id});
      if last != [] { assert Init(last) == []; }
    }
  }

  /** Taking the one occurrence of an id out of a list. */
  lemma WithoutOne(a: seq<nat>, id: nat, b: seq<nat>)
    requires id !in a && id !in b
    ensures Without(a + [id] + b, {id}) == a + b
  {
    WithoutConcat(a + [id], b, {id});
    WithoutConcat(a, [id], {id});
    WithoutNothing(a, {id});
    WithoutNothing(b, {id});
    assert Init([id]) == [] && Without([id], {id}) == [];
    assert a + [] == a;
  }

  /** In a list without repetition, what surrounds an entry does not contain it. */
  lemma DistinctAround(a: seq<nat>, b: seq<nat>, i: nat)
    requires Distinct(a + b) && i < |b|
    ensures b[i] !in a + b[..i] && b[i] !in b[i + 1..]
    ensures (a + b[..i]) + [b[i]] + b[i + 1..] == a + b
  {
    var l := a + b;
    assert l[|a| + i] == b[i];
    assert a + b[..i] == l[..|a| + i] && b[i + 1..] == l[|a| + i + 1..];
  }

  /** Admissions so far, then the queue, are the submissions that were not aborted while waiting, in order. */
  ghost predicate InOrder(s: Sched) {
    && Distinct(s.submitted)
    && s.admitted + Ids(s.waiting) == Without(s.submitted, s.withdrawn)
    && (forall id :: id in s.withdrawn ==> id in s.submitted)
  }

  lemma SubmitInOrder(s: Sched, q: Sequence)
    requires InOrder(s) && q.id !in s.submitted
    ensures InOrder(Submit(s, q))
  {
    SubmitPools(s, q);
    var l := s.submitted + [q.id];
    assert Init(l) == s.submitted && Last(l) == q.id;
    assert s.admitted + (Ids(s.waiting) + [q.id]) == (s.admitted + Ids(s.waiting)) + [q.id];
  }

  lemma AdmitInOrder(s: Sched, t: Sched)
    requires InOrder(s) && s.waiting != [] && t.submitted == s.submitted && t.withdrawn == s.withdrawn
    requires t.waiting == s.waiting[1..] && t.admitted == s.admitted + [s.waiting[0].id]
    ensures InOrder(t)
  {
    HeadIds(s.waiting);
    assert s.admitted + ([s.waiting[0].id] + Ids(t.waiting)) == s.admitted + [s.waiting[0].id] + Ids(t.waiting);
  }

  lemma WithdrawInOrder(s: Sched, t: Sched, i: nat)
    requires InOrder(s) && i < |s.waiting| && t.submitted == s.submitted && t.admitted == s.admitted
    requires t.waiting == s.waiting[..i] + s.waiting[i + 1..] && t.withdrawn == s.withdrawn + {s.waiting[i].id}
    ensures InOrder(t)
  {
    var id := s.waiting[i].id;
    var ids := Ids(s.waiting);
    WithoutDistinct(s.submitted, s.withdrawn);
    WithoutIds(s.waiting, i);
    WithoutTwice(s.submitted, s.withdrawn, id);
    DistinctAround(s.admitted, ids, i);
    WithoutOne(s.admitted + ids[..i], id, ids[i + 1..]);
    assert (s.admitted + ids[..i]) + ids[i + 1..] == s.admitted + (ids[..i] + ids[i + 1..]);
    assert ids[i] in s.admitted + ids;
    WithoutMembers(s.submitted, s.withdrawn, id);
  }

  /** Admission is first in, first out, whatever the calls and their results, as long as ids are unique. */
  lemma NextInOrder(s: Sched, c: Call)
    requires Wf(s.mgr) && InOrder(s) && FreshCall(s, c)
    ensures InOrder(Next(s, c))
  {
    match c
    case SubmitCall(id, prompt, maxTokens) => SubmitInOrder(s, NewSequence(id, prompt, maxTokens));
    case ScheduleCall =>
      if s.running == map[] && |s.running| < s.maxNumSeqs && s.waiting != [] && ScheduleIteration(s).1.Done? {
        AdmitInOrder(s, Next(s, c));
      }
    case StepCall(id, token, isStop) => StepFacts(s, c, Next(s, c));
    case AbortCall(id) =>
      if id !in s.running && Position(s.waiting, id) < |s.waiting| {
        WithdrawInOrder(s, Next(s, c), Position(s.waiting, id));
      }
  }

  // ----- Status -----

  /** Pools and status agree, and every entry is filed under its own id. */
  ghost predicate StatusOk(s: Sched) {
    && (forall i :: 0 <= i < |s.waiting| ==> s.waiting[i].status == Waiting)
    && (forall id :: id in s.running ==> s.running[id].status == Running && s.running[id].id == id)
    && (forall id :: id in s.finished ==> s.finished[id].status.Finished? && s.finished[id].id == id)
  }

  lemma StepStatus(s: Sched, c: Call, t: Sched)
    requires Wf(s.mgr) && c.StepCall? && c.seqId in s.running && !Finishes(s, c) && t == Next(s, c)
    requires s.running[c.seqId].status == Running
    ensures c.seqId in t.running && t.running[c.seqId].status == Running
            && t.running[c.seqId].id == s.running[c.seqId].id
  {
  }

  lemma StepCallStatus(s: Sched, c: Call, t: Sched)
    requires Wf(s.mgr) && StatusOk(s) && c.StepCall? && t == Next(s, c)
    ensures StatusOk(t)
  {
    StepFacts(s, c, t);
    if c.seqId in s.running && !Finishes(s, c) { StepStatus(s, c, t); }
  }

  /** Status changes only with the pool: waiting to running or aborted, running to finished. */
  lemma NextStatus(s: Sched, c: Call)
    requires Wf(s.mgr) && StatusOk(s)
    ensures StatusOk(Next(s, c))
  {
    match c
    case SubmitCall(id, prompt, maxTokens) =>
    case ScheduleCall => ScheduleCallStatus(s, ScheduleIteration(s).0);
    case StepCall(id, token, isStop) => StepCallStatus(s, c, Next(s, c));
    case AbortCall(id) => AbortStatus(s, id, AbortSequence(s, id).0);
  }

  lemma ScheduleCallStatus(s: Sched, t: Sched)
    requires Wf(s.mgr) && StatusOk(s) && t == ScheduleIteration(s).0
    ensures StatusOk(t)
  {
    ScheduleStatus(s, t);
  }

  lemma ScheduleStatus(s: Sched, t: Sched)
    requires StatusOk(s)
    requires (t.waiting == s.waiting && t.running == s.running && t.finished == s.finished)
             || (s.waiting != [] && t.waiting == s.waiting[1..] && t.finished == s.finished
                 && t.running == s.running[s.waiting[0].id := s.waiting[0].(status := Running)])
    ensures StatusOk(t)
  {
  }

  lemma AbortStatus(s: Sched, id: nat, t: Sched)
    requires Wf(s.mgr) && StatusOk(s) && t == AbortSequence(s, id).0
    ensures StatusOk(t)
  {
    var i := Position(s.waiting, id);
    if id in s.running {
      FiledStatus(s, t, id, s.running[id].(status := Finished(Aborted)));
    } else if i < |s.waiting| {
      FiledStatus(s, t, id, s.waiting[i].(status := Finished(Aborted)));
    }
  }

  lemma FiledStatus(s: Sched, t: Sched, id: nat, q: Sequence)
    requires StatusOk(s) && q.id == id && q.status.Finished? && t.finished == s.finished[id := q]
    requires t.running == s.running || t.running == s.running - {id}
    requires t.waiting == s.waiting
             || exists i :: 0 <= i < |s.waiting| && t.waiting == s.waiting[..i] + s.waiting[i + 1..]
    ensures StatusOk(t)
  {
  }

  // ----- The life of one sequence -----

  /** Where an id stands. */
  datatype Phase = Absent | Queued | Active | Filed(reason: FinishReason)

  function PhaseOf(s: Sched, id: nat): Phase {
    if id in s.running then Active
    else if id in s.finished && s.finished[id].status.Finished? then Filed(s.finished[id].status.reason)
    else if id in Ids(s.waiting) then Queued
    else Absent
  }

  /** Submitted, admitted and finished in this order, or aborted while queued; a filed sequence stays as it is. */
  predicate Moves(a: Phase, b: Phase) {
    || a == b
    || (a.Absent? && b.Queued?)
    || (a.Queued? && (b.Active? || b == Filed(Aborted)))
    || (a.Active? && b.Filed?)
  }

  /** With unique ids, one call moves every id along its life, exactly unless it loses that very sequence. */
  lemma NextMoves(s: Sched, c: Call, id: nat)
    requires Wf(s.mgr) && Conserved(s) && StatusOk(s) && FreshCall(s, c)
    ensures Moves(PhaseOf(s, id), PhaseOf(Next(s, c), id)) <==> !(Loses(s, c) && id == c.seqId)
  {
    Apart(s, id);
    match c
    case SubmitCall(k, prompt, maxTokens) => SubmitMoves(s, NewSequence(k, prompt, maxTokens), id);
    case ScheduleCall => ScheduleCallMoves(s, ScheduleIteration(s).0, id);
    case StepCall(k, token, isStop) => Apart(s, k); StepMoves(s, c, Next(s, c), id);
    case AbortCall(k) => Apart(s, k); AbortMoves(s, k, AbortSequence(s, k).0, id);
  }

  lemma Apart(s: Sched, id: nat)
    requires Conserved(s)
    ensures id in Ids(s.waiting) ==> id !in s.running && id !in s.finished
    ensures id in s.running ==> id !in s.finished
    ensures id in Ids(s.waiting) || id in s.running || id in s.finished ==> id in s.submitted
  {
    OnePool(s, id);
  }

  lemma SubmitMoves(s: Sched, q: Sequence, id: nat)
    requires Conserved(s) && q.id !in s.submitted
    ensures Moves(PhaseOf(s, id), PhaseOf(Submit(s, q), id))
  {
    SubmitPools(s, q);
    Apart(s, q.id);
  }

  lemma ScheduleCallMoves(s: Sched, t: Sched, id: nat)
    requires Wf(s.mgr) && t == ScheduleIteration(s).0 && (id in Ids(s.waiting) ==> id !in s.finished)
    ensures Moves(PhaseOf(s, id), PhaseOf(t, id))
  {
    ScheduleMoves(s, t, id);
  }

  lemma ScheduleMoves(s: Sched, t: Sched, id: nat)
    requires (t.waiting == s.waiting && t.running == s.running && t.finished == s.finished)
             || (s.waiting != [] && t.waiting == s.waiting[1..] && t.finished == s.finished
                 && t.running == s.running[s.waiting[0].id := s.waiting[0].(status := Running)])
    requires id in Ids(s.waiting) ==> id !in s.finished
    ensures Moves(PhaseOf(s, id), PhaseOf(t, id))
  {
    if s.waiting != [] { HeadIds(s.waiting); }
  }

  lemma StepMoves(s: Sched, c: Call, t: Sched, id: nat)
    requires Wf(s.mgr) && StatusOk(s) && c.StepCall? && t == Next(s, c)
    requires c.seqId in s.running ==> c.seqId !in s.finished && c.seqId !in Ids(s.waiting)
    ensures Moves(PhaseOf(s, id), PhaseOf(t, id)) <==> !(Loses(s, c) && id == c.seqId)
  {
    StepFacts(s, c, t);
    LeaveMoves(s, t, c.seqId, c.seqId in s.running && Finishes(s, c), Loses(s, c), id);
  }

  lemma LeaveMoves(s: Sched, t: Sched, k: nat, done: bool, lost: bool, id: nat)
    requires t.waiting == s.waiting && (k in s.running ==> k !in s.finished && k !in Ids(s.waiting))
    requires k !in s.running ==> t == s && !lost && !done
    requires k in s.running && !done
             ==> !lost && k in t.running && t.running == s.running[k := t.running[k]] && t.finished == s.finished
    requires done ==> t.running == s.running - {k}
    requires done && !lost ==>
               k in t.finished && t.finished == s.finished[k := t.finished[k]] && t.finished[k].status.Finished?
    requires lost ==> done && t.finished == s.finished
    ensures Moves(PhaseOf(s, id), PhaseOf(t, id)) <==> !(lost && id == k)
  {
  }

  lemma AbortMoves(s: Sched, k: nat, t: Sched, id: nat)
    requires Wf(s.mgr) && StatusOk(s) && t == AbortSequence(s, k).0
    requires k in Ids(s.waiting) ==> k !in s.running && k !in s.finished
    ensures Moves(PhaseOf(s, id), PhaseOf(t, id))
  {
    var i := Position(s.waiting, k);
    if k !in s.running && i < |s.waiting| {
      assert Ids(s.waiting)[i] == k;
      WithoutIds(s.waiting, i);
      if id != k { OthersRemain(Ids(s.waiting), i, id); }
    }
  }

  lemma OthersRemain(l: seq<nat>, i: nat, id: nat)
    requires i < |l| && id != l[i]
    ensures id in l[..i] + l[i + 1..] <==> id in l
  {
    assert l == l[..i] + [l[i]] + l[i + 1..];
  }

  /**
   A failed admission leaves the three pools and the page tables as they were, but it drains the pool: the
   blocks taken before the failing one are in no table.
   */
  lemma FailedAdmission(s: Sched)
    requires Wf(s.mgr) && Coherent(s) && ScheduleIteration(s).1.Failed?
    ensures var t := ScheduleIteration(s).0;
            && t.waiting == s.waiting && t.running == s.running && t.finished == s.finished && t.admitted == s.admitted
            && t.mgr.tables == s.mgr.tables && t.mgr.freeStack == []
  {
    FailedAdmissionIs(s);
    assert s.mgr.tables == map[];
    FailedMatch(s.mgr, s.waiting[0].id, s.waiting[0].promptTokens);
  }

  lemma FailedAdmissionIs(s: Sched)
    requires Wf(s.mgr) && ScheduleIteration(s).1.Failed?
    ensures s.running == map[] && s.waiting != []
    ensures var q := s.waiting[0];
            var (m, r) := MatchOrAllocatePrefix(s.mgr, q.id, q.promptTokens);
            r.Err? && ScheduleIteration(s).0 == s.(mgr := FreeSequence(m, q.id).0)
  {
  }

  lemma FailedMatch(m: State, id: nat, prompt: seq<u32>)
    requires Wf(m) && m.tables == map[] && MatchOrAllocatePrefix(m, id, prompt).1.Err?
    ensures var t := FreeSequence(MatchOrAllocatePrefix(m, id, prompt).0, id).0;
            t.tables == map[] && t.freeStack == []
  {
    MatchOutcome(m, id, prompt);
    UnregisterEmpty(MatchOrAllocatePrefix(m, id, prompt).0, id);
  }

  /** Freeing a sequence that has no blocks only removes its table. */
  lemma UnregisterEmpty(m: State, id: nat)
    requires Wf(m) && m.tables == map[id := PageTable(0, [])]
    ensures var t := FreeSequence(m, id).0; t.tables == map[] && t.freeStack == m.freeStack
  {
    assert m.tables - {id} == map[];
  }

  /** An admission in this call hits only blocks in use. */
  predicate LiveCall(s: Sched, c: Call)
    requires Wf(s.mgr)
  {
    c.ScheduleCall? && s.running == map[] && s.maxNumSeqs > 0 && s.waiting != [] ==>
      LiveHits(s.mgr, s.waiting[0].promptTokens)
  }

  lemma AdmitAccounted(m: State, id: nat, prompt: seq<u32>)
    requires Wf(m) && Accounted(m) && LiveHits(m, prompt)
    ensures Accounted(MatchOrAllocatePrefix(m, id, prompt).0)
    ensures Accounted(FreeSequence(MatchOrAllocatePrefix(m, id, prompt).0, id).0)
  {
    MatchAccounted(m, id, prompt);
    FreeSequenceAccounted(MatchOrAllocatePrefix(m, id, prompt).0, id);
  }

  lemma StepMgrAccounted(m: State, id: nat)
    requires Wf(m) && Accounted(m)
    ensures Accounted(AppendTokens(m, id, 1).0)
    ensures Accounted(FreeSequence(AppendTokens(m, id, 1).0, id).0)
  {
    AppendAccounted(m, id, 1);
    FreeSequenceAccounted(AppendTokens(m, id, 1).0, id);
  }

  /** The manager in `t` is one of these, all of them in order. */
  lemma EitherAccounted(t: State, a: State, b: State, c: State)
    requires Accounted(a) && Accounted(b) && Accounted(c) && (t == a || t == b || t == c)
    ensures Accounted(t)
  {
  }

  lemma ScheduleAccounted(s: Sched, t: State)
    requires Wf(s.mgr) && Accounted(s.mgr) && LiveCall(s, ScheduleCall) && t == ScheduleIteration(s).0.mgr
    ensures Accounted(t)
  {
    if s.running == map[] && s.maxNumSeqs > 0 && s.waiting != [] {
      var q := s.waiting[0];
      AdmitAccounted(s.mgr, q.id, q.promptTokens);
      var u := MatchOrAllocatePrefix(s.mgr, q.id, q.promptTokens).0;
      EitherAccounted(t, u, u, FreeSequence(u, q.id).0);
    } else {
      assert t == s.mgr;
    }
  }

  lemma StepMgrIs(s: Sched, id: nat, token: u32, isStop: bool, u: State, t: State)
    requires Wf(s.mgr) && u == AppendTokens(s.mgr, id, 1).0 && t == StepSequence(s, id, token, isStop).0.mgr
    ensures t == s.mgr || t == u || t == FreeSequence(u, id).0
  {
  }

  lemma StepSequenceAccounted(s: Sched, id: nat, token: u32, isStop: bool, t: State)
    requires Wf(s.mgr) && Accounted(s.mgr) && t == StepSequence(s, id, token, isStop).0.mgr
    ensures Accounted(t)
  {
    StepMgrAccounted(s.mgr, id);
    var u := AppendTokens(s.mgr, id, 1).0;
    StepMgrIs(s, id, token, isStop, u, t);
    EitherAccounted(t, s.mgr, u, FreeSequence(u, id).0);
  }

  lemma AbortAccounted(s: Sched, id: nat, t: State)
    requires Wf(s.mgr) && Accounted(s.mgr) && t == AbortSequence(s, id).0.mgr
    ensures Accounted(t)
  {
    FreeSequenceAccounted(s.mgr, id);
    EitherAccounted(t, s.mgr, s.mgr, FreeSequence(s.mgr, id).0);
  }

  lemma NextAccounted(s: Sched, c: Call)
    requires Wf(s.mgr) && Accounted(s.mgr) && LiveCall(s, c)
    ensures Accounted(Next(s, c).mgr)
  {
    match c
    case SubmitCall(id, prompt, maxTokens) =>
    case ScheduleCall => ScheduleAccounted(s, Next(s, c).mgr);
    case StepCall(id, token, isStop) => StepSequenceAccounted(s, id, token, isStop, Next(s, c).mgr);
    case AbortCall(id) => AbortAccounted(s, id, Next(s, c).mgr);
  }

  predicate CallsOk(s: Sched, calls: seq<Call>)
    requires Wf(s.mgr)
  {
    calls == [] ||
    (CallsOk(s, Init(calls)) && FreshCall(Drive(s, Init(calls)), Last(calls))
     && LiveCall(Drive(s, Init(calls)), Last(calls)))
  }

  /**
   With unique ids and no hit on a dead block, in every reachable state, errors included: every submitted
   sequence is in exactly one pool, admission is first in first out, pools and status agree, and the
   manager's books are in order.
   */
  lemma {:induction false} RunsConserve(cfg: Config, maxNumSeqs: nat, calls: seq<Call>)
    requires cfg.blockSize > 0 && CallsOk(InitSched(cfg, maxNumSeqs), calls)
    ensures var s := Drive(InitSched(cfg, maxNumSeqs), calls);
            Conserved(s) && InOrder(s) && StatusOk(s) && Accounted(s.mgr)
  {
    if calls == [] {
      InitAccounted(cfg);
    } else {
      RunsConserve(cfg, maxNumSeqs, Init(calls));
      var s := Drive(InitSched(cfg, maxNumSeqs), Init(calls));
      var c := Last(calls);
      AccountedLosesNothing(s, c);
      NextConserves(s, c);
      NextInOrder(s, c);
      NextStatus(s, c);
      NextAccounted(s, c);
    }
  }
}
