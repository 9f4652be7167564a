/** Completion on time, draining, and what the scheduler's use of the manager cannot do. */
module SchedulerCompletion {
  import opened Prelude
  import opened BlockSpace
  import opened PrefixTrie
  import opened Accounting
  import opened Runs
  import opened ReferenceCounts
  import opened PrefixMatching
  import opened Scheduling
  import opened SchedulerCoherence
  import opened SchedulerLifecycle
  import opened AdmissionCounts

  // ----- Draining -----

  /** The call does not run out of blocks; it may well hit the page limit. */
  predicate NoAllocationFailure(s: Sched, c: Call)
    requires Wf(s.mgr)
  {
    match c
    case SubmitCall(id, prompt, maxTokens) => true
    case ScheduleCall => ScheduleIteration(s).1 != Failed(Memory(OutOfMemory))
    case StepCall(id, token, isStop) => StepSequence(s, id, token, isStop).1 != Failed(Memory(OutOfMemory))
    case AbortCall(id) => true
  }

  lemma FreeSequenceStrandsNothing(m: State, id: nat)
    requires Wf(m)
    ensures FreeSequence(m, id).0.loose == m.loose
  {
    if id in m.tables { FreeAllKeepsTables(RemoveTable(m, id), m.tables[id].blockIds); }
  }

  lemma MatchStrandsNothing(m: State, id: nat, prompt: seq<u32>)
    requires Wf(m) && m.loose == [] && m.tables == map[] && MatchOrAllocatePrefix(m, id, prompt).1.Ok?
    ensures MatchOrAllocatePrefix(m, id, prompt).0.loose == []
  {
    CleanMatch(m, id, prompt);
  }

  lemma AppendStrandsNothing(m: State, id: nat, n: nat)
    requires Wf(m) && m.loose == [] && AppendTokens(m, id, n).1 != Err(OutOfMemory)
    ensures AppendTokens(m, id, n).0.loose == []
  {
  }

  lemma StepStrandsNothing(s: Sched, id: nat, token: u32, isStop: bool, t: State)
    requires Wf(s.mgr) && s.mgr.loose == [] && NoAllocationFailure(s, StepCall(id, token, isStop))
             && t == StepSequence(s, id, token, isStop).0.mgr
    ensures t.loose == []
  {
    if id in s.running {
      StepAllocates(s, id, token, isStop);
      AppendStrandsNothing(s.mgr, id, 1);
      FreeSequenceStrandsNothing(AppendTokens(s.mgr, id, 1).0, id);
      StepMgrIs(s, id, token, isStop, AppendTokens(s.mgr, id, 1).0, t);
    }
  }

  lemma StepAllocates(s: Sched, id: nat, token: u32, isStop: bool)
    requires Wf(s.mgr) && id in s.running && StepSequence(s, id, token, isStop).1 != Failed(Memory(OutOfMemory))
    ensures AppendTokens(s.mgr, id, 1).1 != Err(OutOfMemory)
  {
  }

  lemma NextStrandsNothing(s: Sched, c: Call)
    requires Wf(s.mgr) && Coherent(s) && s.mgr.loose == [] && NoAllocationFailure(s, c)
    ensures Next(s, c).mgr.loose == []
  {
    match c
    case SubmitCall(id, prompt, maxTokens) =>
    case ScheduleCall =>
      if s.running == map[] && s.maxNumSeqs > 0 && s.waiting != [] {
        assert s.mgr.tables == map[];
        MatchStrandsNothing(s.mgr, s.waiting[0].id, s.waiting[0].promptTokens);
      }
    case StepCall(id, token, isStop) => StepStrandsNothing(s, id, token, isStop, Next(s, c).mgr);
    case AbortCall(id) => FreeSequenceStrandsNothing(s.mgr, id);
  }

  /** In order books with nothing stranded and nothing running, the whole pool is free. */
  lemma IdleIsEmpty(s: Sched)
    requires Wf(s.mgr) && Coherent(s) && Accounted(s.mgr) && s.mgr.loose == [] && s.running == map[]
    ensures |s.mgr.freeStack| == s.mgr.cfg.totalBlocks && AllocatedBlocksCount(s.mgr) == 0
    ensures forall b :: 0 <= b < |s.mgr.blocks| ==> s.mgr.blocks[b].refCount == 0
  {
    assert s.mgr.tables == map[];
    CleanBooks(s.mgr);
    assert Mapped(s.mgr) == {};
  }

  predicate CallsClean(s: Sched, calls: seq<Call>)
    requires Wf(s.mgr)
  {
    calls == [] ||
    (CallsClean(s, Init(calls)) && LiveCall(Drive(s, Init(calls)), Last(calls))
     && NoAllocationFailure(Drive(s, Init(calls)), Last(calls)))
  }

  lemma {:induction false} CleanCalls(cfg: Config, maxNumSeqs: nat, calls: seq<Call>)
    requires cfg.blockSize > 0 && CallsClean(InitSched(cfg, maxNumSeqs), calls)
    ensures var s := Drive(InitSched(cfg, maxNumSeqs), calls);
            Accounted(s.mgr) && s.mgr.loose == []
  {
    if calls == [] {
      InitAccounted(cfg);
    } else {
      CleanCalls(cfg, maxNumSeqs, Init(calls));
      AlwaysCoherent(cfg, maxNumSeqs, Init(calls));
      NextAccounted(Drive(InitSched(cfg, maxNumSeqs), Init(calls)), Last(calls));
      NextStrandsNothing(Drive(InitSched(cfg, maxNumSeqs), Init(calls)), Last(calls));
    }
  }

  /**
   After any run in which no block was wanting and no hit dead, page limits hit or not, once nothing runs
   no block is allocated.
   */
  lemma DrainsCompletely(cfg: Config, maxNumSeqs: nat, calls: seq<Call>)
    requires cfg.blockSize > 0 && CallsClean(InitSched(cfg, maxNumSeqs), calls)
    ensures var s := Drive(InitSched(cfg, maxNumSeqs), calls);
            s.running == map[] ==> AllocatedBlocksCount(s.mgr) == 0
  {
    var s := Drive(InitSched(cfg, maxNumSeqs), calls);
    CleanCalls(cfg, maxNumSeqs, calls);
    AlwaysCoherent(cfg, maxNumSeqs, calls);
    if s.running == map[] { IdleIsEmpty(s); }
  }

  /**
   The scheduler never shares a prefix: admissions happen only when nothing runs, so without stranded
   references every cached block is then free, and an admission is free of dead hits exactly when it has
   no hits at all.
   */
  lemma SchedulerHitsAreDead(s: Sched, prompt: seq<u32>)
    requires Wf(s.mgr) && Coherent(s) && Accounted(s.mgr) && s.mgr.loose == [] && s.running == map[]
    ensures LiveHits(s.mgr, prompt) <==> HitBlocks(s.mgr, prompt) == []
  {
    IdleIsEmpty(s);
    if HitBlocks(s.mgr, prompt) != [] {
      var b := HitBlocks(s.mgr, prompt)[0];
      assert b in HitBlocks(s.mgr, prompt);
    }
  }

  // ----- Completion -----

  /** The number of steps a sequence takes: its limit, but at least one. */
  function StepsNeeded(q: Sequence): nat {
    if q.maxTokens == 0 then 1 else q.maxTokens
  }

  /** The pages a sequence will fill. */
  function PagesNeeded(q: Sequence, blockSize: nat): nat
    requires blockSize > 0
  {
    BlocksFor(|q.promptTokens| + StepsNeeded(q), blockSize)
  }

  /** The books are in order, and sequence `id` runs with room for all its tokens. */
  ghost predicate OnCourse(s: Sched, id: nat, out: seq<u32>)
    requires Wf(s.mgr)
  {
    Coherent(s) && Accounted(s.mgr) && HasRoom(s, id, out)
  }

  /** Sequence `id` runs with `out` generated, and its remaining tokens fit its page limit and the free pool. */
  ghost predicate HasRoom(s: Sched, id: nat, out: seq<u32>) {
    && s.mgr.cfg.blockSize > 0
    && id in s.running && id in s.failedSteps && s.failedSteps[id] == 0
    && var q := s.running[id];
       var pages := PagesNeeded(q, s.mgr.cfg.blockSize);
       && q.outputTokens == out && |out| < StepsNeeded(q)
       && id in s.mgr.tables
       && pages <= s.mgr.cfg.maxBlocksPerSeq
       && pages <= |s.mgr.tables[id].blockIds| + |s.mgr.freeStack|
  }

  /** An append that fits takes its pages from the free pool. */
  lemma AppendFits(m: State, id: nat, pages: nat)
    requires Wf(m) && id in m.tables && PagesMatch(m, id)
    requires BlocksFor(m.tables[id].logicalTokens + 1, m.cfg.blockSize) <= pages <= m.cfg.maxBlocksPerSeq
    requires pages <= |m.tables[id].blockIds| + |m.freeStack|
    ensures var (t, r) := AppendTokens(m, id, 1);
            && r == Ok(()) && id in t.tables && t.cfg == m.cfg
            && |t.tables[id].blockIds| + |t.freeStack| == |m.tables[id].blockIds| + |m.freeStack|
  {
    var k := Wanted(m, id, 1);
    AllocateManyShape(m, id, k);
    WantedFits(m, id, pages);
    assert |Top(m.freeStack, k)| == k;
  }

  lemma WantedFits(m: State, id: nat, pages: nat)
    requires m.cfg.blockSize > 0 && id in m.tables
    requires BlocksFor(m.tables[id].logicalTokens + 1, m.cfg.blockSize) <= pages <= m.cfg.maxBlocksPerSeq
    requires pages <= |m.tables[id].blockIds| + |m.freeStack|
    ensures FitsLimit(m, id, 1) && Wanted(m, id, 1) <= |m.freeStack|
  {
  }

  lemma StepFits(s: Sched, id: nat, out: seq<u32>)
    requires Wf(s.mgr) && Coherent(s) && HasRoom(s, id, out)
    ensures AppendTokens(s.mgr, id, 1).1 == Ok(())
    ensures var t := AppendTokens(s.mgr, id, 1).0;
            && id in t.tables && t.cfg == s.mgr.cfg
            && |t.tables[id].blockIds| + |t.freeStack| == |s.mgr.tables[id].blockIds| + |s.mgr.freeStack|
  {
    assert InStep(s, id);
    BlocksForMonotone(s.mgr.tables[id].logicalTokens + 1, |s.running[id].promptTokens| + StepsNeeded(s.running[id]),
                      s.mgr.cfg.blockSize);
    AppendFits(s.mgr, id, PagesNeeded(s.running[id], s.mgr.cfg.blockSize));
  }

  /** A step short of the last stores its token and leaves room for the rest. */
  lemma StepKeepsRoom(s: Sched, id: nat, out: seq<u32>, token: u32, t: Sched)
    requires Wf(s.mgr) && Coherent(s) && HasRoom(s, id, out) && |out| + 1 < StepsNeeded(s.running[id])
    requires t == StepSequence(s, id, token, false).0
    ensures StepSequence(s, id, token, false).1 == Done(())
    ensures HasRoom(t, id, out + [token])
    ensures t.running[id] == s.running[id].(outputTokens := out + [token])
  {
    assert InStep(s, id);
    StepFits(s, id, out);
    StepStores(s, id, token, t);
    RoomKept(s, t, id, out, token);
  }

  /** A step that gets its page and is not the last stores the token. */
  lemma StepStores(s: Sched, id: nat, token: u32, t: Sched)
    requires Wf(s.mgr) && id in s.running && |s.running[id].outputTokens| + 1 < StepsNeeded(s.running[id])
    requires s.running[id].status == Running
    requires t == StepSequence(s, id, token, false).0 && AppendTokens(s.mgr, id, 1).1 == Ok(())
    ensures StepSequence(s, id, token, false).1 == Done(())
    ensures t.mgr == AppendTokens(s.mgr, id, 1).0 && t.failedSteps == s.failedSteps
    ensures t.running == s.running[id := s.running[id].(outputTokens := s.running[id].outputTokens + [token])]
  {
  }

  lemma RoomKept(s: Sched, t: Sched, id: nat, out: seq<u32>, token: u32)
    requires HasRoom(s, id, out) && |out| + 1 < StepsNeeded(s.running[id])
    requires t.failedSteps == s.failedSteps
    requires t.running == s.running[id := s.running[id].(outputTokens := out + [token])]
    requires id in t.mgr.tables && t.mgr.cfg == s.mgr.cfg
    requires |t.mgr.tables[id].blockIds| + |t.mgr.freeStack| == |s.mgr.tables[id].blockIds| + |s.mgr.freeStack|
    ensures HasRoom(t, id, out + [token])
  {
  }

  // ----- Filed or lost -----

  /** The blocks that a table of `held` pages will take until it has `pages`: the top of the free stack. */
  function Upcoming(stack: seq<nat>, held: nat, pages: nat): seq<nat> {
    Top(stack, if held <= pages then Min(pages - held, |stack|) else 0)
  }

  /** Some block is listed more often than it is counted. */
  ghost predicate Overlists(m: State, l: seq<nat>, taken: seq<nat>) {
    exists b :: Overlisted(m, l, taken, b)
  }

  /** The table grown to `pages` will list some block more often than it will be counted. */
  ghost predicate Doomed(m: State, id: nat, pages: nat)
    requires id in m.tables
  {
    var l := m.tables[id].blockIds;
    var taken := Upcoming(m.freeStack, |l|, pages);
    Overlists(m, l + taken, taken)
  }

  /** The same in terms of the list and of the blocks to be taken. */
  lemma DoomedIs(m: State, id: nat, pages: nat, l: seq<nat>, x: nat, taken: seq<nat>, all: seq<nat>)
    requires id in m.tables && m.tables[id].blockIds == l && pages == |l| + x && x <= |m.freeStack|
    requires taken == Top(m.freeStack, x) && all == l + taken
    ensures Doomed(m, id, pages) <==> Overlists(m, all, taken)
  {
  }

  lemma SplitTop(stack: seq<nat>, k: nat, x: nat)
    requires k <= x <= |stack|
    ensures Top(stack, k) + Top(stack[..|stack| - k], x - k) == Top(stack, x)
  {
  }

  lemma JoinTop(l: seq<nat>, stack: seq<nat>, k: nat, x: nat)
    requires k <= x <= |stack|
    ensures l + Top(stack, k) + Top(stack[..|stack| - k], x - k) == l + Top(stack, x)
  {
    SplitTop(stack, k, x);
    assert l + (Top(stack, k) + Top(stack[..|stack| - k], x - k))
      == l + Top(stack, k) + Top(stack[..|stack| - k], x - k);
  }

  /** Taking part of the upcoming blocks changes the counts only of blocks that were to be taken. */
  lemma SameList(m: State, t: State, l: seq<nat>, now: seq<nat>, later: seq<nat>, all: seq<nat>)
    requires all == now + later && |t.blocks| == |m.blocks|
    requires forall b :: 0 <= b < |m.blocks| ==> t.blocks[b].refCount == if b in now then 1 else m.blocks[b].refCount
    ensures Overlists(t, l, later) <==> Overlists(m, l, all)
  {
    forall b: nat ensures Overlisted(t, l, later, b) <==> Overlisted(m, l, all, b) {
      assert b in all <==> b in now || b in later;
    }
  }

  /** An append that fits decides nothing. */
  lemma AppendKeepsDoom(m: State, id: nat, pages: nat, x: nat)
    requires Wf(m) && id in m.tables && AppendTokens(m, id, 1).1.Ok?
    requires pages == |m.tables[id].blockIds| + x && Wanted(m, id, 1) <= x <= |m.freeStack|
    ensures var t := AppendTokens(m, id, 1).0; id in t.tables && (Doomed(t, id, pages) <==> Doomed(m, id, pages))
  {
    AppendLists(m, id);
    AllocateManyShape(m, id, Wanted(m, id, 1));
    TakenInPart(m, AppendTokens(m, id, 1).0, id, pages, m.tables[id].blockIds, Wanted(m, id, 1), x);
  }

  lemma TakenInPart(m: State, t: State, id: nat, pages: nat, l: seq<nat>, k: nat, x: nat)
    requires id in m.tables && m.tables[id].blockIds == l && pages == |l| + x && k <= x <= |m.freeStack|
    requires id in t.tables && t.tables[id].blockIds == l + Top(m.freeStack, k)
    requires t.freeStack == m.freeStack[..|m.freeStack| - k] && |t.blocks| == |m.blocks|
    requires forall b :: 0 <= b < |m.blocks| ==>
               t.blocks[b].refCount == if b in Top(m.freeStack, k) then 1 else m.blocks[b].refCount
    ensures Doomed(t, id, pages) <==> Doomed(m, id, pages)
  {
    var now, later, all := Top(m.freeStack, k), Top(t.freeStack, x - k), Top(m.freeStack, x);
    SplitTop(m.freeStack, k, x);
    JoinTop(l, m.freeStack, k, x);
    SameList(m, t, l + all, now, later, all);
    DoomedIs(m, id, pages, l, x, all, l + all);
    DoomedIs(t, id, pages, l + now, x - k, later, l + all);
  }

  lemma PagesGrow(s: Sched, id: nat, out: seq<u32>)
    requires Coherent(s) && HasRoom(s, id, out)
    ensures var m := s.mgr;
            var pages := PagesNeeded(s.running[id], m.cfg.blockSize);
            && |m.tables[id].blockIds| <= pages && Wanted(m, id, 1) <= pages - |m.tables[id].blockIds|
            && (|out| + 1 == StepsNeeded(s.running[id]) ==> Wanted(m, id, 1) == pages - |m.tables[id].blockIds|)
  {
    assert InStep(s, id);
    var tokens := s.mgr.tables[id].logicalTokens;
    BlocksForMonotone(tokens, tokens + 1, s.mgr.cfg.blockSize);
    BlocksForMonotone(tokens + 1, |s.running[id].promptTokens| + StepsNeeded(s.running[id]), s.mgr.cfg.blockSize);
  }

  /** The last step loses its sequence exactly when the table was to list some block too often. */
  lemma LastStepDecides(s: Sched, id: nat, out: seq<u32>, c: Call)
    requires Wf(s.mgr) && Coherent(s) && HasRoom(s, id, out) && |out| + 1 == StepsNeeded(s.running[id])
    requires c.StepCall? && c.seqId == id && !c.isStop
    ensures Finishes(s, c) && (Loses(s, c) <==> Doomed(s.mgr, id, PagesNeeded(s.running[id], s.mgr.cfg.blockSize)))
    ensures AfterToken(s.running[id], c.token, false)
            == s.running[id].(outputTokens := out + [c.token], status := Finished(MaxTokensReached))
  {
    StepFits(s, id, out);
    PagesGrow(s, id, out);
    LosesIffOverlisted(s, c);
    var l := s.mgr.tables[id].blockIds;
    var taken := NextBlocks(s.mgr, id);
    DoomedIs(s.mgr, id, PagesNeeded(s.running[id], s.mgr.cfg.blockSize), l, Wanted(s.mgr, id, 1), taken, l + taken);
  }

  /** In order books no running sequence is doomed. */
  lemma AccountedNotDoomed(m: State, id: nat, pages: nat)
    requires Wf(m) && Accounted(m) && id in m.tables
    ensures !Doomed(m, id, pages)
  {
    var l := m.tables[id].blockIds;
    var taken := Upcoming(m.freeStack, |l|, pages);
    forall b: nat ensures !Overlisted(m, l + taken, taken, b) {
      if b in l + taken && b < |m.blocks| {
        TopOnce(m.freeStack, |taken|, b);
        CountInBoth(l, taken, b);
        HeldCounts(m, id, b);
      }
    }
  }

  lemma CountInBoth(a: seq<nat>, c: seq<nat>, b: nat)
    ensures multiset(a + c)[b] == multiset(a)[b] + multiset(c)[b]
    ensures b in a + c <==> b in a || b in c
  {
  }

  /** In order books a block is counted at least as often as any one table lists it. */
  lemma HeldCounts(m: State, id: nat, b: nat)
    requires Wf(m) && Accounted(m) && id in m.tables && b < |m.blocks|
    ensures multiset(m.tables[id].blockIds)[b] <= m.blocks[b].refCount
    ensures b in m.freeStack ==> b !in m.tables[id].blockIds
  {
    TableRefsRemove(m.tables, id);
    assert b in multiset(m.tables[id].blockIds) <==> b in m.tables[id].blockIds;
  }

  /** The top of a stack without repetition lists a block at most once. */
  lemma TopOnce(stack: seq<nat>, x: nat, b: nat)
    requires x <= |stack| && Distinct(stack)
    ensures multiset(Top(stack, x))[b] == if b in Top(stack, x) then 1 else 0
    ensures b in Top(stack, x) ==> b in stack
  {
    var l := Top(stack, x);
    assert Distinct(l) by {
      forall i, j | 0 <= i < j < |l| ensures l[i] != l[j] {
        assert l[i] == stack[|stack| - 1 - i] && l[j] == stack[|stack| - 1 - j];
      }
    }
    DistinctMultiset(l, b);
  }

  /** The call is no abort of `id`, gives it no stop token and does not submit its id again. */
  predicate Spares(c: Call, id: nat) {
    match c
    case SubmitCall(k, _, _) => k != id
    case ScheduleCall => true
    case StepCall(k, _, isStop) => k == id ==> !isStop
    case AbortCall(k) => k != id
  }

  /** The call does not submit this id. */
  predicate NotNew(c: Call, id: nat) {
    c.SubmitCall? ==> c.id != id
  }

  predicate NoneNew(calls: seq<Call>, id: nat) {
    forall i :: 0 <= i < |calls| ==> NotNew(calls[i], id)
  }

  predicate AllSpare(calls: seq<Call>, id: nat) {
    forall i :: 0 <= i < |calls| ==> Spares(calls[i], id)
  }

  /** The token that a call gives to `id`. */
  function TokenFor(c: Call, id: nat): seq<u32> {
    if c.StepCall? && c.seqId == id then [c.token] else []
  }

  /** The tokens that calls give to `id`, in order. */
  function TokensFor(calls: seq<Call>, id: nat): seq<u32> {
    if calls == [] then [] else TokensFor(Init(calls), id) + TokenFor(Last(calls), id)
  }

  /** What is filed under an id. */
  function FiledAs(s: Sched, id: nat): Option<Sequence> {
    if id in s.finished then Some(s.finished[id]) else None
  }

  /** `id` neither runs nor waits, and this is filed under it. */
  predicate Rests(s: Sched, id: nat, filed: Option<Sequence>) {
    id !in s.running && id !in Ids(s.waiting) && FiledAs(s, id) == filed
  }

  /** What is filed in the end: the sequence with its tokens, or what was there before if it is lost. */
  function Outcome(q: Sequence, given: seq<u32>, doomed: bool, before: Option<Sequence>): Option<Sequence>
    requires StepsNeeded(q) <= |given|
  {
    if doomed then before else Some(q.(outputTokens := given[..StepsNeeded(q)], status := Finished(MaxTokensReached)))
  }

  /** `id` runs as `q` with these tokens, its end still ahead. */
  ghost predicate Underway(s: Sched, id: nat, q: Sequence, given: seq<u32>, doomed: bool, before: Option<Sequence>)
    requires Wf(s.mgr)
  {
    && Coherent(s) && HasRoom(s, id, given) && s.running[id] == q.(outputTokens := given)
    && id !in Ids(s.waiting) && FiledAs(s, id) == before
    && (Doomed(s.mgr, id, PagesNeeded(s.running[id], s.mgr.cfg.blockSize)) <==> doomed)
  }

  /** Where `id`, running as `q`, stands when it has been given these tokens. */
  ghost predicate Progress(s: Sched, id: nat, q: Sequence, given: seq<u32>, doomed: bool, before: Option<Sequence>)
    requires Wf(s.mgr)
  {
    if |given| < StepsNeeded(q) then Underway(s, id, q, given, doomed, before)
    else Rests(s, id, Outcome(q, given, doomed, before))
  }

  /** While a sequence runs, calls about others leave the manager and the running pool alone. */
  lemma OthersChangeNothing(s: Sched, id: nat, c: Call, t: Sched)
    requires Wf(s.mgr) && Coherent(s) && id in s.running && Spares(c, id) && TokenFor(c, id) == [] && t == Next(s, c)
    ensures t.mgr == s.mgr && t.running == s.running && t.failedSteps == s.failedSteps
            && FiledAs(t, id) == FiledAs(s, id)
  {
    match c
    case StepCall(k, token, isStop) => if k in s.running { OnlyKey(s.running, id, k); }
    case AbortCall(k) =>
      if k in s.running { OnlyKey(s.running, id, k); }
      assert k !in s.mgr.tables;
    case _ =>
  }

  lemma OnlyKey<T>(m: map<nat, T>, id: nat, k: nat)
    requires |m| <= 1 && id in m && k in m
    ensures k == id
  {
    assert m.Keys == {id} + (m.Keys - {id});
    assert |m.Keys| == |m|;
  }

  lemma StillNotWaiting(s: Sched, id: nat, c: Call, t: Sched)
    requires Wf(s.mgr) && id !in Ids(s.waiting) && NotNew(c, id) && t == Next(s, c)
    ensures id !in Ids(t.waiting)
  {
    match c
    case SubmitCall(k, prompt, maxTokens) => SubmitPools(s, NewSequence(k, prompt, maxTokens));
    case ScheduleCall => NotWaitingTail(s.waiting, id);
    case StepCall(k, token, isStop) => StepFacts(s, c, t);
    case AbortCall(k) =>
      var i := Position(s.waiting, k);
      if k !in s.running && i < |s.waiting| { WithoutIds(s.waiting, i); }
  }

  lemma NotWaitingTail(waiting: seq<Sequence>, id: nat)
    requires id !in Ids(waiting)
    ensures waiting != [] ==> id !in Ids(waiting[1..])
  {
    if waiting != [] { HeadIds(waiting); }
  }

  /** What is filed stays as it is, and what is in no pool stays in none. */
  lemma StaysAtRest(s: Sched, id: nat, filed: Option<Sequence>, c: Call, t: Sched)
    requires Wf(s.mgr) && Rests(s, id, filed) && NotNew(c, id) && t == Next(s, c)
    ensures Rests(t, id, filed)
  {
    StillNotWaiting(s, id, c, t);
    match c
    case SubmitCall(k, prompt, maxTokens) =>
    case ScheduleCall => RestsThroughAdmission(s, id, filed, t);
    case StepCall(k, token, isStop) => StepFacts(s, c, t);
    case AbortCall(k) => RestsThroughAbort(s, id, filed, k, t);
  }

  lemma RestsThroughAdmission(s: Sched, id: nat, filed: Option<Sequence>, t: Sched)
    requires Wf(s.mgr) && Rests(s, id, filed) && t == ScheduleIteration(s).0
    ensures id !in t.running && FiledAs(t, id) == filed
  {
    if s.waiting != [] { HeadIds(s.waiting); }
  }

  lemma RestsThroughAbort(s: Sched, id: nat, filed: Option<Sequence>, k: nat, t: Sched)
    requires Wf(s.mgr) && Rests(s, id, filed) && t == AbortSequence(s, k).0
    ensures id !in t.running && FiledAs(t, id) == filed
  {
    var i := Position(s.waiting, k);
    if i < |s.waiting| { assert Ids(s.waiting)[i] == k; }
  }

  lemma {:induction false} RestsThroughCalls(s: Sched, id: nat, filed: Option<Sequence>, calls: seq<Call>)
    requires Wf(s.mgr) && Rests(s, id, filed) && NoneNew(calls, id)
    ensures Rests(Drive(s, calls), id, filed)
  {
    if calls == [] {
    } else {
      RestsThroughCalls(s, id, filed, Init(calls));
      StaysAtRest(Drive(s, Init(calls)), id, filed, Last(calls), Drive(s, calls));
    }
  }

  lemma DoomThroughStep(s: Sched, id: nat, given: seq<u32>, token: u32, t: Sched, pages: nat)
    requires Wf(s.mgr) && Coherent(s) && HasRoom(s, id, given) && |given| + 1 < StepsNeeded(s.running[id])
    requires t == StepSequence(s, id, token, false).0 && pages == PagesNeeded(s.running[id], s.mgr.cfg.blockSize)
    ensures id in t.mgr.tables && (Doomed(t.mgr, id, pages) <==> Doomed(s.mgr, id, pages))
    ensures t.mgr.cfg == s.mgr.cfg
  {
    assert InStep(s, id);
    StepFits(s, id, given);
    StepStores(s, id, token, t);
    PagesGrow(s, id, given);
    AppendKeepsDoom(s.mgr, id, pages, pages - |s.mgr.tables[id].blockIds|);
  }

  lemma MidStepProgress(s: Sched, id: nat, q: Sequence, given: seq<u32>, token: u32, t: Sched, doomed: bool,
                        before: Option<Sequence>)
    requires Wf(s.mgr) && Underway(s, id, q, given, doomed, before) && |given| + 1 < StepsNeeded(q)
    requires t == StepSequence(s, id, token, false).0
    ensures Underway(t, id, q, given + [token], doomed, before)
  {
    StepKeepsRoom(s, id, given, token, t);
    DoomThroughStep(s, id, given, token, t, PagesNeeded(s.running[id], s.mgr.cfg.blockSize));
    StepCoherent(s, id, token, false);
    MidStepFacts(s, id, token, t);
    StillUnderway(s, id, q, given, given + [token], t, doomed, before);
  }

  lemma StillUnderway(s: Sched, id: nat, q: Sequence, given: seq<u32>, out: seq<u32>, t: Sched, doomed: bool,
                      before: Option<Sequence>)
    requires Wf(s.mgr) && Wf(t.mgr) && Underway(s, id, q, given, doomed, before)
    requires Coherent(t) && HasRoom(t, id, out) && t.running[id] == s.running[id].(outputTokens := out)
    requires t.waiting == s.waiting && t.finished == s.finished && t.mgr.cfg == s.mgr.cfg
    requires var pages := PagesNeeded(s.running[id], s.mgr.cfg.blockSize);
             Doomed(t.mgr, id, pages) <==> Doomed(s.mgr, id, pages)
    ensures Underway(t, id, q, out, doomed, before)
  {
    assert PagesNeeded(t.running[id], t.mgr.cfg.blockSize) == PagesNeeded(s.running[id], s.mgr.cfg.blockSize);
  }

  lemma MidStepFacts(s: Sched, id: nat, token: u32, t: Sched)
    requires Wf(s.mgr) && t == StepSequence(s, id, token, false).0 && id in t.running
    ensures t.waiting == s.waiting && t.finished == s.finished
  {
    var c := StepCall(id, token, false);
    StepFacts(s, c, Next(s, c));
  }

  lemma LastStepProgress(s: Sched, id: nat, q: Sequence, given: seq<u32>, c: Call, t: Sched, doomed: bool,
                         before: Option<Sequence>)
    requires Wf(s.mgr) && Underway(s, id, q, given, doomed, before) && |given| + 1 == StepsNeeded(q)
    requires c.StepCall? && c.seqId == id && !c.isStop && t == Next(s, c)
    ensures Rests(t, id, Outcome(q, given + [c.token], doomed, before))
  {
    var out := given + [c.token];
    assert out[..StepsNeeded(q)] == out;
    LastStepDecides(s, id, given, c);
    LastStepFacts(s, id, c, t, AfterToken(s.running[id], c.token, false), doomed);
    NowRests(s, id, AfterToken(s.running[id], c.token, false), t, doomed, before);
  }

  lemma LastStepFacts(s: Sched, id: nat, c: Call, t: Sched, p: Sequence, lost: bool)
    requires Wf(s.mgr) && Finishes(s, c) && c.seqId == id && !c.isStop && t == Next(s, c)
    requires p == AfterToken(s.running[id], c.token, false) && lost == Loses(s, c)
    ensures t.waiting == s.waiting && t.running == s.running - {id}
    ensures t.finished == if lost then s.finished else s.finished[id := p]
  {
    StepFacts(s, c, t);
  }

  lemma NowRests(s: Sched, id: nat, p: Sequence, t: Sched, lost: bool, before: Option<Sequence>)
    requires id !in Ids(s.waiting) && FiledAs(s, id) == before
    requires t.waiting == s.waiting && t.running == s.running - {id}
    requires t.finished == if lost then s.finished else s.finished[id := p]
    ensures Rests(t, id, if lost then before else Some(p))
  {
  }

  lemma NextProgress(s: Sched, id: nat, q: Sequence, given: seq<u32>, c: Call, t: Sched, doomed: bool,
                     before: Option<Sequence>)
    requires Wf(s.mgr) && Progress(s, id, q, given, doomed, before) && q.status == Running && Spares(c, id)
             && t == Next(s, c)
    ensures Progress(t, id, q, given + TokenFor(c, id), doomed, before)
  {
    var out := given + TokenFor(c, id);
    if |given| >= StepsNeeded(q) {
      assert out[..StepsNeeded(q)] == given[..StepsNeeded(q)];
      StaysAtRest(s, id, Outcome(q, given, doomed, before), c, t);
    } else if TokenFor(c, id) == [] {
      assert out == given;
      OthersChangeNothing(s, id, c, t);
      NextCoherent(s, c);
      StillNotWaiting(s, id, c, t);
    } else if |given| + 1 < StepsNeeded(q) {
      MidStepProgress(s, id, q, given, c.token, t, doomed, before);
    } else {
      LastStepProgress(s, id, q, given, c, t, doomed, before);
    }
  }

  lemma {:induction false} DriveProgress(s: Sched, id: nat, q: Sequence, calls: seq<Call>, doomed: bool,
                                         before: Option<Sequence>)
    requires Wf(s.mgr) && Progress(s, id, q, [], doomed, before) && q.status == Running && AllSpare(calls, id)
    ensures Progress(Drive(s, calls), id, q, TokensFor(calls, id), doomed, before)
  {
    if calls == [] {
    } else {
      DriveProgress(s, id, q, Init(calls), doomed, before);
      NextProgress(Drive(s, Init(calls)), id, q, TokensFor(Init(calls), id), Last(calls), Drive(s, calls), doomed,
                   before);
    }
  }

  /**
   The fate of a running sequence is settled when it starts, whether the books are in order or not. With
   room for its tokens, and followed by any calls whatsoever without an abort or a stop token for it, it runs
   with exactly the tokens it was given as long as they are fewer than max(1, maxTokens). With that token it
   is filed, unless its table, followed by the blocks it was going to take, lists some block more often than
   that is counted: then it is lost, and nothing new is ever filed under its id.
   */
  lemma CompletesUnlessDoomed(s: Sched, id: nat, calls: seq<Call>)
    requires Wf(s.mgr) && Coherent(s) && HasRoom(s, id, []) && id !in Ids(s.waiting) && AllSpare(calls, id)
    ensures var q := s.running[id];
            var given := TokensFor(calls, id);
            var t := Drive(s, calls);
            if |given| < StepsNeeded(q) then id in t.running && t.running[id] == q.(outputTokens := given)
            else Rests(t, id, Outcome(q, given, Doomed(s.mgr, id, PagesNeeded(q, s.mgr.cfg.blockSize)), FiledAs(s, id)))
  {
    assert InStep(s, id);
    DriveProgress(s, id, s.running[id], calls, Doomed(s.mgr, id, PagesNeeded(s.running[id], s.mgr.cfg.blockSize)),
                  FiledAs(s, id));
  }

  /** In order books: completion on time, never a loss. */
  lemma CompletesOnTime(s: Sched, id: nat, calls: seq<Call>)
    requires Wf(s.mgr) && OnCourse(s, id, []) && id !in Ids(s.waiting) && AllSpare(calls, id)
    ensures var q := s.running[id];
            var given := TokensFor(calls, id);
            var t := Drive(s, calls);
            if |given| < StepsNeeded(q) then id in t.running && t.running[id] == q.(outputTokens := given)
            else Rests(t, id, Outcome(q, given, false, None))
  {
    CompletesUnlessDoomed(s, id, calls);
    AccountedNotDoomed(s.mgr, id, PagesNeeded(s.running[id], s.mgr.cfg.blockSize));
  }

  /** The two lists have a block in common. */
  ghost predicate Meet(a: seq<nat>, c: seq<nat>) {
    exists b :: b in a && b in c
  }

  /** Some block that the prompt will hit lies where the sequence will take it from the free pool. */
  ghost predicate HitsAhead(m: State, prompt: seq<u32>, pages: nat)
    requires m.cfg.blockSize > 0
  {
    Meet(HitBlocks(m, prompt), Upcoming(m.freeStack, |HitBlocks(m, prompt)|, pages))
  }

  /**
   From the admission, in any state a scheduler can reach: a waiting sequence that fits is admitted and
   completes on time, unless one of its hits lies among the free blocks it is going to take; exactly then it
   is lost at its last step.
   */
  lemma AdmittedCompletesUnlessHitsAhead(s: Sched, q: Sequence, calls: seq<Call>)
    requires Wf(s.mgr) && Coherent(s) && s.running == map[] && s.maxNumSeqs > 0
    requires s.waiting != [] && q == s.waiting[0] && q.id !in Ids(s.waiting[1..])
    requires var pages := PagesNeeded(q, s.mgr.cfg.blockSize);
             pages <= s.mgr.cfg.maxBlocksPerSeq && pages <= |HitBlocks(s.mgr, q.promptTokens)| + |s.mgr.freeStack|
    requires AllSpare(calls, q.id)
    ensures var given := TokensFor(calls, q.id);
            var t := Drive(ScheduleIteration(s).0, calls);
            if |given| < StepsNeeded(q) then
              q.id in t.running && t.running[q.id] == q.(outputTokens := given, status := Running)
            else
              Rests(t, q.id, Outcome(q, given, HitsAhead(s.mgr, q.promptTokens, PagesNeeded(q, s.mgr.cfg.blockSize)),
                                     FiledAs(s, q.id)))
  {
    var pages := PagesNeeded(q, s.mgr.cfg.blockSize);
    var t := ScheduleIteration(s).0;
    AdmittedHasRoom(s, q, pages);
    AdmittedDoom(s.mgr, q.id, q.promptTokens, pages);
    CompletesUnlessDoomed(t, q.id, calls);
    SameOutcome(q, s.mgr.cfg.blockSize, TokensFor(calls, q.id), Doomed(t.mgr, q.id, pages), FiledAs(s, q.id));
  }

  /** A sequence needs the same and ends the same whether it is taken as waiting or as running. */
  lemma SameOutcome(q: Sequence, blockSize: nat, given: seq<u32>, doomed: bool, before: Option<Sequence>)
    requires blockSize > 0
    ensures var r := q.(status := Running);
            && StepsNeeded(r) == StepsNeeded(q) && PagesNeeded(r, blockSize) == PagesNeeded(q, blockSize)
            && (StepsNeeded(q) <= |given| ==> Outcome(r, given, doomed, before) == Outcome(q, given, doomed, before))
  {
  }

  /** In order books live hits are not on the free stack, so the sequence is filed. */
  lemma AdmittedCompletes(s: Sched, q: Sequence, calls: seq<Call>)
    requires Wf(s.mgr) && Coherent(s) && Accounted(s.mgr) && Conserved(s) && s.running == map[] && s.maxNumSeqs > 0
    requires s.waiting != [] && q == s.waiting[0] && LiveHits(s.mgr, q.promptTokens)
    requires var pages := PagesNeeded(q, s.mgr.cfg.blockSize);
             pages <= s.mgr.cfg.maxBlocksPerSeq && pages <= |HitBlocks(s.mgr, q.promptTokens)| + |s.mgr.freeStack|
    requires AllSpare(calls, q.id)
    ensures var given := TokensFor(calls, q.id);
            var t := Drive(ScheduleIteration(s).0, calls);
            if |given| < StepsNeeded(q) then
              q.id in t.running && t.running[q.id] == q.(outputTokens := given, status := Running)
            else
              Rests(t, q.id, Outcome(q, given, false, None))
  {
    HeadWaitsOnce(s);
    AdmittedCompletesUnlessHitsAhead(s, q, calls);
    LiveHitsAreNotAhead(s.mgr, q.promptTokens, PagesNeeded(q, s.mgr.cfg.blockSize));
  }

  lemma LiveHitsAreNotAhead(m: State, prompt: seq<u32>, pages: nat)
    requires Wf(m) && Accounted(m) && LiveHits(m, prompt)
    ensures !HitsAhead(m, prompt, pages)
  {
    var taken := Upcoming(m.freeStack, |HitBlocks(m, prompt)|, pages);
    forall b | b in HitBlocks(m, prompt) ensures b !in taken {
      TopOnce(m.freeStack, |taken|, b);
    }
  }

  /** After an admission the table is to list a block too often exactly when a hit block is to be taken again. */
  lemma AdmittedDoom(m: State, id: nat, prompt: seq<u32>, pages: nat)
    requires Wf(m) && BlocksFor(|prompt|, m.cfg.blockSize) <= pages <= |HitBlocks(m, prompt)| + |m.freeStack|
    ensures var t := MatchOrAllocatePrefix(m, id, prompt).0;
            id in t.tables && (Doomed(t, id, pages) <==> HitsAhead(m, prompt, pages))
  {
    var hit := HitBlocks(m, prompt);
    AdmittedShape(m, id, prompt, pages);
    MatchCounted(m, id, prompt);
    HitsInRange(m, prompt);
    DoomAfterHits(m, MatchOrAllocatePrefix(m, id, prompt).0, id, pages, hit, Shortfall(m, prompt), pages - |hit|);
  }

  lemma AdmittedShape(m: State, id: nat, prompt: seq<u32>, pages: nat)
    requires Wf(m) && BlocksFor(|prompt|, m.cfg.blockSize) <= pages <= |HitBlocks(m, prompt)| + |m.freeStack|
    ensures var t := MatchOrAllocatePrefix(m, id, prompt).0;
            var need := Shortfall(m, prompt);
            && |HitBlocks(m, prompt)| + need <= pages && need <= |m.freeStack|
            && id in t.tables && t.tables[id].blockIds == HitBlocks(m, prompt) + Top(m.freeStack, need)
            && t.freeStack == m.freeStack[..|m.freeStack| - need]
  {
    MatchOutcome(m, id, prompt);
    BlocksForFloor(|prompt|, m.cfg.blockSize);
  }

  lemma HitsInRange(m: State, prompt: seq<u32>)
    requires Wf(m)
    ensures AllBelow(HitBlocks(m, prompt), |m.blocks|)
  {
    var cs := Chunks(prompt, m.cfg.blockSize);
    CachedPrefixIsLongest(m.nodes, cs, CachedPrefix(m.nodes, cs));
    BlocksOnInRange(m, HitPath(m.nodes, cs));
  }

  lemma DoomAfterHits(m: State, t: State, id: nat, pages: nat, hit: seq<nat>, need: nat, x: nat)
    requires PoolOk(m) && AllBelow(hit, |m.blocks|) && need <= x <= |m.freeStack| && pages == |hit| + x
    requires id in t.tables && t.tables[id].blockIds == hit + Top(m.freeStack, need)
    requires t.freeStack == m.freeStack[..|m.freeStack| - need]
    requires CountedAfter(m.blocks, t.blocks, hit, Top(m.freeStack, need))
    ensures Doomed(t, id, pages) <==> Meet(hit, Upcoming(m.freeStack, |hit|, pages))
  {
    DoomOfTable(m, t, id, pages, hit, need, x);
    SplitTop(m.freeStack, need, x);
    var all := Top(m.freeStack, x);
    HitsOverlisted(m, t, hit, Top(m.freeStack, need), Top(t.freeStack, x - need), all, x, hit + all);
    UpcomingIs(m.freeStack, |hit|, pages, x);
  }

  lemma DoomOfTable(m: State, t: State, id: nat, pages: nat, hit: seq<nat>, need: nat, x: nat)
    requires need <= x <= |m.freeStack| && pages == |hit| + x
    requires id in t.tables && t.tables[id].blockIds == hit + Top(m.freeStack, need)
    requires t.freeStack == m.freeStack[..|m.freeStack| - need]
    ensures Doomed(t, id, pages) <==> Overlists(t, hit + Top(m.freeStack, x), Top(t.freeStack, x - need))
  {
    JoinTop(hit, m.freeStack, need, x);
    DoomedIs(t, id, pages, hit + Top(m.freeStack, need), x - need, Top(t.freeStack, x - need),
             hit + Top(m.freeStack, x));
  }

  lemma UpcomingIs(stack: seq<nat>, held: nat, pages: nat, x: nat)
    requires pages == held + x && x <= |stack|
    ensures Upcoming(stack, held, pages) == Top(stack, x)
  {
  }

  lemma HitsOverlisted(m: State, t: State, hit: seq<nat>, now: seq<nat>, later: seq<nat>, all: seq<nat>, x: nat,
                       list: seq<nat>)
    requires PoolOk(m) && AllBelow(hit, |m.blocks|) && x <= |m.freeStack| && all == Top(m.freeStack, x) == now + later
    requires CountedAfter(m.blocks, t.blocks, hit, now) && list == hit + all
    ensures Overlists(t, list, later) <==> Meet(hit, all)
  {
    forall b: nat ensures Overlisted(t, list, later, b) <==> b in hit && b in all {
      HitOverlisted(m, t, hit, now, later, all, x, b);
    }
  }

  /** Hits count once each, so a block is listed too often exactly when it is hit and taken. */
  lemma HitOverlisted(m: State, t: State, hit: seq<nat>, now: seq<nat>, later: seq<nat>, all: seq<nat>, x: nat, b: nat)
    requires PoolOk(m) && AllBelow(hit, |m.blocks|) && x <= |m.freeStack| && all == Top(m.freeStack, x) == now + later
    requires CountedAfter(m.blocks, t.blocks, hit, now)
    ensures Overlisted(t, hit + all, later, b) <==> b in hit && b in all
  {
    TopOnce(m.freeStack, x, b);
    CountInBoth(hit, all, b);
    CountInBoth(now, later, b);
    assert b in hit <==> multiset(hit)[b] > 0;
  }

  lemma HeadWaitsOnce(s: Sched)
    requires Conserved(s) && s.waiting != []
    ensures s.waiting[0].id !in Ids(s.waiting[1..]) && s.waiting[0].id !in s.finished
  {
    OnePool(s, s.waiting[0].id);
    HeadIds(s.waiting);
  }

  /** Admission adds the found blocks to what the free pool offers. */
  lemma AdmitFits(m: State, id: nat, prompt: seq<u32>, pages: nat)
    requires Wf(m) && BlocksFor(|prompt|, m.cfg.blockSize) <= pages <= |HitBlocks(m, prompt)| + |m.freeStack|
    ensures var (t, r) := MatchOrAllocatePrefix(m, id, prompt);
            && r.Ok? && t.cfg == m.cfg && id in t.tables
            && |t.tables[id].blockIds| + |t.freeStack| == |HitBlocks(m, prompt)| + |m.freeStack|
  {
    MatchOutcome(m, id, prompt);
    MatchTable(m, id, prompt);
    BlocksForFloor(|prompt|, m.cfg.blockSize);
  }

  /** An admission leaves room for all tokens if the pages are there. */
  lemma AdmittedHasRoom(s: Sched, q: Sequence, pages: nat)
    requires Wf(s.mgr) && Coherent(s) && s.running == map[] && s.maxNumSeqs > 0
    requires s.waiting != [] && q == s.waiting[0] && pages == PagesNeeded(q, s.mgr.cfg.blockSize)
    requires pages <= s.mgr.cfg.maxBlocksPerSeq && pages <= |HitBlocks(s.mgr, q.promptTokens)| + |s.mgr.freeStack|
    ensures BlocksFor(|q.promptTokens|, s.mgr.cfg.blockSize) <= pages
    ensures var (t, r) := ScheduleIteration(s);
            && r == Done(Some(Prefill(q.id, |q.promptTokens|))) && Coherent(t) && HasRoom(t, q.id, [])
            && t.running[q.id] == q.(status := Running) && t.waiting == s.waiting[1..] && t.finished == s.finished
            && t.mgr == MatchOrAllocatePrefix(s.mgr, q.id, q.promptTokens).0
  {
    assert Untouched(q);
    BlocksForMonotone(|q.promptTokens|, |q.promptTokens| + StepsNeeded(q), s.mgr.cfg.blockSize);
    AdmitFits(s.mgr, q.id, q.promptTokens, pages);
    AdmitCoherent(s);
    StartsWithRoom(ScheduleIteration(s).0, q, pages);
  }

  /** An admission without dead hits puts its sequence on course if the pages are there. */
  lemma AdmittedIsOnCourse(s: Sched, q: Sequence, pages: nat)
    requires Wf(s.mgr) && Coherent(s) && Accounted(s.mgr) && s.running == map[] && s.maxNumSeqs > 0
    requires s.waiting != [] && q == s.waiting[0] && LiveHits(s.mgr, q.promptTokens)
    requires pages == PagesNeeded(q, s.mgr.cfg.blockSize)
    requires pages <= s.mgr.cfg.maxBlocksPerSeq && pages <= |HitBlocks(s.mgr, q.promptTokens)| + |s.mgr.freeStack|
    ensures var (t, r) := ScheduleIteration(s);
            r == Done(Some(Prefill(q.id, |q.promptTokens|))) && OnCourse(t, q.id, [])
              && t.running[q.id] == q.(status := Running)
  {
    AdmittedHasRoom(s, q, pages);
    ScheduleAccounted(s, ScheduleIteration(s).0.mgr);
  }

  lemma StartsWithRoom(t: Sched, q: Sequence, pages: nat)
    requires t.mgr.cfg.blockSize > 0
    requires q.id in t.running && t.running[q.id] == q.(status := Running) && q.outputTokens == []
    requires q.id in t.failedSteps && t.failedSteps[q.id] == 0 && q.id in t.mgr.tables
    requires pages == PagesNeeded(q, t.mgr.cfg.blockSize) <= t.mgr.cfg.maxBlocksPerSeq
    requires pages <= |t.mgr.tables[q.id].blockIds| + |t.mgr.freeStack|
    ensures HasRoom(t, q.id, [])
  {
  }

  // ----- A sequence is lost -----

  /** The calls before the fatal step: admit and abort one sequence, then admit another with the same prompt. */
  function LosingCalls(token: u32): seq<Call> {
    [SubmitCall(1, [token], 9), ScheduleCall, AbortCall(1), SubmitCall(2, [token], 9), ScheduleCall]
  }

  /** One page per token, one block: the append of a stale sequence hands out the very block it already holds. */
  lemma StaleAppend(m: State, id: nat, token: u32)
    requires Wf(m) && HoldsBlock(m, id, OneNode(token), [0])
    ensures var (t, r) := AppendTokens(m, id, 1);
            r == Ok(()) && id in t.tables && t.tables[id].blockIds == [0, 0] && |t.blocks| == 1
              && t.blocks[0].refCount == 1
  {
    assert BlocksFor(2, 1) == 2;
    assert Wanted(m, id, 1) == 1;
    AllocateManyShape(m, id, 1);
    AllocateManyBlocks(m, id, 1);
    assert Top([0], 1) == [0];
    assert [0] + [0] == [0, 0];
  }

  /** In that state the finishing step loses its sequence. */
  lemma StaleSequenceIsLost(s: Sched, id: nat, token: u32, next: u32)
    requires Wf(s.mgr) && HoldsBlock(s.mgr, id, OneNode(token), [0]) && id in s.running
    ensures Loses(s, StepCall(id, next, true))
  {
    StaleAppend(s.mgr, id, token);
    var c := StepCall(id, next, true);
    LosesIffFreeFails(s, c);
    assert multiset([0, 0])[0] == 2;
    assert 0 in [0, 0];
  }

  lemma DriveLast(s: Sched, calls: seq<Call>, c: Call)
    requires Wf(s.mgr)
    ensures Drive(s, calls + [c]) == Next(Drive(s, calls), c)
  {
    assert Init(calls + [c]) == calls;
  }

  /** On an idle scheduler, submitting a sequence and scheduling admits it. */
  lemma AdmittedAlone(s: Sched, id: nat, prompt: seq<u32>, t: Sched)
    requires Wf(s.mgr) && s.maxNumSeqs == 1 && s.waiting == [] && s.running == map[]
    requires MatchOrAllocatePrefix(s.mgr, id, prompt).1.Ok?
             && t == Next(Next(s, SubmitCall(id, prompt, 9)), ScheduleCall)
    ensures t.mgr == MatchOrAllocatePrefix(s.mgr, id, prompt).0 && t.maxNumSeqs == 1
    ensures t.waiting == [] && t.running.Keys == {id} && t.finished == s.finished && t.submitted == s.submitted + [id]
  {
    var s1 := Submit(s, NewSequence(id, prompt, 9));
    assert s1.waiting[0] == NewSequence(id, prompt, 9) && s1.waiting[1..] == [];
    AdmittedIs(s1, s1.waiting[0], t);
  }

  lemma AdmittedIs(s: Sched, q: Sequence, t: Sched)
    requires Wf(s.mgr) && s.maxNumSeqs == 1 && s.waiting != [] && q == s.waiting[0] && s.running == map[]
    requires MatchOrAllocatePrefix(s.mgr, q.id, q.promptTokens).1.Ok? && t == Next(s, ScheduleCall)
    ensures t.mgr == MatchOrAllocatePrefix(s.mgr, q.id, q.promptTokens).0 && t.maxNumSeqs == 1
    ensures t.waiting == s.waiting[1..] && t.running.Keys == {q.id} && t.finished == s.finished
    ensures t.submitted == s.submitted
  {
  }

  /** Aborting the only running sequence. */
  lemma AbortedAlone(s: Sched, id: nat, t: Sched)
    requires Wf(s.mgr) && s.waiting == [] && s.running.Keys == {id} && t == Next(s, AbortCall(id))
    ensures t.mgr == FreeSequence(s.mgr, id).0 && t.maxNumSeqs == s.maxNumSeqs
    ensures t.waiting == [] && t.running == map[] && t.finished.Keys == s.finished.Keys + {id}
            && t.submitted == s.submitted
  {
    assert (s.running - {id}).Keys == {};
  }

  /** The first sequence comes and goes, leaving its trie node. */
  lemma FirstComesAndGoes(s: Sched, id: nat, token: u32, t: Sched)
    requires Wf(s.mgr) && AllFree(s.mgr, BARE_TRIE) && s.maxNumSeqs == 1 && s.waiting == [] && s.running == map[]
    requires t == Next(Next(Next(s, SubmitCall(id, [token], 9)), ScheduleCall), AbortCall(id))
    ensures AllFree(t.mgr, OneNode(token)) && t.maxNumSeqs == 1 && t.waiting == [] && t.running == map[]
    ensures t.finished.Keys == s.finished.Keys + {id} && t.submitted == s.submitted + [id]
  {
    FirstAdmission(s.mgr, id, token);
    var s2 := Next(Next(s, SubmitCall(id, [token], 9)), ScheduleCall);
    AdmittedAlone(s, id, [token], s2);
    Release(s2.mgr, id, token);
    AbortedAlone(s2, id, t);
  }

  /** The second one is admitted onto the block that is still on the free stack. */
  lemma SecondIsStale(s: Sched, id: nat, token: u32, t: Sched)
    requires Wf(s.mgr) && AllFree(s.mgr, OneNode(token)) && s.maxNumSeqs == 1 && s.waiting == [] && s.running == map[]
    requires t == Next(Next(s, SubmitCall(id, [token], 9)), ScheduleCall)
    ensures HoldsBlock(t.mgr, id, OneNode(token), [0]) && t.waiting == [] && t.running.Keys == {id}
            && t.finished == s.finished
    ensures t.submitted == s.submitted + [id]
  {
    StaleAdmission(s.mgr, id, token);
    AdmittedAlone(s, id, [token], t);
  }

  /**
   The hypothesis on hits is needed for conservation too: with a pool of one block, admit and abort a
   sequence, admit another with the same prompt, and finish it. It is then in no pool at all.
   */
  lemma SequenceIsLost(token: u32, next: u32)
    ensures var s := Drive(InitSched(Config(1, 1, 2), 1), LosingCalls(token) + [StepCall(2, next, true)]);
            2 in s.submitted && s.waiting == [] && 2 !in s.running && 2 !in s.finished
  {
    var s0 := InitSched(Config(1, 1, 2), 1);
    var l := LosingCalls(token);
    assert AllFree(s0.mgr, BARE_TRIE);
    assert l == [] + [l[0]] + [l[1]] + [l[2]] + [l[3]] + [l[4]];
    DriveLast(s0, [], l[0]);
    DriveLast(s0, [] + [l[0]], l[1]);
    DriveLast(s0, [] + [l[0]] + [l[1]], l[2]);
    DriveLast(s0, [] + [l[0]] + [l[1]] + [l[2]], l[3]);
    DriveLast(s0, [] + [l[0]] + [l[1]] + [l[2]] + [l[3]], l[4]);
    DriveLast(s0, l, StepCall(2, next, true));
    var s3 := Next(Next(Next(s0, l[0]), l[1]), l[2]);
    FirstComesAndGoes(s0, 1, token, s3);
    var s5 := Next(Next(s3, l[3]), l[4]);
    SecondIsStale(s3, 2, token, s5);
    StaleSequenceIsLost(s5, 2, token, next);
    StepFacts(s5, StepCall(2, next, true), Next(s5, StepCall(2, next, true)));
  }
}
