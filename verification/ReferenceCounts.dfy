/** What the books say about every run of manager calls. */
module ReferenceCounts {
  import opened Prelude
  import opened BlockSpace
  import opened PrefixTrie
  import opened Accounting
  import opened Runs

  // ----- Counting sets of block ids -----

  ghost function Range(n: nat): (r: set<nat>)
    ensures |r| == n
    ensures forall b: nat :: b in r <==> b < n
  {
    if n == 0 then {} else Range(n - 1) + {n - 1}
  }

  ghost function Elements(l: seq<nat>): (r: set<nat>)
    ensures forall b :: b in r <==> b in l
  {
    set b | b in l
  }

  lemma {:induction false} DistinctCount(l: seq<nat>)
    requires Distinct(l)
    ensures |Elements(l)| == |l|
  {
    if l == [] {
      assert Elements(l) == {};
    } else {
      DistinctCount(Init(l));
      assert Elements(l) == Elements(Init(l)) + {Last(l)};
    }
  }

  // ----- Unconditional integrity -----

  /** The free stack is no longer than the pool. */
  lemma StackFits(s: State)
    requires PoolOk(s)
    ensures |s.freeStack| <= s.cfg.totalBlocks
  {
    DistinctCount(s.freeStack);
    var all := Range(s.cfg.totalBlocks);
    assert all == Elements(s.freeStack) + (all - Elements(s.freeStack));
  }

  /**
   Any calls with any results: the free stack has no duplicates and only block ids, the flags agree with
   it, blocks without references lie on it, and the clamps of the two counters never act.
   */
  lemma PoolIntegrity(cfg: Config, ops: seq<Op>)
    requires cfg.blockSize > 0
    ensures var s := Run(InitState(cfg), ops);
            && PoolOk(s)
            && |s.freeStack| <= s.cfg.totalBlocks
            && FreeBlocksCount(s) == |s.freeStack|
            && AllocatedBlocksCount(s) == s.cfg.totalBlocks - |s.freeStack|
  {
    StackFits(Run(InitState(cfg), ops));
  }

  // ----- Reference accounting -----

  predicate RunDisciplined(s: State, ops: seq<Op>)
    requires Wf(s)
  {
    ops == [] || (RunDisciplined(s, Init(ops)) && Disciplined(Run(s, Init(ops)), Last(ops)))
  }

  lemma {:induction false} RunsAccounted(s: State, ops: seq<Op>)
    requires Wf(s) && Accounted(s) && RunDisciplined(s, ops)
    ensures Accounted(Run(s, ops))
  {
    if ops == [] {
    } else {
      RunsAccounted(s, Init(ops));
      StepAccounted(Run(s, Init(ops)), Last(ops));
    }
  }

  /** Blocks that some table maps. */
  ghost function Mapped(s: State): set<nat> {
    set id, b | id in s.tables && b in s.tables[id].blockIds :: b
  }

  lemma {:induction false} TableRefsPositive(tables: map<nat, PageTable>, b: nat)
    ensures TableRefs(tables)[b] > 0 <==> exists id :: id in tables && b in tables[id].blockIds
    decreases |tables|
  {
    if tables == map[] {
    } else {
      var k :| k in tables && TableRefs(tables) == multiset(tables[k].blockIds) + TableRefs(tables - {k});
      TableRefsPositive(tables - {k}, b);
      assert multiset(tables[k].blockIds)[b] > 0 <==> b in tables[k].blockIds;
      if id :| id in tables && b in tables[id].blockIds && id != k {
        assert id in tables - {k};
      }
      if id :| id in tables - {k} && b in (tables - {k})[id].blockIds {
        assert id in tables && b in tables[id].blockIds;
      }
    }
  }

  /**
   After a disciplined run, errors included: a count is the multiplicity over all tables plus the
   references no table holds; a block is on the free stack exactly when its count is zero; so a mapped
   block is never on it, and every other block is.
   */
  lemma RunsKeepTheBooks(cfg: Config, ops: seq<Op>, b: nat)
    requires cfg.blockSize > 0 && RunDisciplined(InitState(cfg), ops) && b < cfg.totalBlocks
    ensures var s := Run(InitState(cfg), ops);
            && |s.blocks| == cfg.totalBlocks
            && s.blocks[b].refCount == TableRefs(s.tables)[b] + LooseRefs(s.loose)[b]
            && (b in s.freeStack <==> s.blocks[b].refCount == 0)
            && (b in Mapped(s) ==> b !in s.freeStack && s.blocks[b].refCount >= TableRefs(s.tables)[b] > 0)
  {
    var s := Run(InitState(cfg), ops);
    InitAccounted(cfg);
    RunsAccounted(InitState(cfg), ops);
    RunKeepsConfig(InitState(cfg), ops);
    TableRefsPositive(s.tables, b);
  }

  lemma {:induction false} RunKeepsConfig(s: State, ops: seq<Op>)
    requires Wf(s)
    ensures Run(s, ops).cfg == s.cfg
  {
    if ops == [] {
    } else {
      RunKeepsConfig(s, Init(ops));
      StepKeepsConfig(Run(s, Init(ops)), Last(ops));
    }
  }

  lemma StepKeepsConfig(s: State, op: Op)
    requires Wf(s)
    ensures Step(s, op).cfg == s.cfg
  {
    match op
    case Rollback(id, retain) =>
      if id in s.tables { FreeAllKeepsConfig(CutTable(s, id, retain), Dropped(s, id, retain)); }
    case FreeSeq(id) => if id in s.tables { FreeAllKeepsConfig(RemoveTable(s, id), s.tables[id].blockIds); }
    case _ =>
  }

  lemma {:induction false} FreeAllKeepsConfig(s: State, l: seq<nat>)
    requires Wf(s)
    ensures FreeAll(s, l).0.cfg == s.cfg
    decreases |l|
  {
    if l == [] || FreeBlock(s, l[0]).1.Err? {
    } else {
      FreeAllKeepsConfig(FreeBlock(s, l[0]).0, l[1..]);
    }
  }

  // ----- Runs that strand nothing -----

  /** A call that succeeds, creates sequences under fresh ids only, and takes no block directly. */
  predicate Clean(s: State, op: Op)
    requires Wf(s)
  {
    && Succeeds(s, op)
    && match op
       case Allocate => false
       case Register(id) => id !in s.tables
       case Match(id, prompt) => id !in s.tables
       case Fork(p, c) => c !in s.tables
       case _ => true
  }

  predicate RunClean(s: State, ops: seq<Op>)
    requires Wf(s)
  {
    ops == [] || (RunClean(s, Init(ops)) && Clean(Run(s, Init(ops)), Last(ops)))
  }

  lemma {:induction false} FreeAllKeepsTables(s: State, l: seq<nat>)
    requires Wf(s)
    ensures FreeAll(s, l).0.loose == s.loose && FreeAll(s, l).0.tables == s.tables
    decreases |l|
  {
    if l == [] || FreeBlock(s, l[0]).1.Err? {
    } else {
      FreeAllKeepsTables(FreeBlock(s, l[0]).0, l[1..]);
    }
  }

  lemma CleanMatch(s: State, id: nat, prompt: seq<u32>)
    requires Wf(s) && s.loose == [] && id !in s.tables && MatchOrAllocatePrefix(s, id, prompt).1.Ok?
    ensures MatchOrAllocatePrefix(s, id, prompt).0.loose == []
  {
    TakePromptFrame(RegisterSequence(s, id), id, prompt);
  }

  lemma CleanStrandsNothing(s: State, op: Op)
    requires Wf(s) && s.loose == [] && Clean(s, op)
    ensures Step(s, op).loose == []
  {
    match op
    case Match(id, prompt) => CleanMatch(s, id, prompt);
    case Append(id, n) => AllocateManyShape(s, id, Wanted(s, id, n));
    case Rollback(id, retain) =>
      if id in s.tables { FreeAllKeepsTables(CutTable(s, id, retain), Dropped(s, id, retain)); }
    case FreeSeq(id) => if id in s.tables { FreeAllKeepsTables(RemoveTable(s, id), s.tables[id].blockIds); }
    case _ =>
  }

  lemma {:induction false} CleanRuns(s: State, ops: seq<Op>)
    requires Wf(s) && s.loose == [] && RunClean(s, ops)
    ensures Run(s, ops).loose == []
  {
    if ops == [] {
    } else {
      CleanRuns(s, Init(ops));
      CleanStrandsNothing(Run(s, Init(ops)), Last(ops));
    }
  }

  /**
   After a disciplined run of successful calls on fresh ids, every count is exactly the multiplicity over
   the page tables, and free blocks plus distinct mapped blocks make up the pool.
   */
  lemma CleanRunsBalance(cfg: Config, ops: seq<Op>)
    requires cfg.blockSize > 0 && RunDisciplined(InitState(cfg), ops) && RunClean(InitState(cfg), ops)
    ensures var s := Run(InitState(cfg), ops);
            && |s.blocks| == cfg.totalBlocks
            && (forall b :: 0 <= b < |s.blocks| ==> s.blocks[b].refCount == TableRefs(s.tables)[b])
            && (forall b :: 0 <= b < |s.blocks| ==> (b in s.freeStack <==> b !in Mapped(s)))
            && |s.freeStack| + |Mapped(s)| == cfg.totalBlocks
  {
    InitAccounted(cfg);
    RunsAccounted(InitState(cfg), ops);
    RunKeepsConfig(InitState(cfg), ops);
    CleanRuns(InitState(cfg), ops);
    CleanBooks(Run(InitState(cfg), ops));
  }

  /** A stack and the set of all other ids below `n` have `n` members together. */
  lemma Partition(stack: seq<nat>, rest: set<nat>, n: nat)
    requires Distinct(stack) && AllBelow(stack, n)
    requires forall b :: b in rest ==> b < n
    requires forall b: nat :: b < n ==> (b in stack <==> b !in rest)
    ensures |stack| + |rest| == n
  {
    DistinctCount(stack);
    assert Range(n) == Elements(stack) + rest;
  }

  lemma MappedIsCounted(s: State)
    ensures forall b: nat :: b in Mapped(s) <==> TableRefs(s.tables)[b] > 0
  {
    forall b: nat ensures b in Mapped(s) <==> TableRefs(s.tables)[b] > 0 {
      TableRefsPositive(s.tables, b);
    }
  }

  lemma CleanBooks(s: State)
    requires PoolOk(s) && Accounted(s) && s.loose == []
    ensures forall b :: 0 <= b < |s.blocks| ==> s.blocks[b].refCount == TableRefs(s.tables)[b]
    ensures forall b :: 0 <= b < |s.blocks| ==> (b in s.freeStack <==> b !in Mapped(s))
    ensures |s.freeStack| + |Mapped(s)| == |s.blocks|
  {
    assert Held(s) == TableRefs(s.tables);
    MappedIsCounted(s);
    Partition(s.freeStack, Mapped(s), |s.blocks|);
  }

  // ----- Frees never fail; hits on dead blocks do break the books -----

  /** In order books, rolling back and freeing a sequence never report a double free. */
  lemma NoDoubleFree(s: State, id: nat, retain: nat)
    requires Wf(s) && Accounted(s)
    ensures !RollbackSequence(s, id, retain).1.Err? || RollbackSequence(s, id, retain).1 == Err(SequenceNotFound(id))
    ensures FreeSequence(s, id).1 == Ok(())
  {
    RollbackAccounted(s, id, retain);
    FreeSequenceAccounted(s, id);
  }

  /** No block is listed more often than it is counted. */
  ghost predicate WithinCounts(blocks: seq<PhysicalBlock>, l: seq<nat>) {
    forall b :: b in l ==> b < |blocks| && multiset(l)[b] <= blocks[b].refCount
  }

  lemma OneLess(before: seq<PhysicalBlock>, after: seq<PhysicalBlock>, l: seq<nat>)
    requires l != [] && l[0] < |before| == |after| && before[l[0]].refCount > 0
    requires forall b :: 0 <= b < |before| ==> after[b].refCount == before[b].refCount - (if b == l[0] then 1 else 0)
    ensures WithinCounts(before, l) <==> WithinCounts(after, l[1..])
  {
    assert l == [l[0]] + l[1..];
    assert forall b :: multiset(l)[b] == multiset(l[1..])[b] + (if b == l[0] then 1 else 0);
    assert forall b :: b in l <==> b == l[0] || b in l[1..];
    assert forall b :: b in l[1..] <==> multiset(l[1..])[b] > 0;
  }

  /** Without any assumption: freeing a list succeeds exactly when no block is listed more often than it is counted. */
  lemma {:induction false} FreeAllSucceeds(s: State, l: seq<nat>)
    requires Wf(s)
    ensures FreeAll(s, l).1.Ok? <==> WithinCounts(s.blocks, l)
    decreases |l|
  {
    if l == [] {
    } else {
      assert l == [l[0]] + l[1..];
      var (s1, r) := FreeBlock(s, l[0]);
      if r.Ok? {
        FreeAllSucceeds(s1, l[1..]);
        OneLess(s.blocks, s1.blocks, l);
      } else {
        assert l[0] in l && multiset(l)[l[0]] > 0;
      }
    }
  }

  // A concrete run: one block, one-token pages, one-token prompt.

  function OneBlock(): State {
    InitState(Config(1, 1, 2))
  }

  /** The one block is free, and the trie holds these nodes. */
  predicate AllFree(s: State, nodes: seq<TrieNode>) {
    && s.cfg == Config(1, 1, 2) && s.tables == map[] && s.freeStack == [0] && s.blocks == [FREE_BLOCK]
    && s.loose == [] && s.nodes == nodes
  }

  /** Sequence `id` holds the one block, counted once; `stack` is the free stack. */
  predicate HoldsBlock(s: State, id: nat, nodes: seq<TrieNode>, stack: seq<nat>) {
    && s.cfg == Config(1, 1, 2) && s.tables == map[id := PageTable(1, [0])] && s.freeStack == stack
    && |s.blocks| == 1 && s.blocks[0].refCount == 1
    && s.loose == [] && s.nodes == nodes
  }

  const BARE_TRIE := [TrieNode(None, [], map[])]

  function OneNode(tok: u32): seq<TrieNode> {
    [TrieNode(None, [], map[[tok] := 1]), TrieNode(Some(0), [tok], map[])]
  }

  lemma OneChunk(tok: u32)
    ensures Chunks([tok], 1) == [[tok]] && Init([[tok]]) == [] && Last([[tok]]) == [tok]
  {
    assert ChunkAt([tok], 1, 0) == [tok];
  }

  /** With one one-token chunk, admission is one iteration of the chunk loop. */
  lemma OneIteration(s: State, id: nat, tok: u32, w: Walk)
    requires Wf(s) && s.cfg == Config(1, 1, 2) && s.tables == map[] && s.loose == []
    requires w == WalkStep(Walk(RegisterSequence(s, id), 0, [], 0, true), id, [tok])
    requires w.ok && w.held == [0] && w.s.tables == RegisterSequence(s, id).tables && w.s.loose == []
             && |w.s.blocks| == 1
    ensures MatchOrAllocatePrefix(s, id, [tok])
            == (w.s.(tables := map[id := PageTable(1, [0])], prompts := w.s.prompts[id := [tok]]), Ok(w.matched))
  {
    OneChunk(tok);
    var s0 := RegisterSequence(s, id);
    assert WalkChunks(s0, id, []) == Walk(s0, 0, [], 0, true);
    assert WalkChunks(s0, id, [[tok]]) == w;
    assert Overhang(|[tok]|, 1) == 0;
    assert TakePrompt(s0, id, [tok]) == w;
    assert s.tables[id := PageTable(0, [])][id := PageTable(1, [0])] == map[id := PageTable(1, [0])];
  }

  /** Admitting the prompt on an empty manager. */
  lemma FirstAdmission(s: State, id: nat, tok: u32)
    requires Wf(s) && AllFree(s, BARE_TRIE)
    ensures var (t, r) := MatchOrAllocatePrefix(s, id, [tok]);
            r == Ok(0) && HoldsBlock(t, id, OneNode(tok), [])
  {
    var s0 := RegisterSequence(s, id);
    var w := WalkStep(Walk(s0, 0, [], 0, true), id, [tok]);
    assert !IsHit(s0.nodes, 0, [tok]);
    assert AddNode(s0.nodes, 0, [tok], 0) == OneNode(tok);
    OneIteration(s, id, tok, w);
  }

  /** Freeing that sequence leaves the node behind. */
  lemma Release(s: State, id: nat, tok: u32)
    requires Wf(s) && HoldsBlock(s, id, OneNode(tok), [])
    ensures var (t, r) := FreeSequence(s, id);
            r == Ok(()) && AllFree(t, OneNode(tok))
  {
    var c := RemoveTable(s, id);
    assert FreeAll(c, [0]) == FreeAll(FreeBlock(c, 0).0, []);
    assert FreeBlock(c, 0).0.blocks == [FREE_BLOCK];
    assert s.tables[id].blockIds == [0];
    assert c.tables == map[];
  }

  /** Admitting the prompt again: the hit lands on the free block. */
  lemma StaleAdmission(s: State, id: nat, tok: u32)
    requires Wf(s) && AllFree(s, OneNode(tok))
    ensures var (t, r) := MatchOrAllocatePrefix(s, id, [tok]);
            r == Ok(1) && HoldsBlock(t, id, OneNode(tok), [0]) && !LiveHits(s, [tok])
  {
    var s0 := RegisterSequence(s, id);
    OneHit(s0, id, tok);
    OneIteration(s, id, tok, WalkStep(Walk(s0, 0, [], 0, true), id, [tok]));
    StaleBlock(s, tok);
  }

  lemma OneHit(s: State, id: nat, tok: u32)
    requires Wf(s) && s.nodes == OneNode(tok) && s.blocks == [FREE_BLOCK]
    ensures var w := WalkStep(Walk(s, 0, [], 0, true), id, [tok]);
            && w.ok && w.held == [0] && w.matched == 1 && |w.s.blocks| == 1 && w.s.blocks[0].refCount == 1
            && w.s == s.(blocks := w.s.blocks, lookups := w.s.lookups, hits := w.s.hits)
  {
    assert IsHit(s.nodes, 0, [tok]);
  }

  lemma StaleBlock(s: State, tok: u32)
    requires s.cfg.blockSize == 1 && s.nodes == OneNode(tok)
    ensures 0 in HitBlocks(s, [tok])
  {
    OneChunk(tok);
    assert Find(s.nodes, []) == Some(0) && Find(s.nodes, [[tok]]) == Some(1);
    assert [[tok]][..1] == [[tok]];
    assert BlocksOn(s.nodes, [[tok]]) == BlocksOn(s.nodes, []) + [0];
  }

  lemma ThreeSteps(s: State, a: Op, b: Op, c: Op)
    requires Wf(s)
    ensures Run(s, [a, b, c]) == Step(Step(Step(s, a), b), c)
    ensures RunDisciplined(s, [a, b, c]) ==> Disciplined(Step(Step(s, a), b), c)
  {
    assert Init([a, b, c]) == [a, b] && Init([a, b]) == [a] && Init([a]) == [];
    assert Run(s, [a]) == Step(Run(s, []), a);
    assert Run(s, [a, b]) == Step(Run(s, [a]), b);
  }

  /**
   The hypothesis on hits is needed: admit a one-chunk prompt, free the sequence, admit the same prompt
   again. The trie still names the block, and the second table maps a block that lies on the free stack.
   */
  lemma StaleHitMapsFreeBlock(tok: u32)
    ensures var ops := [Match(1, [tok]), FreeSeq(1), Match(2, [tok])];
            var s := Run(OneBlock(), ops);
            && 2 in s.tables && s.tables[2].blockIds == [0] && 0 in s.freeStack
            && !RunDisciplined(OneBlock(), ops)
  {
    var s0 := OneBlock();
    assert AllFree(s0, BARE_TRIE);
    StaleSteps(s0, 1, 2, tok);
    ThreeSteps(s0, Match(1, [tok]), FreeSeq(1), Match(2, [tok]));
  }

  lemma StepMatch(s: State, id: nat, prompt: seq<u32>)
    requires Wf(s)
    ensures Step(s, Match(id, prompt)) == MatchOrAllocatePrefix(s, id, prompt).0
    ensures Disciplined(s, Match(id, prompt)) == LiveHits(s, prompt)
  {
  }

  lemma StepFreeSeq(s: State, id: nat)
    requires Wf(s)
    ensures Step(s, FreeSeq(id)) == FreeSequence(s, id).0
  {
  }

  lemma StaleSteps(s: State, first: nat, second: nat, tok: u32)
    requires Wf(s) && AllFree(s, BARE_TRIE)
    ensures var t := Step(Step(s, Match(first, [tok])), FreeSeq(first));
            HoldsBlock(Step(t, Match(second, [tok])), second, OneNode(tok), [0])
              && !Disciplined(t, Match(second, [tok]))
  {
    StepMatch(s, first, [tok]);
    FirstAdmission(s, first, tok);
    var s1 := Step(s, Match(first, [tok]));
    StepFreeSeq(s1, first);
    Release(s1, first, tok);
    var s2 := Step(s1, FreeSeq(first));
    StepMatch(s2, second, [tok]);
    StaleAdmission(s2, second, tok);
  }
}
