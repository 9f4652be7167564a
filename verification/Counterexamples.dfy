/** Concrete runs in which sharing or writing goes wrong: the hypotheses of the main results cannot be dropped. */
module Counterexamples {
  import opened Prelude
  import opened BlockSpace
  import opened PrefixTrie
  import opened Accounting
  import opened Runs
  import opened ReferenceCounts
  import opened PrefixSharing
  import opened MatchSound
  import opened PrefixMatching
  import opened AdmissionSharing
  import opened DistinctPages
  import opened WriteExclusive
  import opened RollbackInverse
  import opened ReachableSharing

  lemma RunSnoc(s: State, ops: seq<Op>, op: Op)
    requires Wf(s)
    ensures Run(s, ops + [op]) == Step(Run(s, ops), op)
    ensures RunCareful(s, ops + [op]) <==> RunCareful(s, ops) && Careful(Run(s, ops), op)
  {
    assert Init(ops + [op]) == ops;
  }

  // ----- A live hit on a recycled block -----

  /** One one-token chunk is cached, or it is not. */
  lemma OneChunkHits(s: State, tok: u32)
    requires s.cfg.blockSize == 1
    ensures Cached(s.nodes, [[tok]]).Some?
            ==> HitBlocks(s, [tok]) == [Cached(s.nodes, [[tok]]).value] && Shortfall(s, [tok]) == 0
    ensures Find(s.nodes, [[tok]]).None? ==>
              HitBlocks(s, [tok]) == [] && Shortfall(s, [tok]) == 1
                && NodesOn(s.nodes, HitPath(s.nodes, Chunks([tok], 1))) == []
  {
    OneChunk(tok);
    assert [[tok]][..1] == [[tok]] && [[tok]][..0] == [];
    assert BlocksOn(s.nodes, [[tok]]) == BlocksOn(s.nodes, []) + [Cached(s.nodes, [[tok]]).GetOr(0)];
    assert Overhang(1, 1) == 0;
  }

  /** The trie of one node does not hold another token, and holds its own. */
  lemma OneNodeHolds(a: u32, b: u32)
    requires a != b
    ensures Find(BARE_TRIE, [[a]]).None? && Find(OneNode(a), [[b]]).None? && Cached(OneNode(a), [[a]]) == Some(0)
  {
    assert Init([[a]]) == [] && Init([[b]]) == [] && Last([[a]]) == [a] && Last([[b]]) == [b];
    assert Find(BARE_TRIE, []) == Some(0) && Find(OneNode(a), []) == Some(0);
    assert [a][0] != [b][0];
  }

  /** The state before the wrong admission: the first prompt came and went, the second holds its block. */
  ghost predicate Recycled(s: State, a: u32, b: u32) {
    && s.cfg == Config(1, 1, 2) && s.tables == map[2 := PageTable(1, [0])] && s.freeStack == []
    && 2 in s.prompts && s.prompts[2] == [b] && Cached(s.nodes, [[a]]) == Some(0)
  }

  lemma RunRecycles(s: State, a: u32, b: u32, two: seq<Op>, ops: seq<Op>)
    requires a != b && Wf(s) && AllFree(s, BARE_TRIE)
    requires two == [Match(1, [a]), FreeSeq(1)] && ops == two + [Match(2, [b])]
    ensures RunCareful(s, ops) && Recycled(Run(s, ops), a, b)
  {
    FirstComesAndGoes(s, a, b, two);
    RunSnoc(s, two, Match(2, [b]));
    SecondTakesBlock(Run(s, two), a, b);
    StepMatch(Run(s, two), 2, [b]);
  }

  lemma FirstComesAndGoes(s: State, a: u32, b: u32, two: seq<Op>)
    requires a != b && Wf(s) && AllFree(s, BARE_TRIE) && two == [Match(1, [a]), FreeSeq(1)]
    ensures RunCareful(s, two) && AllFree(Run(s, two), OneNode(a))
  {
    var none: seq<Op>, one := [], [Match(1, [a])];
    RunSnoc(s, none, Match(1, [a]));
    RunSnoc(s, one, FreeSeq(1));
    assert none + [Match(1, [a])] == one && one + [FreeSeq(1)] == two;
    FirstTakesBlock(s, a, b);
    StepMatch(s, 1, [a]);
    FirstAdmission(s, 1, a);
    var t := Step(s, Match(1, [a]));
    StepFreeSeq(t, 1);
    Release(t, 1, a);
  }

  lemma FirstTakesBlock(s: State, a: u32, b: u32)
    requires a != b && Wf(s) && AllFree(s, BARE_TRIE)
    ensures Careful(s, Match(1, [a]))
  {
    OneNodeHolds(a, b);
    OneChunkHits(s, a);
  }

  lemma SecondTakesBlock(s: State, a: u32, b: u32)
    requires Wf(s) && AllFree(s, OneNode(a)) && a != b
    ensures Careful(s, Match(2, [b]))
    ensures var (t, r) := MatchOrAllocatePrefix(s, 2, [b]);
            && r.Ok? && t.cfg == s.cfg && t.tables == map[2 := PageTable(1, [0])] && t.freeStack == []
            && 2 in t.prompts && t.prompts[2] == [b] && Cached(t.nodes, [[a]]) == Some(0)
  {
    OneNodeHolds(a, b);
    OneChunkHits(s, b);
    MatchOutcome(s, 2, [b]);
    assert Top([0], 1) == [0] && [] + [0] == [0];
    MatchRecords(s, 2, [b]);
    TrieRefinesMap(s, 2, [b], [[a]]);
    AdmittedTable(s, 2, [b]);
  }

  /**
   A careful run, then an admission whose only hit lands on a block in use: two sequences with different
   prompts share a block. The hit's node lost its block to the other sequence.
   */
  lemma LiveHitSharesWrongly(a: u32, b: u32, cfg: Config, two: seq<Op>, ops: seq<Op>)
    requires a != b && cfg == Config(1, 1, 2)
    requires two == [Match(1, [a]), FreeSeq(1)] && ops == two + [Match(2, [b])]
    ensures RunCareful(InitState(cfg), ops)
    ensures var s := Run(InitState(cfg), ops);
            var (t, r) := MatchOrAllocatePrefix(s, 3, [a]);
            && LiveHits(s, [a]) && r == Ok(1)
            && t.tables == map[2 := PageTable(1, [0]), 3 := PageTable(1, [0])]
            && 2 in t.prompts && 3 in t.prompts && t.prompts[2] == [b] && t.prompts[3] == [a]
            && Clashes(s, [a], 2, 0)
  {
    assert AllFree(InitState(cfg), BARE_TRIE);
    RunRecycles(InitState(cfg), a, b, two, ops);
    CarefulRunsAreSound(cfg, ops);
    ThirdShares(Run(InitState(cfg), ops), a, b);
  }

  lemma ThirdShares(s: State, a: u32, b: u32)
    requires Wf(s) && Accounted(s) && CacheSound(s) && a != b && Recycled(s, a, b)
    ensures LiveHits(s, [a]) && Clashes(s, [a], 2, 0)
    ensures var (t, r) := MatchOrAllocatePrefix(s, 3, [a]);
            && r == Ok(1) && t.tables == map[2 := PageTable(1, [0]), 3 := PageTable(1, [0])]
            && 2 in t.prompts && 3 in t.prompts && t.prompts[2] == [b] && t.prompts[3] == [a]
  {
    ThirdAdmits(s, a, b);
    HeldBlockIsLive(s, a, b);
    AdmissionSharesRightly(s, 3, [a], 2, 0);
    TokensDiffer(MatchOrAllocatePrefix(s, 3, [a]).0, a, b);
  }

  lemma ThirdAdmits(s: State, a: u32, b: u32)
    requires Wf(s) && Recycled(s, a, b)
    ensures BothFill(s, 2, [a], 0)
    ensures var (t, r) := MatchOrAllocatePrefix(s, 3, [a]);
            && r == Ok(1) && t.tables == map[2 := PageTable(1, [0]), 3 := PageTable(1, [0])] && t.cfg == s.cfg
            && 2 in t.prompts && 3 in t.prompts && t.prompts[2] == [b] && t.prompts[3] == [a]
  {
    OneChunkHits(s, a);
    MatchOutcome(s, 3, [a]);
    assert [0] + Top(s.freeStack, 0) == [0];
    MatchRecords(s, 3, [a]);
    AdmittedTable(s, 3, [a]);
  }

  lemma HeldBlockIsLive(s: State, a: u32, b: u32)
    requires Wf(s) && Accounted(s) && Recycled(s, a, b)
    ensures LiveHits(s, [a])
  {
    OneChunkHits(s, a);
    assert s.tables[2].blockIds == [0];
    TableCounts(s.tables, 2);
    assert multiset([0])[0] == 1;
  }

  lemma TokensDiffer(t: State, a: u32, b: u32)
    requires a != b && t.cfg.blockSize == 1 && t.tables == map[2 := PageTable(1, [0]), 3 := PageTable(1, [0])]
    ensures !SharesRightly(t, 2, [b], 3, [a], 0)
  {
    assert TokensIn(1, 1) == 1;
    assert [a][..1] == [a] && [b][..1] == [b] && [a][0] != [b][0];
  }

  // ----- Writing into shared blocks -----

  /** Registering and appending to an untouched manager gives a table of the first free blocks. */
  lemma RegisteredAppend(s: State, n: nat)
    requires Wf(s) && s.tables == map[] && s.prompts == map[] && s.cfg.blockSize == 2
    requires BlocksFor(n, 2) <= |s.freeStack| && BlocksFor(n, 2) <= s.cfg.maxBlocksPerSeq
    ensures var t := Step(Step(s, Register(1)), Append(1, n));
            && t.tables.Keys == {1} && t.tables[1].logicalTokens == n && |t.tables[1].blockIds| == BlocksFor(n, 2)
            && t.prompts == map[] && t.cfg == s.cfg
  {
    var u := Step(s, Register(1));
    assert u.tables == map[1 := PageTable(0, [])] && u.prompts == map[] && u.freeStack == s.freeStack && u.cfg == s.cfg;
    FirstAppend(u, n);
  }

  lemma FirstAppend(s: State, n: nat)
    requires Wf(s) && s.tables == map[1 := PageTable(0, [])] && s.prompts == map[] && s.cfg.blockSize == 2
    requires BlocksFor(n, 2) <= |s.freeStack| && BlocksFor(n, 2) <= s.cfg.maxBlocksPerSeq
    ensures var t := Step(s, Append(1, n));
            && t.tables.Keys == {1} && t.tables[1].logicalTokens == n && |t.tables[1].blockIds| == BlocksFor(n, 2)
            && t.prompts == map[] && t.cfg == s.cfg
  {
    AllocateManyShape(s, 1, Wanted(s, 1, n));
    FinishIs(s, 1, Lengthened(s, 1, n), AllocateMany(s, 1, Wanted(s, 1, n)));
  }

  /** The call can be neither a prefix match nor a direct free. */
  predicate Plain(op: Op) {
    !op.Match? && !op.Free?
  }

  lemma {:induction false} PlainRunsAreCareful(s: State, ops: seq<Op>)
    requires Wf(s) && forall i :: 0 <= i < |ops| ==> Plain(ops[i])
    ensures RunCareful(s, ops)
  {
    if ops == [] {
    } else {
      PlainRunsAreCareful(s, Init(ops));
      assert Plain(Last(ops));
    }
  }

  lemma ThreeCalls(s: State, a: Op, b: Op, c: Op, two: seq<Op>, three: seq<Op>)
    requires Wf(s) && two == [a, b] && three == two + [c]
    ensures Run(s, two) == Step(Step(s, a), b)
    ensures Run(s, three) == Step(Run(s, two), c)
  {
    TwoCalls(s, a, b, two);
    RunSnoc(s, two, c);
  }

  lemma TwoCalls(s: State, a: Op, b: Op, two: seq<Op>)
    requires Wf(s) && two == [a, b]
    ensures Run(s, two) == Step(Step(s, a), b)
  {
    var none: seq<Op>, one := [], [a];
    RunSnoc(s, none, a);
    RunSnoc(s, one, b);
    assert none + [a] == one && one + [b] == two;
  }

  /**
   A fork inside a block: one token, a fork, one more token for the child. The child's token goes into the
   block that its parent holds.
   */
  lemma ForkedTailIsShared(cfg: Config, two: seq<Op>, ops: seq<Op>)
    requires cfg == Config(2, 2, 2) && two == [Register(1), Append(1, 1)] && ops == two + [Fork(1, 2)]
    ensures RunCareful(InitState(cfg), ops)
    ensures var s := Run(InitState(cfg), ops);
            2 in s.tables && AppendTokens(s, 2, 1).1.Ok? && !WritesAlone(s, 2, 1)
  {
    PlainRunsAreCareful(InitState(cfg), ops);
    PlainRunsAreCareful(InitState(cfg), two);
    CarefulRunsAreSound(cfg, two);
    ThreeCalls(InitState(cfg), Register(1), Append(1, 1), Fork(1, 2), two, ops);
    RegisteredAppend(InitState(cfg), 1);
    ForkedInside(Run(InitState(cfg), two));
  }

  lemma ForkedInside(s: State)
    requires Wf(s) && Accounted(s) && CacheSound(s) && s.cfg == Config(2, 2, 2)
    requires s.tables.Keys == {1} && s.tables[1].logicalTokens == 1 && |s.tables[1].blockIds| == BlocksFor(1, 2)
    ensures var t := Step(s, Fork(1, 2));
            2 in t.tables && AppendTokens(t, 2, 1).1.Ok? && !WritesAlone(t, 2, 1)
  {
    var t := Step(s, Fork(1, 2));
    assert BlocksFor(1, 2) == 1 && BlocksFor(2, 2) == 1 && PageOf(1, 2) == 0;
    assert t.tables[2] == s.tables[1];
    assert Wanted(t, 2, 1) == 0;
    ForkedAppendAlone(s, 1, 2, 2, 1);
  }

  /**
   A fork at a block boundary, then a rollback into the last shared block: the next token of the child goes
   into the block that its parent holds. No sequence has a prompt, so nothing was rolled back into one.
   */
  lemma CutSharedPageIsShared(cfg: Config, two: seq<Op>, three: seq<Op>, ops: seq<Op>)
    requires cfg == Config(2, 2, 2) && two == [Register(1), Append(1, 4)] && three == two + [Fork(1, 2)]
             && ops == three + [Rollback(2, 3)]
    ensures RunCareful(InitState(cfg), ops)
    ensures 1 in Run(InitState(cfg), two).tables && FullTable(Run(InitState(cfg), two), 1)
    ensures var s := Run(InitState(cfg), ops);
            s.prompts == map[] && 2 in s.tables && AppendTokens(s, 2, 1).1.Ok? && !WritesAlone(s, 2, 1)
  {
    PlainRunsAreCareful(InitState(cfg), two);
    PlainRunsAreCareful(InitState(cfg), three);
    PlainRunsAreCareful(InitState(cfg), ops);
    CarefulRunsAreSound(cfg, two);
    CarefulRunsAreSound(cfg, three);
    ThreeCalls(InitState(cfg), Register(1), Append(1, 4), Fork(1, 2), two, three);
    RunSnoc(InitState(cfg), three, Rollback(2, 3));
    TwoPages(InitState(cfg));
    ForkedPages(Run(InitState(cfg), two), Run(InitState(cfg), three));
    CutInside(Run(InitState(cfg), three));
  }

  lemma TwoPages(s: State)
    requires Wf(s) && s == InitState(Config(2, 2, 2))
    ensures var t := Step(Step(s, Register(1)), Append(1, 4));
            && t.cfg == s.cfg && 1 in t.tables && t.tables[1].logicalTokens == 4 && |t.tables[1].blockIds| == 2
            && t.prompts == map[] && FullTable(t, 1)
  {
    assert BlocksFor(4, 2) == 2 && PageOf(4, 2) == 2;
    RegisteredAppend(s, 4);
  }

  lemma ForkedPages(s: State, t: State)
    requires Wf(s) && Accounted(s) && 1 in s.tables && |s.tables[1].blockIds| == 2 && s.prompts == map[]
    requires t == Step(s, Fork(1, 2))
    ensures 2 in t.tables && t.tables[2] == s.tables[1] && t.cfg == s.cfg && t.prompts == map[]
    ensures t.tables[2].blockIds[1] < |t.blocks| && t.blocks[t.tables[2].blockIds[1]].refCount > 1
  {
    ForkShares(s, 1, 2, 1);
  }

  lemma CutInside(s: State)
    requires Wf(s) && Accounted(s) && CacheSound(s) && s.cfg == Config(2, 2, 2) && s.prompts == map[]
    requires 2 in s.tables && s.tables[2].logicalTokens == 4 && |s.tables[2].blockIds| == 2
    requires s.tables[2].blockIds[1] < |s.blocks| && s.blocks[s.tables[2].blockIds[1]].refCount > 1
    ensures var t := Step(s, Rollback(2, 3));
            2 in t.tables && AppendTokens(t, 2, 1).1.Ok? && !WritesAlone(t, 2, 1) && t.prompts == map[]
  {
    var t := Step(s, Rollback(2, 3));
    assert BlocksFor(3, 2) == 2 && BlocksFor(4, 2) == 2 && PageOf(3, 2) == 1 && Overhang(3, 2) == 1;
    assert s.tables[2].blockIds[2..] == [] && Dropped(s, 2, 3) == [];
    FreeAllKeeps(CutTable(s, 2, 3), Dropped(s, 2, 3));
    assert t.tables[2] == PageTable(3, s.tables[2].blockIds[..2]) && Wanted(t, 2, 1) == 0;
    RolledBackAppendAlone(s, 2, 3, 1);
  }

  // ----- Rolling back past the pages held -----

  /**
   A rollback may name a length above the current one. It then leaves a table without the pages its tokens
   need, and an append undone by a rollback to the old length does not bring that table back.
   */
  lemma UndoneAppendDiffers(cfg: Config, ops: seq<Op>)
    requires cfg == Config(2, 1, 2) && ops == [Register(1), Rollback(1, 1)]
    ensures RunCareful(InitState(cfg), ops)
    ensures var s := Run(InitState(cfg), ops);
            && s.tables == map[1 := PageTable(1, [])] && AppendTokens(s, 1, 1).1.Ok?
            && RollbackSequence(AppendTokens(s, 1, 1).0, 1, 1).0.tables != s.tables
  {
    PlainRunsAreCareful(InitState(cfg), ops);
    TwoCalls(InitState(cfg), Register(1), Rollback(1, 1), ops);
    RolledForward(InitState(cfg));
    UndoneFromForward(Run(InitState(cfg), ops));
  }

  lemma RolledForward(s: State)
    requires Wf(s) && s.cfg == Config(2, 1, 2) && s.tables == map[] && s.freeStack == [1, 0]
    ensures var t := Step(Step(s, Register(1)), Rollback(1, 1));
            t.cfg == s.cfg && t.tables == map[1 := PageTable(1, [])] && t.freeStack == [1, 0]
  {
    var u := Step(s, Register(1));
    assert u.tables == map[1 := PageTable(0, [])] && u.freeStack == s.freeStack && u.cfg == s.cfg;
    assert BlocksFor(1, 1) == 1 && Dropped(u, 1, 1) == [];
    assert u.tables[1 := PageTable(1, [])] == map[1 := PageTable(1, [])];
  }

  lemma UndoneFromForward(s: State)
    requires Wf(s) && s.cfg == Config(2, 1, 2) && s.tables == map[1 := PageTable(1, [])] && s.freeStack == [1, 0]
    ensures AppendTokens(s, 1, 1).1.Ok? && RollbackSequence(AppendTokens(s, 1, 1).0, 1, 1).0.tables != s.tables
  {
    assert s.tables[1] == PageTable(1, []) && BlocksFor(1, 1) == 1 && BlocksFor(2, 1) == 2;
    assert Wanted(s, 1, 1) == 2;
    AllocateManyShape(s, 1, 2);
    AppendThenRollback(s, 1, 1);
  }
}
