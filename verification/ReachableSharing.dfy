/** Prefix sharing and write isolation for every run from the empty pool. */
module ReachableSharing {
  import opened Prelude
  import opened BlockSpace
  import opened Accounting
  import opened Runs
  import opened PrefixSharing
  import opened SharingRuns
  import opened MatchSound
  import opened DistinctPages
  import opened PageCounts
  import opened WriteExclusive
  import opened RollbackInverse
  import opened ReferenceCounts

  /**
   The call neither replaces nor removes the table of `id`, and does not roll it back below its prompt's
   full blocks.
   */
  predicate LeavesPrompt(s: State, op: Op, id: nat)
    requires s.cfg.blockSize > 0 && id in s.prompts
  {
    match op
    case Register(k) => k != id
    case Match(k, _) => k != id
    case Fork(_, c) => c != id
    case Rollback(k, retain) =>
      k == id ==> TokensIn(PageOf(|s.prompts[id]|, s.cfg.blockSize), s.cfg.blockSize) <= retain
    case FreeSeq(k) => k != id
    case _ => true
  }

  /** `q` is `p`, perhaps without tokens of its unfilled last chunk. */
  predicate SameChunks(q: seq<u32>, p: seq<u32>, blockSize: nat)
    requires blockSize > 0
  {
    |q| <= |p| && q == p[..|q|] && PageOf(|q|, blockSize) == PageOf(|p|, blockSize)
  }

  lemma TrimmedSameChunks(p: seq<u32>, retain: nat, blockSize: nat)
    requires blockSize > 0 && TokensIn(PageOf(|p|, blockSize), blockSize) <= retain
    ensures SameChunks(p[..Min(retain, |p|)], p, blockSize)
  {
    var m := Min(retain, |p|);
    PageStarts(|p|, PageOf(|p|, blockSize), blockSize);
    PageStarts(m, PageOf(|p|, blockSize), blockSize);
    FloorMonotone(m, |p|, blockSize);
  }

  /** Full chunks have the same tokens. */
  lemma SameChunksAgree(q: seq<u32>, p: seq<u32>, blockSize: nat, i: nat)
    requires blockSize > 0 && SameChunks(q, p, blockSize) && i < PageOf(|p|, blockSize)
    ensures var n := TokensIn(i + 1, blockSize); n <= |q| <= |p| && q[..n] == p[..n]
  {
    PageStarts(|q|, i + 1, blockSize);
  }

  predicate RunLeavesPrompt(s: State, ops: seq<Op>, id: nat)
    requires Wf(s)
  {
    ops == [] ||
    (RunLeavesPrompt(s, Init(ops), id) && id in Run(s, Init(ops)).prompts
     && LeavesPrompt(Run(s, Init(ops)), Last(ops), id))
  }

  lemma StepLeavesPrompt(s: State, op: Op, id: nat)
    requires Wf(s) && id in s.prompts && LeavesPrompt(s, op, id)
    ensures id in Step(s, op).prompts && SameChunks(Step(s, op).prompts[id], s.prompts[id], s.cfg.blockSize)
  {
    if op.Rollback? {
      RollbackLeavesPrompt(s, op.seqId, op.retain, id);
    } else {
      StepKeepsPrompt(s, op, id);
      assert s.prompts[id][..|s.prompts[id]|] == s.prompts[id];
    }
  }

  lemma RollbackLeavesPrompt(s: State, k: nat, retain: nat, id: nat)
    requires Wf(s) && id in s.prompts && LeavesPrompt(s, Rollback(k, retain), id)
    ensures var t := RollbackSequence(s, k, retain).0;
            id in t.prompts && SameChunks(t.prompts[id], s.prompts[id], s.cfg.blockSize)
  {
    assert s.prompts[id][..|s.prompts[id]|] == s.prompts[id];
    if k in s.tables {
      FreeAllKeeps(CutTable(s, k, retain), Dropped(s, k, retain));
      if k == id { TrimmedSameChunks(s.prompts[id], retain, s.cfg.blockSize); }
    }
  }

  /** Any other call that leaves the prompt alone keeps it as it is. */
  lemma StepKeepsPrompt(s: State, op: Op, id: nat)
    requires Wf(s) && id in s.prompts && LeavesPrompt(s, op, id) && !op.Rollback?
    ensures id in Step(s, op).prompts && Step(s, op).prompts[id] == s.prompts[id]
  {
    match op
    case Match(k, prompt) => TakePromptFrame(if k in s.tables then s else RegisterSequence(s, k), k, prompt);
    case Append(k, n) => if AppendProceeds(s, k, n) { AllocateManyShape(s, k, Wanted(s, k, n)); }
    case FreeSeq(k) => if k in s.tables { FreeAllKeeps(RemoveTable(s, k), s.tables[k].blockIds); }
    case _ =>
  }

  /** The full chunks that a table covers last until it is replaced, removed or rolled back into them. */
  lemma {:induction false} RunKeepsPrompt(s: State, ops: seq<Op>, id: nat)
    requires Wf(s) && id in s.prompts && RunLeavesPrompt(s, ops, id)
    ensures id in Run(s, ops).prompts && SameChunks(Run(s, ops).prompts[id], s.prompts[id], s.cfg.blockSize)
  {
    if ops == [] {
      assert s.prompts[id][..|s.prompts[id]|] == s.prompts[id];
    } else {
      var u := Run(s, Init(ops));
      RunKeepsPrompt(s, Init(ops), id);
      RunKeepsConfig(s, Init(ops));
      StepLeavesPrompt(u, Last(ops), id);
      SameChunksTwice(Step(u, Last(ops)).prompts[id], u.prompts[id], s.prompts[id], s.cfg.blockSize);
    }
  }

  lemma SameChunksTwice(r: seq<u32>, q: seq<u32>, p: seq<u32>, blockSize: nat)
    requires blockSize > 0 && SameChunks(r, q, blockSize) && SameChunks(q, p, blockSize)
    ensures SameChunks(r, p, blockSize)
  {
    assert p[..|q|][..|r|] == p[..|r|];
  }

  /** An admission records its prompt and leaves all other prompts alone. */
  lemma MatchRecords(s: State, id: nat, prompt: seq<u32>)
    requires Wf(s) && MatchOrAllocatePrefix(s, id, prompt).1.Ok?
    ensures MatchOrAllocatePrefix(s, id, prompt).0.prompts == s.prompts[id := prompt]
  {
    var s0 := if id in s.tables then s else RegisterSequence(s, id);
    TakePromptFrame(s0, id, prompt);
    PromptsPut(s.prompts, id, prompt);
  }

  lemma PromptsPut(m: map<nat, seq<u32>>, id: nat, p: seq<u32>)
    ensures (m - {id})[id := p] == m[id := p]
  {
  }

  /**
   Sharing over whole runs. After any careful calls from the empty pool admit `a`; after any further careful
   calls that do not roll `a` back below the full blocks of its prompt, admit `b`; then make any careful calls
   that do this to neither. At full chunk `i` the two tables hold the same block exactly when the two prompts
   agree on all tokens of the first i + 1 chunks.
   */
  lemma AdmittedTablesShare(cfg: Config, before: seq<Op>, a: nat, p: seq<u32>, between: seq<Op>,
                            b: nat, q: seq<u32>, after: seq<Op>, i: nat)
    requires cfg.blockSize > 0 && RunCareful(InitState(cfg), before) && a != b
    requires CurrentHits(Run(InitState(cfg), before), p)
    requires MatchOrAllocatePrefix(Run(InitState(cfg), before), a, p).1.Ok?
    requires var s := MatchOrAllocatePrefix(Run(InitState(cfg), before), a, p).0;
             && RunCareful(s, between) && a in s.prompts && RunLeavesPrompt(s, between, a)
             && CurrentHits(Run(s, between), q) && MatchOrAllocatePrefix(Run(s, between), b, q).1.Ok?
             && var t := MatchOrAllocatePrefix(Run(s, between), b, q).0;
                && RunCareful(t, after) && b in t.prompts && RunLeavesPrompt(t, after, b)
                && a in t.prompts && RunLeavesPrompt(t, after, a)
    requires i < PageOf(|p|, cfg.blockSize) && i < PageOf(|q|, cfg.blockSize)
    ensures var s := MatchOrAllocatePrefix(Run(InitState(cfg), before), a, p).0;
            var u := Run(MatchOrAllocatePrefix(Run(s, between), b, q).0, after);
            var n := TokensIn(i + 1, cfg.blockSize);
            && a in u.tables && b in u.tables && i < |u.tables[a].blockIds| && i < |u.tables[b].blockIds|
            && n <= |p| && n <= |q|
            && (u.tables[a].blockIds[i] == u.tables[b].blockIds[i] <==> p[..n] == q[..n])
  {
    var r := Run(InitState(cfg), before);
    CarefulRunsAreSound(cfg, before);
    RunKeepsConfig(InitState(cfg), before);
    AdmissionSound(r, a, p);
    var s := MatchOrAllocatePrefix(r, a, p).0;
    RunsSound(s, between);
    RunKeepsConfig(s, between);
    RunKeepsPrompt(s, between, a);
    SecondShares(Run(s, between), a, p, b, q, after, i);
  }

  lemma AdmissionSound(s: State, id: nat, prompt: seq<u32>)
    requires Wf(s) && Accounted(s) && CacheSound(s) && CurrentHits(s, prompt)
    requires MatchOrAllocatePrefix(s, id, prompt).1.Ok?
    ensures var t := MatchOrAllocatePrefix(s, id, prompt).0;
            Accounted(t) && CacheSound(t) && t.cfg == s.cfg && t.prompts == s.prompts[id := prompt]
  {
    StepSound(s, Match(id, prompt));
    StepKeepsConfig(s, Match(id, prompt));
    MatchRecords(s, id, prompt);
  }

  /** The second admission and what follows, when `a` still covers the full chunks of `p`. */
  lemma SecondShares(s: State, a: nat, p: seq<u32>, b: nat, q: seq<u32>, after: seq<Op>, i: nat)
    requires Wf(s) && Accounted(s) && CacheSound(s) && CurrentHits(s, q) && a != b
    requires a in s.prompts && SameChunks(s.prompts[a], p, s.cfg.blockSize)
    requires MatchOrAllocatePrefix(s, b, q).1.Ok?
    requires var t := MatchOrAllocatePrefix(s, b, q).0;
             && RunCareful(t, after) && b in t.prompts && RunLeavesPrompt(t, after, b)
             && a in t.prompts && RunLeavesPrompt(t, after, a)
    requires i < PageOf(|p|, s.cfg.blockSize) && i < PageOf(|q|, s.cfg.blockSize)
    ensures var u := Run(MatchOrAllocatePrefix(s, b, q).0, after);
            var n := TokensIn(i + 1, s.cfg.blockSize);
            && a in u.tables && b in u.tables && i < |u.tables[a].blockIds| && i < |u.tables[b].blockIds|
            && n <= |p| && n <= |q|
            && (u.tables[a].blockIds[i] == u.tables[b].blockIds[i] <==> p[..n] == q[..n])
  {
    AdmissionSound(s, b, q);
    SameChunksAgree(s.prompts[a], p, s.cfg.blockSize, i);
    TablesStillShare(MatchOrAllocatePrefix(s, b, q).0, a, b, after, i);
  }

  lemma TablesStillShare(s: State, a: nat, b: nat, ops: seq<Op>, i: nat)
    requires Wf(s) && Accounted(s) && CacheSound(s) && RunCareful(s, ops) && a in s.prompts && b in s.prompts
    requires RunLeavesPrompt(s, ops, a) && RunLeavesPrompt(s, ops, b)
    requires i < PageOf(|s.prompts[a]|, s.cfg.blockSize) && i < PageOf(|s.prompts[b]|, s.cfg.blockSize)
    ensures var u := Run(s, ops);
            var tokens := TokensIn(i + 1, s.cfg.blockSize);
            && a in u.tables && b in u.tables && i < |u.tables[a].blockIds| && i < |u.tables[b].blockIds|
            && tokens <= |s.prompts[a]| && tokens <= |s.prompts[b]|
            && (u.tables[a].blockIds[i] == u.tables[b].blockIds[i]
                <==> s.prompts[a][..tokens] == s.prompts[b][..tokens])
  {
    var u := Run(s, ops);
    RunsSound(s, ops);
    RunKeepsPrompt(s, ops, a);
    RunKeepsPrompt(s, ops, b);
    RunKeepsConfig(s, ops);
    SharingIsExact(u, a, b, i);
    SameChunksAgree(u.prompts[a], s.prompts[a], s.cfg.blockSize, i);
    SameChunksAgree(u.prompts[b], s.prompts[b], s.cfg.blockSize, i);
  }

  /**
   Write isolation over whole runs: after any guarded calls from the empty pool, every token position of a
   successful append lands in a block that is counted once, is in no other table and in no valid node.
   */
  lemma NewTokensAreAlone(cfg: Config, ops: seq<Op>, id: nat, n: nat, pos: nat)
    requires cfg.blockSize > 0 && RunGuarded(InitState(cfg), ops)
    requires var s := Run(InitState(cfg), ops);
             && AppendTokens(s, id, n).1.Ok? && id in s.tables
             && s.tables[id].logicalTokens <= pos < s.tables[id].logicalTokens + n
    ensures var s := Run(InitState(cfg), ops);
            Alone(AppendTokens(s, id, n).0, id, PageOf(pos, s.cfg.blockSize))
  {
    InitAccounted(cfg);
    InitSound(cfg);
    InitExclusive(cfg);
    RunsExclusive(InitState(cfg), ops);
    AppendWritesAlone(Run(InitState(cfg), ops), id, n, pos);
  }

  /**
   After such runs within the pages held, a forked sequence writes alone exactly when the fork is at a
   block boundary.
   */
  lemma ForksWriteAloneAtBoundaries(cfg: Config, ops: seq<Op>, parent: nat, child: nat, k: nat, n: nat)
    requires cfg.blockSize > 0 && RunCareful(InitState(cfg), ops) && RunWithinPages(InitState(cfg), ops)
    requires var s := Run(InitState(cfg), ops);
             && parent in s.tables && (k == parent || k == child) && n > 0
             && AppendTokens(ForkSequence(s, parent, child).0, k, n).1.Ok?
    ensures var s := Run(InitState(cfg), ops);
            && k in ForkSequence(s, parent, child).0.tables
            && (WritesAlone(ForkSequence(s, parent, child).0, k, n)
                <==> Overhang(s.tables[parent].logicalTokens, s.cfg.blockSize) == 0)
  {
    var s := Run(InitState(cfg), ops);
    CarefulRunsAreSound(cfg, ops);
    ReachableShaped(cfg, ops);
    ForkedAppendAlone(s, parent, child, k, n);
    FullAtBoundary(s, parent);
  }
}
