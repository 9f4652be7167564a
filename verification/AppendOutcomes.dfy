/** What an append returns and leaves, and which calls bring a table over the page limit. */
module AppendOutcomes {
  import opened Prelude
  import opened BlockSpace
  import opened PrefixTrie
  import opened PrefixMatching
  import opened Runs
  import opened ReferenceCounts
  import opened RollbackInverse
  import opened PageCounts

  /** So many more pages are the least with which `held` pages offer room for the tokens. */
  predicate LeastMore(held: nat, more: nat, tokens: nat, blockSize: nat) {
    && tokens <= (held + more) * blockSize
    && (more > 0 ==> (held + more - 1) * blockSize < tokens)
  }

  lemma WantedIsLeast(s: State, id: nat, n: nat, more: nat)
    requires s.cfg.blockSize > 0 && id in s.tables
    ensures LeastMore(|s.tables[id].blockIds|, more, s.tables[id].logicalTokens + n, s.cfg.blockSize)
            <==> more == Wanted(s, id, n)
  {
    var held, tokens := |s.tables[id].blockIds|, Lengthened(s, id, n);
    BlocksForIsCeiling(tokens, s.cfg.blockSize, held + more);
    if more > 0 { BlocksForIsCeiling(tokens, s.cfg.blockSize, held + more - 1); }
  }

  /** The tokens do not fit the pages a sequence may have. */
  predicate OverLimit(cfg: Config, tokens: nat) {
    tokens > cfg.maxBlocksPerSeq * cfg.blockSize
  }

  lemma LimitIsPages(cfg: Config, tokens: nat)
    requires cfg.blockSize > 0
    ensures OverLimit(cfg, tokens) <==> BlocksFor(tokens, cfg.blockSize) > cfg.maxBlocksPerSeq
  {
    BlocksForIsCeiling(tokens, cfg.blockSize, cfg.maxBlocksPerSeq);
  }

  /** An append is refused exactly when it would bring a known sequence over the page limit; then it changes nothing. */
  lemma AppendRefused(s: State, id: nat, n: nat)
    requires Wf(s)
    ensures var (t, r) := AppendTokens(s, id, n);
            && (r == Err(SequenceNotFound(id)) <==> id !in s.tables)
            && (r == Err(CapacityExceeded) <==> id in s.tables && OverLimit(s.cfg, s.tables[id].logicalTokens + n))
            && (r == Err(SequenceNotFound(id)) || r == Err(CapacityExceeded) ==> t == s)
  {
    if id in s.tables { LimitIsPages(s.cfg, Lengthened(s, id, n)); }
  }

  /**
   An append within the limit takes the least number of pages that make room, from the top of the stack and
   in order, or all that there are. Only its own table changes, and only on success.
   */
  lemma AppendOutcome(s: State, id: nat, n: nat, more: nat)
    requires Wf(s) && id in s.tables && !OverLimit(s.cfg, s.tables[id].logicalTokens + n)
    requires LeastMore(|s.tables[id].blockIds|, more, s.tables[id].logicalTokens + n, s.cfg.blockSize)
    ensures var (t, r) := AppendTokens(s, id, n);
            && r == (if more <= |s.freeStack| then Ok(()) else Err(OutOfMemory))
            && t.freeStack == s.freeStack[..|s.freeStack| - Min(more, |s.freeStack|)]
            && t.tables == (if more <= |s.freeStack| then
                              s.tables[id := PageTable(s.tables[id].logicalTokens + n,
                                                       s.tables[id].blockIds + Top(s.freeStack, more))]
                            else s.tables)
            && t.nodes == s.nodes && t.cfg == s.cfg
    ensures var t := AppendTokens(s, id, n).0;
            && |t.blocks| == |s.blocks|
            && (forall b :: 0 <= b < |s.blocks| ==>
                  t.blocks[b] == if b in Top(s.freeStack, Min(more, |s.freeStack|))
                                 then PhysicalBlock(1, false, Some(id), false, false) else s.blocks[b])
  {
    LimitIsPages(s.cfg, Lengthened(s, id, n));
    WantedIsLeast(s, id, n, more);
    AllocateManyShape(s, id, more);
    AllocateManyBlocks(s, id, more);
  }

  // ----- Which calls bring a table over the limit -----

  predicate TableOver(s: State, id: nat) {
    id in s.tables && OverLimit(s.cfg, s.tables[id].logicalTokens)
  }

  /** Is `id` over the limit after this call? An append never brings it there. */
  predicate OverAfter(s: State, op: Op, id: nat)
    requires Wf(s)
  {
    match op
    case Allocate => TableOver(s, id)
    case Free(_) => TableOver(s, id)
    case Register(k) => k != id && TableOver(s, id)
    case Match(k, prompt) =>
      if k == id && Shortfall(s, prompt) <= |s.freeStack| then OverLimit(s.cfg, |prompt|) else TableOver(s, id)
    case Append(_, _) => TableOver(s, id)
    case Fork(p, c) => if c == id && p in s.tables then TableOver(s, p) else TableOver(s, id)
    case Rollback(k, retain) => if k == id then id in s.tables && OverLimit(s.cfg, retain) else TableOver(s, id)
    case FreeSeq(k) => k != id && TableOver(s, id)
  }

  lemma StepOver(s: State, op: Op, id: nat)
    requires Wf(s)
    ensures TableOver(Step(s, op), id) <==> OverAfter(s, op, id)
  {
    match op
    case Match(k, prompt) => MatchOver(s, k, prompt, id);
    case Append(k, n) => AppendOver(s, k, n, id);
    case Rollback(_, _) => ReleaseOver(s, op, id);
    case FreeSeq(_) => ReleaseOver(s, op, id);
    case _ => PlainOver(s, op, id);
  }

  lemma PlainOver(s: State, op: Op, id: nat)
    requires Wf(s) && (op.Allocate? || op.Free? || op.Register? || op.Fork?)
    ensures TableOver(Step(s, op), id) <==> OverAfter(s, op, id)
  {
    LimitIsPages(s.cfg, 0);
  }

  lemma ReleaseOver(s: State, op: Op, id: nat)
    requires Wf(s) && (op.Rollback? || op.FreeSeq?)
    ensures TableOver(Step(s, op), id) <==> OverAfter(s, op, id)
  {
    StepKeepsConfig(s, op);
    match op
    case Rollback(k, retain) =>
      if k in s.tables { FreeAllKeepsTables(CutTable(s, k, retain), Dropped(s, k, retain)); }
    case FreeSeq(k) => if k in s.tables { FreeAllKeepsTables(RemoveTable(s, k), s.tables[k].blockIds); }
  }

  lemma MatchOver(s: State, k: nat, prompt: seq<u32>, id: nat)
    requires Wf(s)
    ensures TableOver(MatchOrAllocatePrefix(s, k, prompt).0, id) <==> OverAfter(s, Match(k, prompt), id)
  {
    StepKeepsConfig(s, Match(k, prompt));
    MatchOutcome(s, k, prompt);
    LimitIsPages(s.cfg, 0);
  }

  lemma AppendOver(s: State, k: nat, n: nat, id: nat)
    requires Wf(s)
    ensures TableOver(AppendTokens(s, k, n).0, id) <==> TableOver(s, id)
  {
    AppendRefused(s, k, n);
    if k in s.tables && !OverLimit(s.cfg, s.tables[k].logicalTokens + n) {
      WantedIsLeast(s, k, n, Wanted(s, k, n));
      AppendOutcome(s, k, n, Wanted(s, k, n));
    }
  }

  /** The call asks for no more tokens than the limit allows: a long prompt, or a rollback to a long length. */
  predicate AsksWithin(cfg: Config, op: Op) {
    match op
    case Match(_, prompt) => !OverLimit(cfg, |prompt|)
    case Rollback(_, retain) => !OverLimit(cfg, retain)
    case _ => true
  }

  /**
   The page limit over runs: whatever is appended and forked, with whatever results, no table exceeds the
   limit unless an admission or a rollback named a length that does.
   */
  lemma {:induction false} RunsKeepLimit(cfg: Config, ops: seq<Op>, id: nat)
    requires cfg.blockSize > 0 && forall i :: 0 <= i < |ops| ==> AsksWithin(cfg, ops[i])
    ensures !TableOver(Run(InitState(cfg), ops), id)
  {
    if ops == [] {
    } else {
      var s := Run(InitState(cfg), Init(ops));
      RunsKeepLimit(cfg, Init(ops), id);
      if Last(ops).Fork? { RunsKeepLimit(cfg, Init(ops), Last(ops).parent); }
      RunKeepsConfig(InitState(cfg), Init(ops));
      LimitIsPages(cfg, 0);
      StepOver(s, Last(ops), id);
      assert AsksWithin(cfg, Last(ops));
    }
  }
}
