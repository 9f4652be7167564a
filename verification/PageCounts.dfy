/** Tables have exactly the pages their tokens need, until a rollback goes past the pages held. */
module PageCounts {
  import opened Prelude
  import opened BlockSpace
  import opened PrefixTrie
  import opened Accounting
  import opened Runs
  import opened ReferenceCounts
  import opened PrefixMatching
  import opened RollbackInverse

  /** Every table has the pages its tokens need. */
  predicate Shaped(s: State)
    requires s.cfg.blockSize > 0
  {
    forall id :: id in s.tables ==> PagesMatch(s, id)
  }

  /** The call rolls a known sequence to a length for which it does not hold the pages. */
  predicate Overreaches(s: State, op: Op)
    requires s.cfg.blockSize > 0
  {
    match op
    case Rollback(id, retain) => id in s.tables && BlocksFor(retain, s.cfg.blockSize) > |s.tables[id].blockIds|
    case _ => false
  }

  lemma MatchShaped(s: State, id: nat, prompt: seq<u32>)
    requires Wf(s) && Shaped(s)
    ensures Shaped(MatchOrAllocatePrefix(s, id, prompt).0)
  {
    var t := MatchOrAllocatePrefix(s, id, prompt).0;
    MatchPutsPages(s, id, prompt);
    StepKeepsConfig(s, Match(id, prompt));
    if t.tables != s.tables { PutShaped(s, t, id, t.tables[id]); }
  }

  /** A match leaves the tables alone or puts one with the pages its tokens need. */
  lemma MatchPutsPages(s: State, id: nat, prompt: seq<u32>)
    requires Wf(s)
    ensures var t := MatchOrAllocatePrefix(s, id, prompt).0;
            t.tables == s.tables
            || (id in t.tables && t.tables == s.tables[id := t.tables[id]]
                && |t.tables[id].blockIds| == BlocksFor(t.tables[id].logicalTokens, s.cfg.blockSize))
  {
    MatchOutcome(s, id, prompt);
    BlocksForFloor(|prompt|, s.cfg.blockSize);
  }

  lemma PutShaped(s: State, t: State, id: nat, x: PageTable)
    requires s.cfg.blockSize > 0 && t.cfg == s.cfg && Shaped(s) && t.tables == s.tables[id := x]
    requires |x.blockIds| == BlocksFor(x.logicalTokens, s.cfg.blockSize)
    ensures Shaped(t)
  {
    forall k | k in t.tables ensures PagesMatch(t, k) {
      if k != id { assert PagesMatch(s, k); }
    }
  }

  lemma AppendShaped(s: State, id: nat, n: nat)
    requires Wf(s) && Shaped(s)
    ensures Shaped(AppendTokens(s, id, n).0)
  {
    if AppendProceeds(s, id, n) {
      var w := AllocateMany(s, id, Wanted(s, id, n));
      AllocateManyShape(s, id, Wanted(s, id, n));
      FinishIs(s, id, Lengthened(s, id, n), w);
      BlocksForMonotone(s.tables[id].logicalTokens, Lengthened(s, id, n), s.cfg.blockSize);
      OthersShaped(s, FinishAppend(w, id, Lengthened(s, id, n)), id);
    }
  }

  /** Only the table of `id` has changed. */
  lemma OthersShaped(s: State, t: State, id: nat)
    requires s.cfg.blockSize > 0 && t.cfg == s.cfg && Shaped(s) && id in s.tables && id in t.tables
    requires t.tables == s.tables[id := t.tables[id]]
    ensures Shaped(t) <==> PagesMatch(t, id)
  {
    if PagesMatch(t, id) {
      forall k | k in t.tables ensures PagesMatch(t, k) {
        if k != id { assert PagesMatch(s, k); }
      }
    }
  }

  lemma RollbackShaped(s: State, id: nat, retain: nat)
    requires Wf(s) && Shaped(s)
    ensures Shaped(RollbackSequence(s, id, retain).0) <==> !Overreaches(s, Rollback(id, retain))
  {
    if id in s.tables {
      FreeAllKeeps(CutTable(s, id, retain), Dropped(s, id, retain));
      OthersShaped(s, RollbackSequence(s, id, retain).0, id);
    }
  }

  lemma FreeSequenceShaped(s: State, id: nat)
    requires Wf(s) && Shaped(s)
    ensures Shaped(FreeSequence(s, id).0)
  {
    if id in s.tables {
      var t := FreeSequence(s, id).0;
      FreeAllKeeps(RemoveTable(s, id), s.tables[id].blockIds);
      forall k | k in t.tables ensures PagesMatch(t, k) { assert PagesMatch(s, k); }
    }
  }

  lemma ForkShaped(s: State, parent: nat, child: nat)
    requires Wf(s) && Shaped(s)
    ensures Shaped(ForkSequence(s, parent, child).0)
  {
    if parent in s.tables {
      var t := ForkSequence(s, parent, child).0;
      forall k | k in t.tables ensures PagesMatch(t, k) {
        assert PagesMatch(s, if k == child then parent else k);
      }
    }
  }

  lemma RegisterShaped(s: State, id: nat)
    requires Wf(s) && Shaped(s)
    ensures Shaped(RegisterSequence(s, id))
  {
    PutShaped(s, RegisterSequence(s, id), id, PageTable(0, []));
  }

  lemma DirectShaped(s: State, op: Op)
    requires Wf(s) && Shaped(s) && (op.Allocate? || op.Free?)
    ensures Shaped(Step(s, op))
  {
    var t := Step(s, op);
    forall k | k in t.tables ensures PagesMatch(t, k) { assert PagesMatch(s, k); }
  }

  /** One call, whatever its result and whatever its hits, keeps page counts right exactly unless it overreaches. */
  lemma StepShaped(s: State, op: Op)
    requires Wf(s) && Shaped(s)
    ensures Shaped(Step(s, op)) <==> !Overreaches(s, op)
  {
    match op
    case Allocate => DirectShaped(s, op);
    case Free(b) => DirectShaped(s, op);
    case Register(id) => RegisterShaped(s, id);
    case Match(id, prompt) => MatchShaped(s, id, prompt);
    case Append(id, n) => AppendShaped(s, id, n);
    case Fork(p, c) => ForkShaped(s, p, c);
    case Rollback(id, retain) => RollbackShaped(s, id, retain);
    case FreeSeq(id) => FreeSequenceShaped(s, id);
  }

  // ----- Runs -----

  /** No call of the run rolls a sequence past the pages it holds. */
  predicate RunWithinPages(s: State, ops: seq<Op>)
    requires Wf(s)
  {
    ops == [] || (RunWithinPages(s, Init(ops)) && !Overreaches(Run(s, Init(ops)), Last(ops)))
  }

  lemma {:induction false} RunsShaped(s: State, ops: seq<Op>)
    requires Wf(s) && Shaped(s) && RunWithinPages(s, ops)
    ensures Shaped(Run(s, ops))
  {
    if ops == [] {
    } else {
      RunsShaped(s, Init(ops));
      StepShaped(Run(s, Init(ops)), Last(ops));
    }
  }

  /** After any such run from the empty pool, failed calls and stale hits included, all page counts are right. */
  lemma ReachableShaped(cfg: Config, ops: seq<Op>)
    requires cfg.blockSize > 0 && RunWithinPages(InitState(cfg), ops)
    ensures Shaped(Run(InitState(cfg), ops))
  {
    RunsShaped(InitState(cfg), ops);
  }

  /**
   Append and rollback are exact inverses in every state that disciplined calls reach without rolling a
   sequence past its pages.
   */
  lemma RunsUndoAppends(cfg: Config, ops: seq<Op>, id: nat, n: nat)
    requires cfg.blockSize > 0
    requires RunDisciplined(InitState(cfg), ops) && RunWithinPages(InitState(cfg), ops)
    requires AppendTokens(Run(InitState(cfg), ops), id, n).1.Ok? && id in Run(InitState(cfg), ops).tables
    ensures var s := Run(InitState(cfg), ops);
            SameProgram(s, RollbackSequence(AppendTokens(s, id, n).0, id, s.tables[id].logicalTokens).0)
  {
    var s := Run(InitState(cfg), ops);
    InitAccounted(cfg);
    RunsAccounted(InitState(cfg), ops);
    ReachableShaped(cfg, ops);
    assert PagesMatch(s, id);
    AppendThenRollbackAccounted(s, id, n);
  }
}
