/** No table lists a block twice, as long as prefix hits land on valid nodes. */
module DistinctPages {
  import opened Prelude
  import opened BlockSpace
  import opened PrefixTrie
  import opened Accounting
  import opened Runs
  import opened PrefixSharing
  import opened SharingRuns
  import opened MatchSound
  import opened PrefixMatching
  import opened RollbackInverse

  ghost predicate NoRepeats(tables: map<nat, PageTable>) {
    forall id :: id in tables ==> Distinct(tables[id].blockIds)
  }

  /** Blocks taken from the free stack are distinct, and none of them is in a list that is counted. */
  lemma FreshTail(s: State, l: seq<nat>, x: nat)
    requires PoolOk(s) && Distinct(l) && x <= |s.freeStack|
    requires forall b :: b in l ==> b !in s.freeStack
    ensures Distinct(l + Top(s.freeStack, x))
  {
    assert forall b :: b in Top(s.freeStack, x) ==> b in s.freeStack;
    var r := l + Top(s.freeStack, x);
    forall i, j | 0 <= i < j < |r| ensures r[i] != r[j] {
      if j < |l| {
        assert l[i] != l[j];
      } else if i < |l| {
        assert r[i] in l && r[j] in Top(s.freeStack, x);
      } else {
        assert r[i] == s.freeStack[|s.freeStack| - 1 - (i - |l|)] && r[j] == s.freeStack[|s.freeStack| - 1 - (j - |l|)];
      }
    }
  }

  /** Counted blocks are not on the free stack. */
  lemma CountedNotFree(s: State, l: seq<nat>)
    requires PoolOk(s) && Accounted(s) && multiset(l) <= Held(s)
    ensures forall b :: b in l ==> b !in s.freeStack
  {
    forall b | b in l ensures b !in s.freeStack {
      assert multiset(l)[b] > 0;
      assert b in Held(s);
    }
  }

  // ----- Admission -----

  /** The blocks along a path of valid nodes are distinct. */
  lemma PathBlocksDistinct(s: State, path: Path)
    requires Wf(s) && Distinguished(s) && Find(s.nodes, path).Some?
    requires forall n :: n in NodesOn(s.nodes, path) ==> n in s.valid
    ensures Distinct(BlocksOn(s.nodes, path))
  {
    var l := BlocksOn(s.nodes, path);
    forall i, j | 0 <= i < j < |l| ensures l[i] != l[j] {
      NodeAt(s, path, i);
      NodeAt(s, path, j);
      if l[i] == l[j] { FindIsInjective(s.nodes, s.parents, |s.blocks|, path[..i + 1], path[..j + 1]); }
    }
  }

  lemma NodeAt(s: State, path: Path, i: nat)
    requires Wf(s) && Find(s.nodes, path).Some? && i < |path|
    requires forall n :: n in NodesOn(s.nodes, path) ==> n in s.valid
    ensures var n := Find(s.nodes, path[..i + 1]);
            n.Some? && n.value in s.valid && BlocksOn(s.nodes, path)[i] == BlockOf(s.nodes, n.value)
  {
    OnPathAt(s.nodes, path, i);
    FindPrefixClosed(s.nodes, path, i + 1);
    FindInRange(s.nodes, s.parents, |s.blocks|, path[..i + 1]);
    assert NodesOn(s.nodes, path)[i] in NodesOn(s.nodes, path);
  }

  lemma MatchNoRepeats(s: State, id: nat, prompt: seq<u32>)
    requires Wf(s) && Accounted(s) && CacheSound(s) && ValidHits(s, prompt) && NoRepeats(s.tables)
    ensures NoRepeats(MatchOrAllocatePrefix(s, id, prompt).0.tables)
  {
    MatchOutcome(s, id, prompt);
    HitsDistinct(s, prompt);
    if Shortfall(s, prompt) <= |s.freeStack| { FreshTail(s, HitBlocks(s, prompt), Shortfall(s, prompt)); }
  }

  lemma HitsDistinct(s: State, prompt: seq<u32>)
    requires Wf(s) && Accounted(s) && CacheSound(s) && ValidHits(s, prompt)
    ensures Distinct(HitBlocks(s, prompt))
    ensures forall b :: b in HitBlocks(s, prompt) ==> b !in s.freeStack
  {
    var hp := HitPath(s.nodes, Chunks(prompt, s.cfg.blockSize));
    CachedPrefixIsLongest(s.nodes, Chunks(prompt, s.cfg.blockSize), |hp|);
    PathBlocksDistinct(s, hp);
    ValidHitsAreLive(s, prompt);
  }

  // ----- The other calls -----

  lemma AppendNoRepeats(s: State, id: nat, n: nat)
    requires Wf(s) && Accounted(s) && NoRepeats(s.tables)
    ensures NoRepeats(AppendTokens(s, id, n).0.tables)
  {
    if AppendProceeds(s, id, n) {
      var k := Wanted(s, id, n);
      AllocateManyShape(s, id, k);
      TableCounts(s.tables, id);
      HeldIncludesTables(s, s.tables[id].blockIds);
      CountedNotFree(s, s.tables[id].blockIds);
      FreshTail(s, s.tables[id].blockIds, Min(k, |s.freeStack|));
    }
  }

  lemma HeldIncludesTables(s: State, l: seq<nat>)
    requires multiset(l) <= TableRefs(s.tables)
    ensures multiset(l) <= Held(s)
  {
  }

  lemma RollbackNoRepeats(s: State, id: nat, retain: nat)
    requires Wf(s) && NoRepeats(s.tables)
    ensures NoRepeats(RollbackSequence(s, id, retain).0.tables)
  {
    if id in s.tables { FreeAllKeeps(CutTable(s, id, retain), Dropped(s, id, retain)); }
  }

  lemma FreeSequenceNoRepeats(s: State, id: nat)
    requires Wf(s) && NoRepeats(s.tables)
    ensures NoRepeats(FreeSequence(s, id).0.tables)
  {
    if id in s.tables { FreeAllKeeps(RemoveTable(s, id), s.tables[id].blockIds); }
  }

  lemma StepNoRepeats(s: State, op: Op)
    requires Wf(s) && Accounted(s) && CacheSound(s) && Careful(s, op) && NoRepeats(s.tables)
    ensures NoRepeats(Step(s, op).tables)
  {
    match op
    case Match(id, prompt) => ValidHitsIffCurrent(s, prompt); MatchNoRepeats(s, id, prompt);
    case Append(id, n) => AppendNoRepeats(s, id, n);
    case Rollback(id, retain) => RollbackNoRepeats(s, id, retain);
    case FreeSeq(id) => FreeSequenceNoRepeats(s, id);
    case _ =>
  }

  /** Careful runs keep the books, a sound cache, and tables without repetition. */
  lemma {:induction false} CarefulRuns(s: State, ops: seq<Op>)
    requires Wf(s) && Accounted(s) && CacheSound(s) && NoRepeats(s.tables) && RunCareful(s, ops)
    ensures Accounted(Run(s, ops)) && CacheSound(Run(s, ops)) && NoRepeats(Run(s, ops).tables)
  {
    if ops == [] {
    } else {
      CarefulRuns(s, Init(ops));
      StepSound(Run(s, Init(ops)), Last(ops));
      StepNoRepeats(Run(s, Init(ops)), Last(ops));
    }
  }

  /** From the start. */
  lemma CarefulRunsAreSound(cfg: Config, ops: seq<Op>)
    requires cfg.blockSize > 0 && RunCareful(InitState(cfg), ops)
    ensures var s := Run(InitState(cfg), ops);
            Accounted(s) && CacheSound(s) && NoRepeats(s.tables)
  {
    InitAccounted(cfg);
    InitSound(cfg);
    CarefulRuns(InitState(cfg), ops);
  }
}
