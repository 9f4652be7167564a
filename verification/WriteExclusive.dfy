/**
 Writing without copying: the block that receives a sequence's next token is that sequence's alone, as
 long as forks happen at block boundaries and rollbacks do not cut into a shared block.
 */
module WriteExclusive {
  import opened Prelude
  import opened BlockSpace
  import opened PrefixTrie
  import opened Accounting
  import opened Runs
  import opened PrefixSharing
  import opened SharingRuns
  import opened MatchSound

  /** A block with one reference and no trie node. */
  predicate Private(block: PhysicalBlock) {
    block.refCount == 1 && !block.isPrefixCached
  }

  /** No block of the list from page `from` on is shared or cached. */
  ghost predicate TailPrivate(blocks: seq<PhysicalBlock>, l: seq<nat>, from: nat) {
    forall i :: from <= i < |l| ==> l[i] < |blocks| && Private(blocks[l[i]])
  }

  /** Every page the table holds from its next token on is private. */
  ghost predicate TableOk(s: State, t: PageTable)
    requires s.cfg.blockSize > 0
  {
    TailPrivate(s.blocks, t.blockIds, PageOf(t.logicalTokens, s.cfg.blockSize))
  }

  ghost predicate Exclusive(s: State) {
    s.cfg.blockSize > 0 && forall id :: id in s.tables ==> TableOk(s, s.tables[id])
  }

  /** The calls that keep it so. */
  predicate Guarded(s: State, op: Op)
    requires Wf(s)
  {
    match op
    case Fork(p, c) => p in s.tables ==> FullTable(s, p)
    case Rollback(id, retain) => id in s.tables ==> SafeCut(s, id, retain)
    case _ => true
  }

  /** The table holds no page for its next token; with as many pages as its tokens need: a block boundary. */
  predicate FullTable(s: State, id: nat)
    requires s.cfg.blockSize > 0 && id in s.tables
  {
    |s.tables[id].blockIds| <= PageOf(s.tables[id].logicalTokens, s.cfg.blockSize)
  }

  /** A page that the cut leaves partly filled has no reference but this table's, and is not cached. */
  predicate SafeCut(s: State, id: nat, retain: nat)
    requires s.cfg.blockSize > 0 && id in s.tables
  {
    var l := s.tables[id].blockIds;
    var page := PageOf(retain, s.cfg.blockSize);
    Overhang(retain, s.cfg.blockSize) != 0 && page < |l| ==>
      && l[page] < |s.blocks|
      && s.blocks[l[page]].refCount == 1 + multiset(Dropped(s, id, retain))[l[page]]
      && !s.blocks[l[page]].isPrefixCached
  }

  lemma InitExclusive(cfg: Config)
    requires cfg.blockSize > 0
    ensures Exclusive(InitState(cfg))
  {
  }

  // ----- Frames -----

  /** Private blocks keep their records (up to the label). */
  ghost predicate PrivateKept(s: State, t: State) {
    && |t.blocks| == |s.blocks|
    && forall b :: 0 <= b < |s.blocks| && Private(s.blocks[b]) ==> Private(t.blocks[b])
  }

  lemma ExclusiveKept(s: State, t: State, id: nat)
    requires Exclusive(s) && PrivateKept(s, t) && t.cfg == s.cfg
    requires forall k :: k in t.tables && k != id ==> k in s.tables && t.tables[k] == s.tables[k]
    requires id in t.tables ==> TableOk(t, t.tables[id])
    ensures Exclusive(t)
  {
    forall k | k in t.tables ensures TableOk(t, t.tables[k]) {
      if k != id { assert TableOk(s, s.tables[k]); }
    }
  }

  // ----- Admission -----

  /** Private blocks are neither hit nor on the free stack. */
  lemma {:induction false} WalkKeepsPrivate(s: State, id: nat, path: Path, refs: multiset<nat>)
    requires Wf(s) && AccountedFor(s, refs) && LiveOn(s, path) && FlagsOk(s)
    requires forall n :: n in NodesOn(s.nodes, HitPath(s.nodes, path)) ==> n in s.valid
    ensures PrivateKept(s, WalkChunks(s, id, path).s)
  {
    var w := WalkChunks(s, id, path);
    if Find(s.nodes, path).Some? {
      assert path[..|path|] == path;
      WalkHits(s, id, path);
      forall b | 0 <= b < |s.blocks| && b in w.held ensures s.blocks[b].isPrefixCached {
        BlocksOnNodes(s, path, b);
      }
    } else {
      TakeInit(path, CachedPrefix(s.nodes, path));
      WalkKeepsPrivate(s, id, Init(path), refs);
      var v := WalkChunks(s, id, Init(path));
      if v.ok {
        LastStep(s, id, path, v);
        WalkBalanced(s, id, Init(path), refs);
        LeafKeepsPrivate(v, id, Last(path), refs, w);
        PrivateTrans(s, v.s, w.s);
      }
    }
  }

  lemma PrivateTrans(s: State, t: State, u: State)
    requires PrivateKept(s, t) && PrivateKept(t, u)
    ensures PrivateKept(s, u)
  {
  }

  lemma LeafKeepsPrivate(w: Walk, id: nat, chunk: Chunk, refs: multiset<nat>, r: Walk)
    requires WalkOk(w) && w.ok && chunk !in w.s.nodes[w.cur].children && Balanced(w, refs)
             && r == WalkStep(w, id, chunk)
    ensures PrivateKept(w.s, r.s)
  {
    if w.s.freeStack == [] {
      OutOfBlocks(w, id, chunk);
    } else {
      LeafBlocks(w, id, chunk);
      assert Last(w.s.freeStack) in w.s.freeStack;
    }
  }

  lemma TakeKeepsPrivate(w: Walk, id: nat, refs: multiset<nat>, r: Walk)
    requires WalkOk(w) && w.ok && Balanced(w, refs) && r == TakeBlock(w, id)
    ensures PrivateKept(w.s, r.s)
    ensures r.ok ==> r.held != [] && Last(r.held) < |r.s.blocks| && Private(r.s.blocks[Last(r.held)])
  {
    TakeRecords(w, id);
    if w.s.freeStack != [] {
      assert Last(w.s.freeStack) in w.s.freeStack;
    }
  }

  lemma ChunksKeepPrivate(s: State, id: nat, prompt: seq<u32>, w: Walk)
    requires Wf(s) && Accounted(s) && ValidOk(s, Held(s)) && ValidHits(s, prompt)
    requires w == WalkChunks(s, id, Chunks(prompt, s.cfg.blockSize))
    ensures PrivateKept(s, w.s) && Balanced(w, Held(s))
    ensures w.ok ==> |w.held| == PageOf(|prompt|, s.cfg.blockSize)
  {
    var cs := Chunks(prompt, s.cfg.blockSize);
    ValidHitsAreLive(s, prompt);
    WalkKeepsPrivate(s, id, cs, Held(s));
    WalkBalanced(s, id, cs, Held(s));
    WalkCounts(s, id, cs);
  }

  /** What admission gives the new table. */
  lemma TakePromptExclusive(s: State, id: nat, prompt: seq<u32>)
    requires Wf(s) && Accounted(s) && ValidOk(s, Held(s)) && ValidHits(s, prompt)
    ensures var w := TakePrompt(s, id, prompt);
            && PrivateKept(s, w.s)
            && (w.ok ==> TableOk(w.s, PageTable(|prompt|, w.held)))
  {
    var w := WalkChunks(s, id, Chunks(prompt, s.cfg.blockSize));
    ChunksKeepPrivate(s, id, prompt, w);
    RemainderExclusive(s, id, |prompt|, Held(s), w, TakePrompt(s, id, prompt));
  }

  lemma RemainderExclusive(s: State, id: nat, tokens: nat, refs: multiset<nat>, w: Walk, r: Walk)
    requires WalkOk(w) && Balanced(w, refs) && PrivateKept(s, w.s)
    requires w.ok ==> |w.held| == PageOf(tokens, w.s.cfg.blockSize)
    requires r == if !w.ok || Overhang(tokens, w.s.cfg.blockSize) == 0 then w else TakeBlock(w, id)
    ensures PrivateKept(s, r.s)
    ensures r.ok ==> TableOk(r.s, PageTable(tokens, r.held))
  {
    if w.ok && Overhang(tokens, w.s.cfg.blockSize) != 0 {
      TakeKeepsPrivate(w, id, refs, r);
      TakeShape(w, id);
      PrivateTrans(s, w.s, r.s);
    }
  }

  lemma RegisterExclusive(s: State, id: nat)
    requires Wf(s) && Exclusive(s)
    ensures Exclusive(RegisterSequence(s, id))
  {
    ExclusiveKept(s, RegisterSequence(s, id), id);
  }

  lemma AdmitExclusive(s: State, id: nat, prompt: seq<u32>, t: State)
    requires Wf(s) && Accounted(s) && CacheSound(s) && Exclusive(s) && ValidHits(s, prompt)
    requires var w := TakePrompt(s, id, prompt);
             t == if w.ok then PutTable(w.s, id, PageTable(|prompt|, w.held), Some(prompt)) else Leak(w)
    ensures Exclusive(t)
  {
    TakePromptExclusive(s, id, prompt);
    TakePromptFrame(s, id, prompt);
    var w := TakePrompt(s, id, prompt);
    if w.ok {
      ExclusiveKept(s, t, id);
    } else {
      AllKept(s, t);
    }
  }

  lemma AllKept(s: State, t: State)
    requires Exclusive(s) && PrivateKept(s, t) && t.cfg == s.cfg
    requires forall k :: k in t.tables ==> k in s.tables && t.tables[k] == s.tables[k]
    ensures Exclusive(t)
  {
    forall k | k in t.tables ensures TableOk(t, t.tables[k]) {
      assert TableOk(s, s.tables[k]);
    }
  }

  lemma MatchExclusive(s: State, id: nat, prompt: seq<u32>)
    requires Wf(s) && Accounted(s) && CacheSound(s) && Exclusive(s) && ValidHits(s, prompt)
    ensures Exclusive(MatchOrAllocatePrefix(s, id, prompt).0)
  {
    var s0 := if id in s.tables then s else RegisterSequence(s, id);
    RegisterSound(s, id);
    RegisterAccounted(s, id);
    RegisterExclusive(s, id);
    AdmitExclusive(s0, id, prompt, MatchOrAllocatePrefix(s, id, prompt).0);
  }

  // ----- Appending -----

  lemma AllocationsKeepPrivate(s: State, id: nat, k: nat, w: Walk)
    requires Wf(s) && Accounted(s) && w == AllocateMany(s, id, k)
    ensures PrivateKept(s, w.s)
    ensures forall b :: b in w.held ==> b < |w.s.blocks| && Private(w.s.blocks[b])
    ensures w.ok ==> |w.held| == k
  {
    AllocateManyBlocks(s, id, k);
    AllocateManyShape(s, id, k);
    TopIsFresh(s, Held(s), Min(k, |s.freeStack|));
  }

  /** Every page from the old next token on is private after an append. */
  lemma AppendTailPrivate(s: State, id: nat, n: nat, w: Walk)
    requires Exclusive(s) && AppendProceeds(s, id, n) && w.ok
    requires PrivateKept(s, w.s) && forall b :: b in w.held ==> b < |w.s.blocks| && Private(w.s.blocks[b])
    ensures TailPrivate(w.s.blocks, s.tables[id].blockIds + w.held, PageOf(s.tables[id].logicalTokens, s.cfg.blockSize))
  {
    var l := s.tables[id].blockIds;
    assert TableOk(s, s.tables[id]);
    assert forall i :: |l| <= i < |l + w.held| ==> (l + w.held)[i] in w.held;
  }

  lemma AppendExclusive(s: State, id: nat, n: nat)
    requires Wf(s) && Accounted(s) && Exclusive(s)
    ensures Exclusive(AppendTokens(s, id, n).0)
  {
    if AppendProceeds(s, id, n) {
      var w := AllocateMany(s, id, Wanted(s, id, n));
      AllocationsKeepPrivate(s, id, Wanted(s, id, n), w);
      FinishIs(s, id, Lengthened(s, id, n), w);
      FinishExclusive(s, id, n, w, FinishAppend(w, id, Lengthened(s, id, n)));
    }
  }

  lemma FinishExclusive(s: State, id: nat, n: nat, w: Walk, t: State)
    requires Exclusive(s) && AppendProceeds(s, id, n)
    requires PrivateKept(s, w.s) && forall b :: b in w.held ==> b < |w.s.blocks| && Private(w.s.blocks[b])
    requires t.blocks == w.s.blocks && t.cfg == s.cfg
    requires t.tables == if w.ok then s.tables[id := PageTable(Lengthened(s, id, n), s.tables[id].blockIds + w.held)]
             else s.tables
    ensures Exclusive(t)
  {
    if w.ok {
      AppendTailPrivate(s, id, n, w);
      FloorMonotone(s.tables[id].logicalTokens, Lengthened(s, id, n), s.cfg.blockSize);
      assert PageOf(s.tables[id].logicalTokens, s.cfg.blockSize) <= PageOf(Lengthened(s, id, n), s.cfg.blockSize);
      ExclusiveKept(s, t, id);
    } else {
      AllKept(s, t);
    }
  }

  // ----- Forking -----

  lemma TwoTablesCount(tables: map<nat, PageTable>, a: nat, b: nat, x: nat)
    requires a in tables && b in tables && a != b && x in tables[a].blockIds && x in tables[b].blockIds
    ensures TableRefs(tables)[x] >= 2
  {
    TableRefsRemove(tables, a);
    TableRefsRemove(tables - {a}, b);
    assert multiset(tables[a].blockIds)[x] > 0 && multiset(tables[b].blockIds)[x] > 0;
  }

  lemma ForkExclusive(s: State, parent: nat, child: nat)
    requires Wf(s) && Accounted(s) && Exclusive(s)
    ensures Exclusive(ForkSequence(s, parent, child).0) <==> Guarded(s, Fork(parent, child))
  {
    if parent in s.tables {
      var p := s.tables[parent];
      var t := ForkSequence(s, parent, child).0;
      if FullTable(s, parent) {
        forall k | k in t.tables ensures TableOk(t, t.tables[k]) {
          if k != child && k != parent { OtherTailKept(s, t, parent, k); }
        }
      } else {
        ForkShares(s, parent, child, PageOf(p.logicalTokens, s.cfg.blockSize));
        assert t.tables[child] == p;
        assert !TableOk(t, t.tables[child]);
      }
    }
  }

  /** After a fork no page of parent or child is private. */
  lemma ForkShares(s: State, parent: nat, child: nat, i: nat)
    requires Wf(s) && Accounted(s) && parent in s.tables && i < |s.tables[parent].blockIds|
    ensures var t := ForkSequence(s, parent, child).0;
            var b := s.tables[parent].blockIds[i];
            && parent in t.tables && child in t.tables && t.tables[parent] == t.tables[child] == s.tables[parent]
            && b < |t.blocks| && t.blocks[b].refCount > 1
  {
    var l := s.tables[parent].blockIds;
    ShareCounts(s.blocks, l);
    TableCounts(s.tables, parent);
    assert multiset(l)[l[i]] > 0;
    assert multiset(l)[l[i]] <= Held(s)[l[i]];
  }

  lemma OtherTailKept(s: State, t: State, parent: nat, k: nat)
    requires Wf(s) && Accounted(s) && Exclusive(s) && parent in s.tables && k in s.tables && k != parent
    requires t.cfg == s.cfg && t.blocks == Share(s.blocks, s.tables[parent].blockIds)
    ensures TableOk(t, s.tables[k])
  {
    var x, l := s.tables[k], s.tables[parent].blockIds;
    ShareCounts(s.blocks, l);
    assert TableOk(s, x);
    forall i | PageOf(x.logicalTokens, s.cfg.blockSize) <= i < |x.blockIds|
      ensures x.blockIds[i] < |t.blocks| && Private(t.blocks[x.blockIds[i]])
    {
      if x.blockIds[i] in l { TwoTablesCount(s.tables, k, parent, x.blockIds[i]); }
      assert multiset(l)[x.blockIds[i]] == 0;
    }
  }

  // ----- Giving back -----

  /** A private block of a surviving table is not among the dropped ones. */
  lemma SurvivorKept(s: State, c: State, t: State, l: seq<nat>, k: nat)
    requires Accounted(s) && Released(c, t, l, Held(c)) && c.blocks == s.blocks && c.cfg == s.cfg
             && Held(c) + multiset(l) == Held(s)
    requires s.cfg.blockSize > 0 && k in c.tables && TableOk(s, c.tables[k])
    ensures TableOk(t, c.tables[k])
  {
    var x := c.tables[k];
    TableCounts(c.tables, k);
    forall i | PageOf(x.logicalTokens, s.cfg.blockSize) <= i < |x.blockIds|
      ensures x.blockIds[i] < |t.blocks| && Private(t.blocks[x.blockIds[i]])
    {
      SurvivingBlock(s, c, t, l, x.blockIds, x.blockIds[i]);
    }
  }

  lemma SurvivingBlock(s: State, c: State, t: State, l: seq<nat>, x: seq<nat>, b: nat)
    requires Accounted(s) && Released(c, t, l, Held(c)) && c.blocks == s.blocks && Held(c) + multiset(l) == Held(s)
    requires multiset(x) <= Held(c) && b in x && b < |s.blocks| && Private(s.blocks[b])
    ensures b < |t.blocks| && Private(t.blocks[b])
  {
    assert multiset(x)[b] > 0;
    assert Held(s)[b] == Held(c)[b] + multiset(l)[b];
    assert multiset(l)[b] == 0;
  }

  lemma ReleaseExclusive(s: State, c: State, t: State, l: seq<nat>, id: nat)
    requires Accounted(s) && Exclusive(s) && Released(c, t, l, Held(c))
    requires c.blocks == s.blocks && c.cfg == s.cfg && Held(c) + multiset(l) == Held(s)
    requires forall k :: k in c.tables && k != id ==> k in s.tables && c.tables[k] == s.tables[k]
    requires id in c.tables ==> TableOk(t, c.tables[id])
    ensures Exclusive(t)
  {
    forall k | k in t.tables ensures TableOk(t, t.tables[k]) {
      if k != id {
        assert TableOk(s, s.tables[k]);
        SurvivorKept(s, c, t, l, k);
      }
    }
  }

  /** A kept block is private after the release exactly when all its other references are dropped. */
  lemma KeptBlock(s: State, c: State, t: State, l: seq<nat>, kept: seq<nat>, b: nat)
    requires Accounted(s) && Released(c, t, l, Held(c)) && c.blocks == s.blocks && Held(c) + multiset(l) == Held(s)
    requires multiset(kept) <= Held(c) && b in kept && b < |s.blocks|
    ensures Private(t.blocks[b]) <==> s.blocks[b].refCount == 1 + multiset(l)[b] && !s.blocks[b].isPrefixCached
  {
    assert multiset(kept)[b] > 0;
    assert multiset(l)[b] > 0 <==> b in l;
    assert Held(s)[b] == Held(c)[b] + multiset(l)[b];
  }

  /** The cut table's tail is private after a rollback exactly when the cut is safe. */
  lemma CutTableOk(s: State, id: nat, retain: nat, c: State, t: State)
    requires Wf(s) && Accounted(s) && id in s.tables && c == CutTable(s, id, retain)
    requires Released(c, t, Dropped(s, id, retain), Held(c)) && Held(c) + multiset(Dropped(s, id, retain)) == Held(s)
    ensures |t.tables[id].blockIds| <= PageOf(retain, s.cfg.blockSize) + 1
    ensures TableOk(t, t.tables[id]) <==> SafeCut(s, id, retain)
  {
    var l, kept := s.tables[id].blockIds, c.tables[id].blockIds;
    var page := PageOf(retain, s.cfg.blockSize);
    BlocksForFloor(retain, s.cfg.blockSize);
    assert page < |kept| <==> Overhang(retain, s.cfg.blockSize) != 0 && page < |l|;
    OnePageTail(t.blocks, kept, page);
    if page < |kept| { CutPage(s, id, retain, c, t, page); }
  }

  lemma CutPage(s: State, id: nat, retain: nat, c: State, t: State, page: nat)
    requires Wf(s) && Accounted(s) && id in s.tables && c == CutTable(s, id, retain) && page < |c.tables[id].blockIds|
    requires Released(c, t, Dropped(s, id, retain), Held(c)) && Held(c) + multiset(Dropped(s, id, retain)) == Held(s)
    ensures var b := s.tables[id].blockIds[page];
            && c.tables[id].blockIds[page] == b && b < |s.blocks| == |t.blocks|
            && (Private(t.blocks[b])
                <==> s.blocks[b].refCount == 1 + multiset(Dropped(s, id, retain))[b] && !s.blocks[b].isPrefixCached)
  {
    var kept := c.tables[id].blockIds;
    TableCounts(c.tables, id);
    assert kept[page] == s.tables[id].blockIds[page] && kept[page] in kept;
    KeptBlock(s, c, t, Dropped(s, id, retain), kept, kept[page]);
  }

  lemma OnePageTail(blocks: seq<PhysicalBlock>, l: seq<nat>, page: nat)
    requires |l| <= page + 1
    ensures TailPrivate(blocks, l, page) <==> (page < |l| ==> l[page] < |blocks| && Private(blocks[l[page]]))
  {
  }

  lemma RollbackExclusive(s: State, id: nat, retain: nat)
    requires Wf(s) && Accounted(s) && Exclusive(s)
    ensures Exclusive(RollbackSequence(s, id, retain).0) <==> Guarded(s, Rollback(id, retain))
  {
    if id in s.tables {
      RollbackAccounted(s, id, retain);
      CutTableHeld(s, id, retain);
      var c, t := CutTable(s, id, retain), RollbackSequence(s, id, retain).0;
      CutTableOk(s, id, retain, c, t);
      if SafeCut(s, id, retain) {
        ReleaseExclusive(s, c, t, Dropped(s, id, retain), id);
      } else {
        assert id in t.tables && !TableOk(t, t.tables[id]);
      }
    }
  }

  lemma FreeSequenceExclusive(s: State, id: nat)
    requires Wf(s) && Accounted(s) && Exclusive(s)
    ensures Exclusive(FreeSequence(s, id).0)
  {
    if id in s.tables {
      FreeSequenceAccounted(s, id);
      RemoveTableHeld(s, id);
      ReleaseExclusive(s, RemoveTable(s, id), FreeSequence(s, id).0, s.tables[id].blockIds, id);
    }
  }

  lemma DirectExclusive(s: State, op: Op)
    requires Wf(s) && Accounted(s) && Exclusive(s) && (op.Allocate? || op.Free?) && Disciplined(s, op)
    ensures Exclusive(Step(s, op))
  {
    var t := Step(s, op);
    match op
    case Allocate => if s.freeStack != [] { assert Last(s.freeStack) in s.freeStack; AllKept(s, t); }
    case Free(b) =>
      if [b] in s.loose {
        FreeTakenExclusive(s, b, t);
      } else {
        DropLooseNothing(s.loose, [b]);
      }
  }

  lemma FreeTakenExclusive(s: State, b: nat, t: State)
    requires Wf(s) && Accounted(s) && Exclusive(s) && [b] in s.loose && t == Step(s, Op.Free(b))
    ensures Exclusive(t)
  {
    DropLooseOk(s.loose, [b], |s.blocks|);
    DropLooseRefs(s.loose, [b]);
    var c := s.(loose := DropLoose(s.loose, [b]));
    assert Held(c) + multiset([b]) == Held(s);
    FreeAllAccounted(c, [b], Held(c));
    FreeOpIsFreeAll(s, c, b);
    forall k | k in t.tables ensures TableOk(t, t.tables[k]) {
      assert TableOk(s, s.tables[k]);
      SurvivorKept(s, c, t, [b], k);
    }
  }

  // ----- Steps and runs -----

  /** One careful call keeps private tails private exactly when it is guarded. */
  lemma StepExclusive(s: State, op: Op)
    requires Wf(s) && Accounted(s) && CacheSound(s) && Exclusive(s) && Careful(s, op)
    ensures Exclusive(Step(s, op)) <==> Guarded(s, op)
  {
    match op
    case Allocate => DirectExclusive(s, op);
    case Free(b) => DirectExclusive(s, op);
    case Register(id) => RegisterExclusive(s, id);
    case Match(id, prompt) => ValidHitsIffCurrent(s, prompt); MatchExclusive(s, id, prompt);
    case Append(id, n) => AppendExclusive(s, id, n);
    case Fork(p, c) => ForkExclusive(s, p, c);
    case Rollback(id, retain) => RollbackExclusive(s, id, retain);
    case FreeSeq(id) => FreeSequenceExclusive(s, id);
  }

  predicate RunGuarded(s: State, ops: seq<Op>)
    requires Wf(s)
  {
    ops == [] || (RunGuarded(s, Init(ops)) && Careful(Run(s, Init(ops)), Last(ops))
                  && Guarded(Run(s, Init(ops)), Last(ops)))
  }

  lemma {:induction false} RunsExclusive(s: State, ops: seq<Op>)
    requires Wf(s) && Accounted(s) && CacheSound(s) && Exclusive(s) && RunGuarded(s, ops)
    ensures Accounted(Run(s, ops)) && CacheSound(Run(s, ops)) && Exclusive(Run(s, ops))
  {
    if ops == [] {
    } else {
      RunsExclusive(s, Init(ops));
      StepSound(Run(s, Init(ops)), Last(ops));
      StepExclusive(Run(s, Init(ops)), Last(ops));
    }
  }

  // ----- Writing -----

  /** Page `i` of the table is counted once, is in no other table and belongs to no valid node. */
  ghost predicate Alone(s: State, id: nat, i: nat) {
    && id in s.tables && i < |s.tables[id].blockIds|
    && var b := s.tables[id].blockIds[i];
       && b < |s.blocks| && s.blocks[b].refCount == 1
       && (forall k :: k in s.tables && k != id ==> b !in s.tables[k].blockIds)
       && (forall m :: m in s.valid ==> BlockOf(s.nodes, m) != b)
  }

  /** An append of `n` tokens puts every one of them into a block of this sequence alone. */
  ghost predicate WritesAlone(s: State, id: nat, n: nat)
    requires Wf(s) && id in s.tables
  {
    PositionsAlone(AppendTokens(s, id, n).0, id, s.tables[id].logicalTokens, Lengthened(s, id, n), s.cfg.blockSize)
  }

  ghost predicate PositionsAlone(s: State, id: nat, first: nat, tokens: nat, blockSize: nat)
    requires blockSize > 0
  {
    forall pos: nat :: first <= pos < tokens ==> Alone(s, id, PageOf(pos, blockSize))
  }

  /** The page of the last token that the append writes. */
  function LastPage(s: State, id: nat, n: nat): nat
    requires s.cfg.blockSize > 0 && id in s.tables && n > 0
  {
    PageOf(Lengthened(s, id, n) - 1, s.cfg.blockSize)
  }

  lemma LastPageFits(s: State, id: nat, n: nat)
    requires s.cfg.blockSize > 0 && id in s.tables && n > 0
    ensures PageOf(s.tables[id].logicalTokens, s.cfg.blockSize) <= LastPage(s, id, n) < BlocksFor(Lengthened(s, id, n),
                                                                                                  s.cfg.blockSize)
  {
    PageOfPosition(s.tables[id].logicalTokens, Lengthened(s, id, n) - 1, Lengthened(s, id, n), s.cfg.blockSize);
  }

  /** Page `i` is private or not held yet. */
  predicate PageReady(s: State, id: nat, i: nat)
    requires id in s.tables
  {
    var l := s.tables[id].blockIds;
    i < |l| ==> l[i] < |s.blocks| && Private(s.blocks[l[i]])
  }

  /** The pages already held that the append writes to are private. */
  predicate WrittenPagesPrivate(s: State, id: nat, n: nat)
    requires Wf(s) && id in s.tables && n > 0
  {
    PagesReady(s, id, PageOf(s.tables[id].logicalTokens, s.cfg.blockSize), LastPage(s, id, n))
  }

  predicate PagesReady(s: State, id: nat, from: nat, to: nat)
    requires id in s.tables
  {
    forall i :: from <= i <= to ==> PageReady(s, id, i)
  }

  /** In a sound state a table's block is its own exactly when it is private. */
  lemma AloneIffPrivate(s: State, id: nat, i: nat)
    requires Wf(s) && Accounted(s) && CacheSound(s) && id in s.tables && i < |s.tables[id].blockIds|
    ensures s.tables[id].blockIds[i] < |s.blocks|
    ensures Alone(s, id, i) <==> Private(s.blocks[s.tables[id].blockIds[i]])
  {
    var b := s.tables[id].blockIds[i];
    forall k | k in s.tables && k != id && b in s.tables[k].blockIds ensures s.blocks[b].refCount >= 2 {
      TwoTablesCount(s.tables, id, k, b);
    }
  }

  /** What page `i` holds after a successful append: as before, or a private new block. */
  lemma PageAfterAppend(s: State, id: nat, n: nat, i: nat)
    requires Wf(s) && Accounted(s) && id in s.tables && AppendTokens(s, id, n).1.Ok?
             && i < BlocksFor(Lengthened(s, id, n), s.cfg.blockSize)
    ensures var t := AppendTokens(s, id, n).0;
            var l := s.tables[id].blockIds;
            && id in t.tables && i < |t.tables[id].blockIds| && |t.blocks| == |s.blocks|
            && t.tables[id].blockIds[i] < |t.blocks|
            && (i < |l| ==> t.tables[id].blockIds[i] == l[i] && t.blocks[l[i]] == s.blocks[l[i]])
            && (i >= |l| ==> Private(t.blocks[t.tables[id].blockIds[i]]))
  {
    var k := Wanted(s, id, n);
    AllocateManyBlocks(s, id, k);
    AllocateManyShape(s, id, k);
    TopIsFresh(s, Held(s), Min(k, |s.freeStack|));
    FinishIs(s, id, Lengthened(s, id, n), AllocateMany(s, id, k));
    HeldPage(s, id, AllocateMany(s, id, k), i);
  }

  lemma HeldPage(s: State, id: nat, w: Walk, i: nat)
    requires id in s.tables && AllBelow(s.tables[id].blockIds, |s.blocks|) && |w.s.blocks| == |s.blocks|
    requires forall b :: 0 <= b < |s.blocks| && b !in w.held ==> w.s.blocks[b] == s.blocks[b]
    requires forall b :: b in w.held ==> b < |s.blocks| && Private(w.s.blocks[b]) && Held(s)[b] == 0
    requires i < |s.tables[id].blockIds| + |w.held|
    ensures var r := s.tables[id].blockIds + w.held;
            && r[i] < |w.s.blocks|
            && (i < |s.tables[id].blockIds| ==> r[i] == s.tables[id].blockIds[i] && w.s.blocks[r[i]] == s.blocks[r[i]])
            && (i >= |s.tables[id].blockIds| ==> Private(w.s.blocks[r[i]]))
  {
    var l := s.tables[id].blockIds;
    if i < |l| {
      TableCounts(s.tables, id);
      assert multiset(l)[l[i]] > 0;
      assert multiset(l)[l[i]] <= Held(s)[l[i]];
    } else {
      assert (l + w.held)[i] in w.held;
    }
  }

  ghost predicate PagesAlone(s: State, id: nat, from: nat, to: nat) {
    forall i :: from <= i <= to ==> Alone(s, id, i)
  }

  /**
   Write exclusivity, exactly: a successful append puts all its tokens into blocks of this sequence alone
   if and only if the held pages that it writes to are private before it.
   */
  lemma AppendWritesAloneIff(s: State, id: nat, n: nat)
    requires Wf(s) && Accounted(s) && CacheSound(s) && id in s.tables && n > 0 && AppendTokens(s, id, n).1.Ok?
    ensures WritesAlone(s, id, n) <==> WrittenPagesPrivate(s, id, n)
  {
    var t := AppendTokens(s, id, n).0;
    AppendSound(s, id, n);
    AppendAccounted(s, id, n);
    LastPageFits(s, id, n);
    PagesAloneIff(s, id, n, t, PageOf(s.tables[id].logicalTokens, s.cfg.blockSize), LastPage(s, id, n));
    WritesAreOnPages(s, id, n, t);
  }

  lemma WritesAreOnPages(s: State, id: nat, n: nat, t: State)
    requires s.cfg.blockSize > 0 && id in s.tables && n > 0
    ensures PositionsAlone(t, id, s.tables[id].logicalTokens, Lengthened(s, id, n), s.cfg.blockSize)
            <==> PagesAlone(t, id, PageOf(s.tables[id].logicalTokens, s.cfg.blockSize), LastPage(s, id, n))
  {
    PositionsCoverPages(t, id, s.tables[id].logicalTokens, Lengthened(s, id, n), s.cfg.blockSize,
                        PageOf(s.tables[id].logicalTokens, s.cfg.blockSize), LastPage(s, id, n));
  }

  /** The positions of a range and their pages. */
  lemma PositionsCoverPages(t: State, id: nat, first: nat, tokens: nat, blockSize: nat, from: nat, to: nat)
    requires blockSize > 0 && first < tokens && from == PageOf(first, blockSize) && to == PageOf(tokens - 1, blockSize)
    ensures PositionsAlone(t, id, first, tokens, blockSize)
            <==> PagesAlone(t, id, from, to)
  {
    if PagesAlone(t, id, from, to) {
      forall pos: nat | first <= pos < tokens ensures Alone(t, id, PageOf(pos, blockSize)) {
        PageBetween(first, pos, tokens - 1, blockSize);
      }
    }
    if PositionsAlone(t, id, first, tokens, blockSize) {
      forall i | from <= i <= to ensures Alone(t, id, i) {
        var pos := PositionOfPage(first, tokens - 1, i, blockSize);
      }
    }
  }

  lemma PageBetween(first: nat, pos: nat, last: nat, blockSize: nat)
    requires blockSize > 0 && first <= pos <= last
    ensures PageOf(first, blockSize) <= PageOf(pos, blockSize) <= PageOf(last, blockSize)
  {
    FloorMonotone(first, pos, blockSize);
    FloorMonotone(pos, last, blockSize);
  }

  lemma PagesAloneIff(s: State, id: nat, n: nat, t: State, from: nat, to: nat)
    requires Wf(s) && Accounted(s) && id in s.tables && n > 0 && AppendTokens(s, id, n).1.Ok?
             && t == AppendTokens(s, id, n).0
    requires Accounted(t) && CacheSound(t) && to < BlocksFor(Lengthened(s, id, n), s.cfg.blockSize)
    ensures PagesAlone(t, id, from, to) <==> PagesReady(s, id, from, to)
  {
    forall i | from <= i <= to ensures Alone(t, id, i) <==> PageReady(s, id, i) {
      PageAfterAppend(s, id, n, i);
      AloneIffPrivate(t, id, i);
    }
  }

  lemma PageOfPosition(first: nat, pos: nat, tokens: nat, blockSize: nat)
    requires blockSize > 0 && first <= pos < tokens
    ensures PageOf(first, blockSize) <= PageOf(pos, blockSize) < BlocksFor(tokens, blockSize)
  {
    var q := BlocksFor(tokens, blockSize);
    FloorMonotone(first, pos, blockSize);
    BlocksForIsCeiling(tokens, blockSize, q);
    assert PageOf(pos, blockSize) * blockSize <= pos < q * blockSize;
    MulCancelsLess(PageOf(pos, blockSize), q, blockSize);
  }

  /** Every page between those of two positions has a position between them. */
  lemma PositionOfPage(first: nat, last: nat, i: nat, blockSize: nat) returns (pos: nat)
    requires blockSize > 0 && first <= last && PageOf(first, blockSize) <= i <= PageOf(last, blockSize)
    ensures first <= pos <= last && PageOf(pos, blockSize) == i
  {
    if i == PageOf(first, blockSize) {
      pos := first;
    } else {
      FirstOfPage(i, blockSize);
      pos := TokensIn(i, blockSize);
      PageStarts(last, i, blockSize);
      PageStarts(first, i, blockSize);
    }
  }

  /** Exclusive states: every successful append writes alone. */
  lemma AppendWritesAlone(s: State, id: nat, n: nat, pos: nat)
    requires Wf(s) && Accounted(s) && CacheSound(s) && Exclusive(s) && AppendTokens(s, id, n).1.Ok?
    requires id in s.tables && s.tables[id].logicalTokens <= pos < Lengthened(s, id, n)
    ensures Alone(AppendTokens(s, id, n).0, id, PageOf(pos, s.cfg.blockSize))
  {
    assert TableOk(s, s.tables[id]);
    AppendWritesAloneIff(s, id, n);
  }

  /** With at most one held page to write to, that page decides. */
  lemma OneWrittenPage(s: State, id: nat, n: nat, page: nat)
    requires Wf(s) && id in s.tables && n > 0 && page == PageOf(s.tables[id].logicalTokens, s.cfg.blockSize)
    requires |s.tables[id].blockIds| <= page + 1
    ensures WrittenPagesPrivate(s, id, n) <==> TailPrivate(s.blocks, s.tables[id].blockIds, page)
  {
    LastPageFits(s, id, n);
    if WrittenPagesPrivate(s, id, n) { assert PageReady(s, id, page); }
  }

  /** Where no page is private, an append writes alone only if it writes to no held page. */
  lemma NoPrivatePage(s: State, id: nat, n: nat)
    requires Wf(s) && id in s.tables && n > 0
    requires forall i :: 0 <= i < |s.tables[id].blockIds| ==>
               s.tables[id].blockIds[i] < |s.blocks| && !Private(s.blocks[s.tables[id].blockIds[i]])
    ensures WrittenPagesPrivate(s, id, n) <==> FullTable(s, id)
  {
    LastPageFits(s, id, n);
    if WrittenPagesPrivate(s, id, n) { assert PageReady(s, id, PageOf(s.tables[id].logicalTokens, s.cfg.blockSize)); }
  }

  /**
   After a fork, an append to parent or child writes alone exactly when the table forked had no page for
   its next token.
   */
  lemma ForkedAppendAlone(s: State, parent: nat, child: nat, k: nat, n: nat)
    requires Wf(s) && Accounted(s) && CacheSound(s) && parent in s.tables && (k == parent || k == child) && n > 0
    requires AppendTokens(ForkSequence(s, parent, child).0, k, n).1.Ok?
    ensures k in ForkSequence(s, parent, child).0.tables
    ensures WritesAlone(ForkSequence(s, parent, child).0, k, n) <==> FullTable(s, parent)
  {
    var u := ForkSequence(s, parent, child).0;
    ForkAccounted(s, parent, child);
    ForkSound(s, parent, child);
    forall i | 0 <= i < |s.tables[parent].blockIds|
      ensures s.tables[parent].blockIds[i] < |u.blocks| && !Private(u.blocks[s.tables[parent].blockIds[i]])
    {
      ForkShares(s, parent, child, i);
    }
    assert k in u.tables && u.tables[k] == s.tables[parent] && u.cfg == s.cfg;
    AppendWritesAloneIff(u, k, n);
    NoPrivatePage(u, k, n);
  }

  /** With the pages its tokens need, a table is full exactly at a block boundary. */
  lemma FullAtBoundary(s: State, id: nat)
    requires s.cfg.blockSize > 0 && id in s.tables && PagesMatch(s, id)
    ensures FullTable(s, id) <==> Overhang(s.tables[id].logicalTokens, s.cfg.blockSize) == 0
  {
    BlocksForFloor(s.tables[id].logicalTokens, s.cfg.blockSize);
  }

  /** After a rollback, an append writes alone exactly when the cut was safe. */
  lemma RolledBackAppendAlone(s: State, id: nat, retain: nat, n: nat)
    requires Wf(s) && Accounted(s) && CacheSound(s) && id in s.tables && n > 0
    requires AppendTokens(RollbackSequence(s, id, retain).0, id, n).1.Ok?
    ensures id in RollbackSequence(s, id, retain).0.tables
    ensures WritesAlone(RollbackSequence(s, id, retain).0, id, n) <==> SafeCut(s, id, retain)
  {
    var c, u := CutTable(s, id, retain), RollbackSequence(s, id, retain).0;
    RollbackAccounted(s, id, retain);
    RollbackSound(s, id, retain);
    CutTableHeld(s, id, retain);
    CutTableOk(s, id, retain, c, u);
    assert id in u.tables && u.tables[id].logicalTokens == retain && u.cfg == s.cfg;
    AppendWritesAloneIff(u, id, n);
    OneWrittenPage(u, id, n, PageOf(retain, s.cfg.blockSize));
  }
}
