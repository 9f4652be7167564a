/** Runs of manager calls: any calls, in any order, with any results. */
module Runs {
  import opened Prelude
  import opened BlockSpace
  import opened PrefixTrie
  import opened Accounting

  datatype Op =
    | Allocate
    | Free(blockId: nat)
    | Register(seqId: nat)
    | Match(seqId: nat, prompt: seq<u32>)
    | Append(seqId: nat, count: nat)
    | Fork(parent: nat, child: nat)
    | Rollback(seqId: nat, retain: nat)
    | FreeSeq(seqId: nat)

  /** Forget one list `l` if it is there. */
  function DropLoose(loose: seq<seq<nat>>, l: seq<nat>): seq<seq<nat>> {
    if loose == [] then []
    else if loose[0] == l then loose[1..]
    else [loose[0]] + DropLoose(loose[1..], l)
  }

  function Step(s: State, op: Op): (r: State)
    requires Wf(s)
    ensures Wf(r)
  {
    match op
    case Allocate =>
      var (t, r) := AllocateBlock(s);
      if r.Ok? then t.(loose := AddLoose(t.loose, [r.value])) else t
    case Free(b) =>
      var (t, r) := FreeBlock(s, b);
      DropLooseOk(s.loose, [b], |s.blocks|);
      if r.Ok? then t.(loose := DropLoose(s.loose, [b])) else t
    case Register(id) => RegisterSequence(s, id)
    case Match(id, prompt) => MatchOrAllocatePrefix(s, id, prompt).0
    case Append(id, n) => AppendTokens(s, id, n).0
    case Fork(p, c) => ForkSequence(s, p, c).0
    case Rollback(id, retain) => RollbackSequence(s, id, retain).0
    case FreeSeq(id) => FreeSequence(s, id).0
  }

  predicate Succeeds(s: State, op: Op)
    requires Wf(s)
  {
    match op
    case Allocate => AllocateBlock(s).1.Ok?
    case Free(b) => FreeBlock(s, b).1.Ok?
    case Register(id) => true
    case Match(id, prompt) => MatchOrAllocatePrefix(s, id, prompt).1.Ok?
    case Append(id, n) => AppendTokens(s, id, n).1.Ok?
    case Fork(p, c) => ForkSequence(s, p, c).1.Ok?
    case Rollback(id, retain) => RollbackSequence(s, id, retain).1.Ok?
    case FreeSeq(id) => FreeSequence(s, id).1.Ok?
  }

  function Run(s: State, ops: seq<Op>): (r: State)
    requires Wf(s)
    ensures Wf(r)
  {
    if ops == [] then s else Step(Run(s, Init(ops)), Last(ops))
  }

  lemma DropLooseOk(loose: seq<seq<nat>>, l: seq<nat>, bound: nat)
    requires forall i :: 0 <= i < |loose| ==> AllBelow(loose[i], bound)
    ensures forall i :: 0 <= i < |DropLoose(loose, l)| ==> AllBelow(DropLoose(loose, l)[i], bound)
  {
  }

  lemma {:induction false} DropLooseRefs(loose: seq<seq<nat>>, l: seq<nat>)
    ensures LooseRefs(DropLoose(loose, l)) + (if l in loose then multiset(l) else multiset{}) == LooseRefs(loose)
  {
    if loose == [] || loose[0] == l {
    } else {
      var head, tail := loose[0], loose[1..];
      DropLooseRefs(tail, l);
      assert loose == [head] + tail;
      LooseRefsFirst(head, DropLoose(tail, l));
      LooseRefsFirst(head, tail);
    }
  }

  // ----- Which calls keep the books in order -----

  /**
   The calls after which counts still equal references: prefix hits land on blocks in use, and a block
   freed directly was taken directly (or the call changes nothing because it fails).
   */
  predicate Disciplined(s: State, op: Op)
    requires Wf(s)
  {
    match op
    case Match(id, prompt) => LiveHits(s, prompt)
    case Free(b) => [b] in s.loose || !Succeeds(s, op)
    case _ => true
  }

  lemma PutTableHeld(s: State, id: nat, t: PageTable, p: Option<seq<u32>>)
    requires Wf(s) && AllBelow(t.blockIds, |s.blocks|)
    ensures Held(PutTable(s, id, t, p)) == Held(s) + multiset(t.blockIds)
  {
    TableRefsPut(s.tables, id, t);
    AddLooseRefs(s.loose, Stranded(s, id));
    MovePart(TableRefs(s.tables[id := t]), TableRefs(s.tables), LooseRefs(s.loose), multiset(Stranded(s, id)),
             multiset(t.blockIds));
  }

  /** What the tables gave up went to the loose references. */
  lemma MovePart(after: multiset<nat>, before: multiset<nat>, rest: multiset<nat>, gone: multiset<nat>,
                 new_: multiset<nat>)
    requires after + gone == before + new_
    ensures after + (rest + gone) == (before + rest) + new_
  {
    forall b ensures (after + (rest + gone))[b] == ((before + rest) + new_)[b] {
      assert (after + gone)[b] == (before + new_)[b];
    }
  }

  lemma CutRefs(l: seq<nat>, keep: nat)
    requires keep <= |l|
    ensures multiset(l[..keep]) + multiset(Reverse(l[keep..])) == multiset(l)
  {
    ReverseMultiset(l[keep..]);
    assert l == l[..keep] + l[keep..];
  }

  lemma CutTableHeld(s: State, id: nat, retain: nat)
    requires Wf(s) && id in s.tables
    ensures Held(CutTable(s, id, retain)) + multiset(Dropped(s, id, retain)) == Held(s)
  {
    var l := s.tables[id].blockIds;
    var keep := Min(BlocksFor(retain, s.cfg.blockSize), |l|);
    CutRefs(l, keep);
    TableRefsPut(s.tables, id, PageTable(retain, l[..keep]));
    SwapPart(TableRefs(CutTable(s, id, retain).tables), TableRefs(s.tables), LooseRefs(s.loose),
             multiset(l), multiset(l[..keep]), multiset(Dropped(s, id, retain)));
  }

  lemma SwapPart(after: multiset<nat>, before: multiset<nat>, rest: multiset<nat>, whole: multiset<nat>,
                 kept: multiset<nat>, gone: multiset<nat>)
    requires after + whole == before + kept && kept + gone == whole
    ensures (after + rest) + gone == before + rest
  {
    forall b ensures ((after + rest) + gone)[b] == (before + rest)[b] {
      assert (after + whole)[b] == (before + kept)[b] && (kept + gone)[b] == whole[b];
    }
  }

  /** The books only depend on the pool and on the references that exist. */
  lemma SamePool(s: State, t: State, refs: multiset<nat>)
    requires t.blocks == s.blocks && t.freeStack == s.freeStack && Held(t) == refs
    ensures Accounted(t) <==> AccountedFor(s, refs)
  {
  }

  lemma RemoveTableHeld(s: State, id: nat)
    requires Wf(s) && id in s.tables
    ensures Held(RemoveTable(s, id)) + multiset(s.tables[id].blockIds) == Held(s)
  {
    TableRefsRemove(s.tables, id);
  }

  lemma AllocateOpAccounted(s: State)
    requires Wf(s) && Accounted(s)
    ensures Accounted(Step(s, Allocate))
  {
    AllocateAccounted(s, Held(s));
    var (t, r) := AllocateBlock(s);
    if r.Ok? {
      AddLooseRefs(s.loose, [r.value]);
      assert multiset([r.value]) == multiset{r.value};
      var u := Step(s, Allocate);
      assert Held(u) == Held(s) + multiset{r.value};
      SamePool(t, u, Held(s) + multiset{r.value});
    }
  }

  lemma FreeOpAccounted(s: State, b: nat)
    requires Wf(s) && Accounted(s)
    ensures Accounted(Step(s, Free(b))) <==> Disciplined(s, Free(b))
  {
    DropLooseRefs(s.loose, [b]);
    if [b] in s.loose {
      FreeOwned(s, b);
    } else if Succeeds(s, Free(b)) {
      var t := Step(s, Free(b));
      assert Held(t)[b] == Held(s)[b];
      assert t.blocks[b].refCount == s.blocks[b].refCount - 1;
    }
  }

  lemma FreeOwned(s: State, b: nat)
    requires Wf(s) && Accounted(s) && [b] in s.loose
    ensures Accounted(Step(s, Free(b)))
  {
    DropLooseRefs(s.loose, [b]);
    var refs := TableRefs(s.tables) + LooseRefs(DropLoose(s.loose, [b]));
    assert multiset([b]) == multiset{b};
    assert Held(s) == refs + multiset{b};
    FreeAccounted(s, b, refs);
    SamePool(FreeBlock(s, b).0, Step(s, Free(b)), refs);
  }

  lemma RegisterAccounted(s: State, id: nat)
    requires Wf(s) && Accounted(s)
    ensures Accounted(RegisterSequence(s, id))
  {
    PutTableHeld(s, id, PageTable(0, []), None);
    assert Held(s) + multiset([]) == Held(s);
  }

  lemma MatchAccounted(s: State, id: nat, prompt: seq<u32>)
    requires Wf(s) && Accounted(s)
    ensures Accounted(MatchOrAllocatePrefix(s, id, prompt).0) <==> LiveHits(s, prompt)
  {
    var s0 := if id in s.tables then s else RegisterSequence(s, id);
    RegisterAccounted(s, id);
    TakePromptBalanced(s0, id, prompt, Held(s0));
    MatchHeld(s, s0, id, prompt);
    var w := TakePrompt(s0, id, prompt);
    SamePool(w.s, MatchOrAllocatePrefix(s, id, prompt).0, Held(s0) + multiset(w.held));
  }

  /** The call hands every reference it takes to the table or, on failure, to nobody. */
  lemma MatchHeld(s: State, s0: State, id: nat, prompt: seq<u32>)
    requires Wf(s) && Wf(s0) && s0 == if id in s.tables then s else RegisterSequence(s, id)
    ensures var t := MatchOrAllocatePrefix(s, id, prompt).0;
            var w := TakePrompt(s0, id, prompt);
            t.blocks == w.s.blocks && t.freeStack == w.s.freeStack && Held(t) == Held(s0) + multiset(w.held)
  {
    TakePromptFrame(s0, id, prompt);
    var w := TakePrompt(s0, id, prompt);
    if w.ok {
      PutTableHeld(w.s, id, PageTable(|prompt|, w.held), Some(prompt));
    } else {
      LeakHeld(w);
    }
  }

  lemma LeakHeld(w: Walk)
    requires WalkOk(w)
    ensures Held(Leak(w)) == Held(w.s) + multiset(w.held)
  {
    AddLooseRefs(w.s.loose, w.held);
  }

  lemma TakePromptFrame(s: State, id: nat, prompt: seq<u32>)
    requires Wf(s)
    ensures var w := TakePrompt(s, id, prompt);
            w.s.tables == s.tables && w.s.loose == s.loose && w.s.prompts == s.prompts && |w.s.blocks| == |s.blocks|
  {
    var cs := Chunks(prompt, s.cfg.blockSize);
    WalkMisses(s, id, cs, CachedPrefix(s.nodes, cs));
  }

  /** An append's allocations: the books stay in order, and only the pool changes. */
  lemma {:induction false} AllocateManyBalanced(s: State, id: nat, k: nat, refs: multiset<nat>)
    requires Wf(s) && AccountedFor(s, refs)
    ensures Balanced(AllocateMany(s, id, k), refs)
  {
    if k == 0 {
      NothingBalanced(s, AllocateMany(s, id, k), refs);
    } else {
      AllocateManyBalanced(s, id, k - 1, refs);
      NextBalanced(AllocateMany(s, id, k - 1), id, refs);
      OneMoreAllocation(s, id, k);
    }
  }

  lemma OneMoreAllocation(s: State, id: nat, k: nat)
    requires Wf(s) && k > 0
    ensures AllocateMany(s, id, k) == TakeNext(AllocateMany(s, id, k - 1), id)
  {
  }

  lemma NothingBalanced(s: State, w: Walk, refs: multiset<nat>)
    requires AccountedFor(s, refs) && w == Walk(s, 0, [], 0, true)
    ensures Balanced(w, refs)
  {
    assert refs + multiset([]) == refs;
  }

  lemma NextBalanced(w: Walk, id: nat, refs: multiset<nat>)
    requires WalkOk(w) && Balanced(w, refs)
    ensures Balanced(TakeNext(w, id), refs)
  {
    if w.ok { TakeBalanced(w, id, refs); }
  }

  /** A block is taken from the top of the stack. */
  lemma TakeShape(w: Walk, id: nat)
    requires WalkOk(w) && w.ok
    ensures var r := TakeBlock(w, id);
            && r.ok == (w.s.freeStack != [])
            && r.held == (if r.ok then w.held + [Last(w.s.freeStack)] else w.held)
            && r.s == w.s.(blocks := r.s.blocks, freeStack := if r.ok then Init(w.s.freeStack) else w.s.freeStack)
            && |r.s.blocks| == |w.s.blocks|
            && r.matched == w.matched
  {
  }

  /** The walk took the top `k` of the stack, or all of it when that was not enough. */
  ghost predicate TookTop(s: State, k: nat, w: Walk) {
    var x := Min(k, |s.freeStack|);
    && (w.ok <==> k <= |s.freeStack|)
    && w.held == Top(s.freeStack, x)
    && w.s == s.(blocks := w.s.blocks, freeStack := s.freeStack[..|s.freeStack| - x])
    && |w.s.blocks| == |s.blocks|
  }

  lemma {:induction false} AllocateManyShape(s: State, id: nat, k: nat)
    requires Wf(s)
    ensures TookTop(s, k, AllocateMany(s, id, k))
  {
    if k == 0 {
      TookNothing(s, k, AllocateMany(s, id, k));
    } else {
      AllocateManyShape(s, id, k - 1);
      TookNext(s, id, k - 1, k, AllocateMany(s, id, k - 1), AllocateMany(s, id, k));
    }
  }

  /** One iteration more, or none after a failure. */
  lemma TookNext(s: State, id: nat, j: nat, k: nat, w: Walk, r: Walk)
    requires WalkOk(w) && r == TakeNext(w, id) && k == j + 1 && TookTop(s, j, w)
    ensures TookTop(s, k, r)
  {
    if w.ok {
      TakeShape(w, id);
      TookOneMore(s, j, w, TakeBlock(w, id));
    } else {
      TookAll(s, j, w);
    }
  }

  lemma TookNothing(s: State, k: nat, w: Walk)
    requires k == 0 && w == Walk(s, 0, [], 0, true)
    ensures TookTop(s, k, w)
  {
    assert s.freeStack[..|s.freeStack| - 0] == s.freeStack && Top(s.freeStack, 0) == [];
  }

  lemma TookAll(s: State, k: nat, w: Walk)
    requires TookTop(s, k, w) && !w.ok
    ensures TookTop(s, k + 1, w)
  {
  }

  lemma TookOneMore(s: State, k: nat, w: Walk, r: Walk)
    requires TookTop(s, k, w) && w.ok && r.ok == (k < |s.freeStack|)
    requires r.held == (if r.ok then w.held + [Last(w.s.freeStack)] else w.held)
    requires r.s == w.s.(blocks := r.s.blocks, freeStack := if r.ok then Init(w.s.freeStack) else w.s.freeStack)
    requires |r.s.blocks| == |w.s.blocks|
    ensures TookTop(s, k + 1, r)
  {
    if r.ok { TopOne(s.freeStack, k); }
  }

  /** A block as an append hands it out. */
  function TakenBlock(id: nat): PhysicalBlock {
    PhysicalBlock(1, false, Some(id), false, false)
  }

  /** The records of the blocks taken, and of all others. */
  ghost predicate RecordsTaken(s: State, id: nat, w: Walk) {
    && |w.s.blocks| == |s.blocks|
    && (forall b :: 0 <= b < |s.blocks| ==> w.s.blocks[b] == if b in w.held then TakenBlock(id) else s.blocks[b])
  }

  lemma {:induction false} AllocateManyBlocks(s: State, id: nat, k: nat)
    requires Wf(s)
    ensures RecordsTaken(s, id, AllocateMany(s, id, k))
  {
    if k == 0 {
    } else {
      AllocateManyBlocks(s, id, k - 1);
      RecordsNext(s, id, AllocateMany(s, id, k - 1));
    }
  }

  lemma RecordsNext(s: State, id: nat, w: Walk)
    requires WalkOk(w) && RecordsTaken(s, id, w)
    ensures RecordsTaken(s, id, TakeNext(w, id))
  {
    if w.ok { TakeRecords(w, id); }
  }

  lemma TakeRecords(w: Walk, id: nat)
    requires WalkOk(w) && w.ok
    ensures var r := TakeBlock(w, id);
            && |r.s.blocks| == |w.s.blocks|
            && r.held == (if w.s.freeStack == [] then w.held else w.held + [Last(w.s.freeStack)])
            && (forall b :: 0 <= b < |w.s.blocks| ==>
                  r.s.blocks[b] == if w.s.freeStack != [] && b == Last(w.s.freeStack) then TakenBlock(id)
                    else w.s.blocks[b])
  {
  }

  /** An append gets as far as allocating. */
  predicate AppendProceeds(s: State, id: nat, n: nat)
    requires s.cfg.blockSize > 0
  {
    id in s.tables && FitsLimit(s, id, n)
  }

  /** What the end of an append changes in the tables. */
  lemma FinishIs(s: State, id: nat, tokens: nat, w: Walk)
    requires WalkOk(w) && id in s.tables && w.s.tables == s.tables && w.s.cfg == s.cfg
    ensures var t := FinishAppend(w, id, tokens);
            && t.blocks == w.s.blocks && t.cfg == s.cfg
            && t.tables == if w.ok then s.tables[id := PageTable(tokens, s.tables[id].blockIds + w.held)] else s.tables
  {
  }

  lemma AppendHeld(s: State, id: nat, n: nat)
    requires Wf(s) && AppendProceeds(s, id, n)
    ensures var t := AppendTokens(s, id, n).0;
            var w := AllocateMany(s, id, Wanted(s, id, n));
            t.blocks == w.s.blocks && t.freeStack == w.s.freeStack && Held(t) == Held(s) + multiset(w.held)
  {
    AllocateManyShape(s, id, Wanted(s, id, n));
    FinishHeld(AllocateMany(s, id, Wanted(s, id, n)), id, s.tables[id].logicalTokens + n, AppendTokens(s, id, n).0);
  }

  lemma FinishHeld(w: Walk, id: nat, tokens: nat, t: State)
    requires WalkOk(w) && id in w.s.tables && t == FinishAppend(w, id, tokens)
    ensures Held(t) == TableRefs(w.s.tables) + LooseRefs(w.s.loose) + multiset(w.held)
  {
    if w.ok {
      TableRefsExtend(w.s.tables, id, tokens, w.held);
    } else {
      LeakHeld(w);
    }
  }

  lemma TableRefsExtend(tables: map<nat, PageTable>, id: nat, tokens: nat, extra: seq<nat>)
    requires id in tables
    ensures TableRefs(tables[id := PageTable(tokens, tables[id].blockIds + extra)])
            == TableRefs(tables) + multiset(extra)
  {
    var l := tables[id].blockIds;
    var t := tables[id := PageTable(tokens, l + extra)];
    TableRefsPut(tables, id, PageTable(tokens, l + extra));
    forall b ensures TableRefs(t)[b] == (TableRefs(tables) + multiset(extra))[b] {
      assert multiset(l + extra)[b] == multiset(l)[b] + multiset(extra)[b];
      assert (TableRefs(t) + multiset(l))[b] == (TableRefs(tables) + multiset(l + extra))[b];
    }
  }

  lemma AppendAccounted(s: State, id: nat, n: nat)
    requires Wf(s) && Accounted(s)
    ensures Accounted(AppendTokens(s, id, n).0)
  {
    if AppendProceeds(s, id, n) {
      AllocateManyBalanced(s, id, Wanted(s, id, n), Held(s));
      AppendHeld(s, id, n);
      var w := AllocateMany(s, id, Wanted(s, id, n));
      SamePool(w.s, AppendTokens(s, id, n).0, Held(s) + multiset(w.held));
    }
  }

  lemma ForkAccounted(s: State, parent: nat, child: nat)
    requires Wf(s) && Accounted(s)
    ensures Accounted(ForkSequence(s, parent, child).0)
  {
    if parent in s.tables {
      var t := s.tables[parent];
      var s1 := s.(blocks := Share(s.blocks, t.blockIds));
      ShareCounts(s.blocks, t.blockIds);
      TableRefsRemove(s.tables, parent);
      assert AccountedFor(s1, Held(s) + multiset(t.blockIds)) by {
        assert forall b :: b in multiset(t.blockIds) ==> b in Held(s);
      }
      PutTableHeld(s1, child, t, if parent in s.prompts then Some(s.prompts[parent]) else None);
      assert Held(s1) == Held(s);
    }
  }

  /** A rollback frees each dropped reference once, so it never fails. */
  lemma RollbackAccounted(s: State, id: nat, retain: nat)
    requires Wf(s) && Accounted(s)
    ensures var (t, r) := RollbackSequence(s, id, retain);
            && Accounted(t)
            && r == (if id in s.tables then Ok(()) else Err(SequenceNotFound(id)))
            && (id in s.tables ==>
                  var c := CutTable(s, id, retain);
                  Released(c, t, Dropped(s, id, retain), Held(c)))
  {
    if id in s.tables {
      var c := CutTable(s, id, retain);
      CutTableHeld(s, id, retain);
      FreeAllAccounted(c, Dropped(s, id, retain), Held(c));
    }
  }

  lemma FreeSequenceAccounted(s: State, id: nat)
    requires Wf(s) && Accounted(s)
    ensures var (t, r) := FreeSequence(s, id);
            && Accounted(t) && r == Ok(())
            && (id in s.tables ==>
                  var c := RemoveTable(s, id);
                  Released(c, t, s.tables[id].blockIds, Held(c)))
  {
    if id in s.tables {
      var c := RemoveTable(s, id);
      RemoveTableHeld(s, id);
      FreeAllAccounted(c, s.tables[id].blockIds, Held(c));
    }
  }

  /** One call keeps the books in order exactly when it is disciplined. */
  lemma StepAccounted(s: State, op: Op)
    requires Wf(s) && Accounted(s)
    ensures Accounted(Step(s, op)) <==> Disciplined(s, op)
  {
    match op
    case Allocate => AllocateOpAccounted(s);
    case Free(b) => FreeOpAccounted(s, b);
    case Register(id) => RegisterAccounted(s, id);
    case Match(id, prompt) => MatchAccounted(s, id, prompt);
    case Append(id, n) => AppendAccounted(s, id, n);
    case Fork(p, c) => ForkAccounted(s, p, c);
    case Rollback(id, retain) => RollbackAccounted(s, id, retain);
    case FreeSeq(id) => FreeSequenceAccounted(s, id);
  }
}
