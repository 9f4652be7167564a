/** What releasing references returns and leaves: which error, which table, and in which order blocks go back. */
module ReleaseOutcomes {
  import opened Prelude
  import opened BlockSpace
  import opened Accounting
  import opened Runs
  import opened ReferenceCounts
  import opened RollbackInverse

  /**
   A free loop that fails stops at the first position up to which some block is listed more often than it is
   counted, reports that position's block, and has released exactly what comes before it.
   */
  lemma {:induction false} FreeAllStopsAt(s: State, l: seq<nat>, i: nat)
    requires Wf(s) && i < |l| && WithinCounts(s.blocks, l[..i]) && !WithinCounts(s.blocks, l[..i + 1])
    ensures FreeAll(s, l).1 == Err(DoubleFree(l[i]))
    ensures FreeAll(s, l[..i]).1 == Ok(()) && FreeAll(s, l).0 == FreeAll(s, l[..i]).0
    decreases i
  {
    FreeAllSucceeds(s, l[..i]);
    if i == 0 {
      assert l[..1] == [l[0]];
      assert forall b :: multiset([l[0]])[b] == if b == l[0] then 1 else 0;
    } else {
      var s1 := FreeBlock(s, l[0]).0;
      PrefixParts(l, i);
      PrefixParts(l, i + 1);
      assert FreeBlock(s, l[0]).1.Ok?;
      OneLess(s.blocks, s1.blocks, l[..i]);
      OneLess(s.blocks, s1.blocks, l[..i + 1]);
      FreeAllStopsAt(s1, l[1..], i - 1);
    }
  }

  lemma PrefixParts(l: seq<nat>, i: nat)
    requires 0 < i <= |l|
    ensures l[..i] != [] && l[..i][0] == l[0] && l[..i][1..] == l[1..][..i - 1]
  {
  }

  /** The blocks of a list that are counted once, in the list's order. */
  function CountedOnceIn(blocks: seq<PhysicalBlock>, l: seq<nat>): seq<nat> {
    if l == [] then []
    else (if l[0] < |blocks| && blocks[l[0]].refCount == 1 then [l[0]] else []) + CountedOnceIn(blocks, l[1..])
  }

  lemma {:induction false} SameCountsAfter(a: seq<PhysicalBlock>, b: seq<PhysicalBlock>, l: seq<nat>)
    requires |a| == |b| && forall i :: 0 <= i < |l| && l[i] < |a| ==> a[l[i]].refCount == b[l[i]].refCount
    ensures CountedOnceIn(a, l) == CountedOnceIn(b, l)
  {
    if l == [] {
    } else {
      assert forall i :: 0 <= i < |l[1..]| ==> l[1..][i] == l[i + 1];
      SameCountsAfter(a, b, l[1..]);
    }
  }

  /** Giving back a list without repetition puts exactly its blocks counted once on the stack, in the list's order. */
  lemma {:induction false} FreedInOrder(s: State, l: seq<nat>, refs: multiset<nat>)
    requires Wf(s) && AccountedFor(s, refs + multiset(l)) && Distinct(l)
    ensures FreeAll(s, l).0.freeStack == s.freeStack + CountedOnceIn(s.blocks, l)
    decreases |l|
  {
    if l == [] {
      assert s.freeStack + [] == s.freeStack;
    } else {
      var s1 := FreeBlock(s, l[0]).0;
      FreedFirst(s, l, refs, s1);
      FreedInOrder(s1, l[1..], refs);
      Regroup(s.freeStack, CountedOnceIn(s.blocks, l[..1]), CountedOnceIn(s.blocks, l[1..]));
    }
  }

  lemma Regroup(a: seq<nat>, b: seq<nat>, c: seq<nat>)
    ensures a + (b + c) == a + b + c
  {
  }

  /** The first free pushes its block if that was counted once, and leaves the rest to be freed as before. */
  lemma FreedFirst(s: State, l: seq<nat>, refs: multiset<nat>, t: State)
    requires Wf(s) && l != [] && AccountedFor(s, refs + multiset(l)) && Distinct(l) && t == FreeBlock(s, l[0]).0
    ensures FreeBlock(s, l[0]).1.Ok? && Distinct(l[1..]) && AccountedFor(t, refs + multiset(l[1..]))
    ensures t.freeStack == s.freeStack + CountedOnceIn(s.blocks, l[..1])
    ensures CountedOnceIn(t.blocks, l[1..]) == CountedOnceIn(s.blocks, l[1..])
    ensures CountedOnceIn(s.blocks, l) == CountedOnceIn(s.blocks, l[..1]) + CountedOnceIn(s.blocks, l[1..])
  {
    assert l == [l[0]] + l[1..];
    var rest := refs + multiset(l[1..]);
    assert refs + multiset(l) == rest + multiset{l[0]};
    FreedOne(s, l[0], rest, t);
    RestAsBefore(s.blocks, t.blocks, l);
    FirstCountedOnce(s.blocks, l);
    NothingMore(s.freeStack);
  }

  lemma RestAsBefore(a: seq<PhysicalBlock>, b: seq<PhysicalBlock>, l: seq<nat>)
    requires l != [] && Distinct(l) && |a| == |b|
    requires forall x :: 0 <= x < |a| && x != l[0] ==> b[x] == a[x]
    ensures Distinct(l[1..]) && CountedOnceIn(b, l[1..]) == CountedOnceIn(a, l[1..])
  {
    assert forall i :: 0 <= i < |l[1..]| ==> l[1..][i] == l[i + 1] != l[0];
    SameCountsAfter(a, b, l[1..]);
  }

  lemma FreedOne(s: State, b: nat, refs: multiset<nat>, t: State)
    requires Wf(s) && AccountedFor(s, refs + multiset{b}) && t == FreeBlock(s, b).0
    ensures FreeBlock(s, b).1.Ok? && AccountedFor(t, refs) && b < |s.blocks| == |t.blocks|
    ensures t.freeStack == if s.blocks[b].refCount == 1 then s.freeStack + [b] else s.freeStack
    ensures forall x :: 0 <= x < |s.blocks| && x != b ==> t.blocks[x] == s.blocks[x]
  {
    FreeAccounted(s, b, refs);
    assert b in refs + multiset{b};
  }

  lemma NothingMore(stack: seq<nat>)
    ensures stack + [] == stack
  {
  }

  lemma FirstCountedOnce(blocks: seq<PhysicalBlock>, l: seq<nat>)
    requires l != []
    ensures CountedOnceIn(blocks, l[..1]) == if l[0] < |blocks| && blocks[l[0]].refCount == 1 then [l[0]] else []
    ensures CountedOnceIn(blocks, l) == CountedOnceIn(blocks, l[..1]) + CountedOnceIn(blocks, l[1..])
  {
    assert l[..1][1..] == [];
  }

  /** Freeing a sequence in order books: its table goes, its blocks without another reference go back front to back. */
  lemma FreeSequenceOutcome(s: State, id: nat)
    requires Wf(s) && Accounted(s) && id in s.tables && Distinct(s.tables[id].blockIds)
    ensures var (t, r) := FreeSequence(s, id);
            && r == Ok(()) && t.tables == s.tables - {id}
            && t.freeStack == s.freeStack + CountedOnceIn(s.blocks, s.tables[id].blockIds)
  {
    RemoveTableHeld(s, id);
    FreeSequenceAccounted(s, id);
    FreeAllKeepsTables(RemoveTable(s, id), s.tables[id].blockIds);
    FreedInOrder(RemoveTable(s, id), s.tables[id].blockIds, Held(RemoveTable(s, id)));
  }

  /**
   A rollback in any books leaves a known sequence with the length named and the first pages of it, as many as
   that length needs or as there are; no other table changes, whether the frees succeed or not.
   */
  lemma RollbackTables(s: State, id: nat, retain: nat)
    requires Wf(s)
    ensures var (t, r) := RollbackSequence(s, id, retain);
            && (id !in s.tables ==> t == s && r == Err(SequenceNotFound(id)))
            && (id in s.tables ==>
                  && r != Err(SequenceNotFound(id))
                  && t.tables == s.tables[id := PageTable(retain, FirstPages(s, id, retain))])
  {
    if id in s.tables {
      FreeAllKeepsTables(CutTable(s, id, retain), Dropped(s, id, retain));
      OnlyDoubleFrees(CutTable(s, id, retain), Dropped(s, id, retain));
    }
  }

  /** The first pages of a table, as many as so many tokens need or as there are. */
  function FirstPages(s: State, id: nat, tokens: nat): seq<nat>
    requires s.cfg.blockSize > 0 && id in s.tables
  {
    s.tables[id].blockIds[..Min(BlocksFor(tokens, s.cfg.blockSize), |s.tables[id].blockIds|)]
  }

  /** The pages of a table after those. */
  function LaterPages(s: State, id: nat, tokens: nat): seq<nat>
    requires s.cfg.blockSize > 0 && id in s.tables
  {
    s.tables[id].blockIds[Min(BlocksFor(tokens, s.cfg.blockSize), |s.tables[id].blockIds|)..]
  }

  /** It succeeds exactly when no later page is listed more often than it is counted. */
  lemma RollbackSucceeds(s: State, id: nat, retain: nat)
    requires Wf(s) && id in s.tables
    ensures RollbackSequence(s, id, retain).1.Ok? <==> WithinCounts(s.blocks, LaterPages(s, id, retain))
  {
    var gone := LaterPages(s, id, retain);
    FreeAllSucceeds(CutTable(s, id, retain), Dropped(s, id, retain));
    WithinReversed(s.blocks, gone);
  }

  lemma WithinReversed(blocks: seq<PhysicalBlock>, l: seq<nat>)
    ensures WithinCounts(blocks, Reverse(l)) <==> WithinCounts(blocks, l)
  {
    ReverseMultiset(l);
    assert forall b :: b in l <==> multiset(l)[b] > 0;
    assert forall b :: b in Reverse(l) <==> multiset(Reverse(l))[b] > 0;
  }

  lemma {:induction false} OnlyDoubleFrees(s: State, l: seq<nat>)
    requires Wf(s)
    ensures FreeAll(s, l).1.Err? ==> FreeAll(s, l).1.error.DoubleFree? && FreeAll(s, l).1.error.blockId in l
    decreases |l|
  {
    if l == [] {
    } else {
      OnlyDoubleFrees(FreeBlock(s, l[0]).0, l[1..]);
    }
  }

  /** In order books the dropped pages go back last page first. */
  lemma RollbackOrder(s: State, id: nat, retain: nat, gone: seq<nat>)
    requires Wf(s) && Accounted(s) && id in s.tables && Distinct(s.tables[id].blockIds)
    requires s.tables[id].blockIds == FirstPages(s, id, retain) + gone
    ensures var (t, r) := RollbackSequence(s, id, retain);
            r == Ok(()) && t.freeStack == s.freeStack + CountedOnceIn(s.blocks, Reverse(gone))
  {
    RollbackAccounted(s, id, retain);
    CutTableHeld(s, id, retain);
    assert Dropped(s, id, retain) == Reverse(gone);
    FreedInOrder(CutTable(s, id, retain), Reverse(gone), Held(CutTable(s, id, retain)));
  }

  // ----- A fork -----

  /** A fork gives the child the parent's length and pages, counts each page once more, and changes nothing else. */
  lemma ForkOutcome(s: State, parent: nat, child: nat)
    requires Wf(s)
    ensures var (t, r) := ForkSequence(s, parent, child);
            && (parent !in s.tables ==> t == s && r == Err(SequenceNotFound(parent)))
            && (parent in s.tables ==>
                  && r == Ok(()) && t.tables == s.tables[child := s.tables[parent]]
                  && t.freeStack == s.freeStack && t.nodes == s.nodes && |t.blocks| == |s.blocks|
                  && (forall b :: 0 <= b < |s.blocks| ==>
                        t.blocks[b] == s.blocks[b].(refCount := s.blocks[b].refCount
                                                                + multiset(s.tables[parent].blockIds)[b])))
  {
    if parent in s.tables { ShareCounts(s.blocks, s.tables[parent].blockIds); }
  }
}
