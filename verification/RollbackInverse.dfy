/** Rolling back what an append added restores the manager, and rollbacks compose. */
module RollbackInverse {
  import opened Prelude
  import opened BlockSpace
  import opened PrefixTrie
  import opened Accounting
  import opened Runs
  import opened SharingRuns

  lemma FreeOne(s: State, b: nat)
    requires Wf(s) && b < |s.blocks| && s.blocks[b].refCount == 1 && b !in s.freeStack
    ensures var (t, r) := FreeBlock(s, b);
            r == Ok(()) && t == s.(blocks := s.blocks[b := FREE_BLOCK], freeStack := s.freeStack + [b],
                                   valid := t.valid)
  {
  }

  lemma RestIsFree(l: seq<nat>, stack: seq<nat>)
    requires l != [] && Distinct(l) && forall b :: b in l ==> b !in stack
    ensures Distinct(l[1..])
    ensures forall b :: b in l[1..] ==> b in l && b != l[0] && b !in stack + [l[0]]
    ensures stack + [l[0]] + l[1..] == stack + l
  {
    assert l == [l[0]] + l[1..];
  }

  /** Freeing distinct blocks with one reference each pushes them, in order, and blanks them. */
  lemma {:induction false} FreeTaken(s: State, l: seq<nat>)
    requires Wf(s) && Distinct(l)
    requires forall b :: b in l ==> b < |s.blocks| && s.blocks[b].refCount == 1 && b !in s.freeStack
    ensures var (t, r) := FreeAll(s, l);
            && r == Ok(()) && t.freeStack == s.freeStack + l
            && t == s.(blocks := t.blocks, freeStack := t.freeStack, valid := t.valid) && |t.blocks| == |s.blocks|
            && (forall b :: 0 <= b < |s.blocks| ==> t.blocks[b] == if b in l then FREE_BLOCK else s.blocks[b])
    decreases |l|
  {
    if l == [] {
      assert s.freeStack + l == s.freeStack;
    } else {
      assert l[0] in l;
      RestIsFree(l, s.freeStack);
      FreeOne(s, l[0]);
      assert forall b :: b in l <==> b == l[0] || b in l[1..];
      FreeTaken(FreeBlock(s, l[0]).0, l[1..]);
    }
  }

  /** The program's own fields agree. */
  predicate SameProgram(s: State, t: State) {
    t.(loose := s.loose, valid := s.valid, prompts := s.prompts, parents := s.parents) == s
  }

  lemma ReverseTop(stack: seq<nat>, k: nat)
    requires k <= |stack|
    ensures Reverse(Top(stack, k)) == stack[|stack| - k..]
    ensures stack[..|stack| - k] + stack[|stack| - k..] == stack
  {
  }

  /** What an append that succeeds drops again when rolled back to the old length. */
  lemma DroppedAfterAppend(s: State, id: nat, n: nat)
    requires Wf(s) && AppendTokens(s, id, n).1.Ok? && id in s.tables && PagesMatch(s, id)
    ensures var t := AppendTokens(s, id, n).0;
            var k := Wanted(s, id, n);
            var tokens := s.tables[id].logicalTokens;
            && k <= |s.freeStack| && id in t.tables && t.cfg == s.cfg
            && Dropped(t, id, tokens) == s.freeStack[|s.freeStack| - k..]
            && CutTable(t, id, tokens).tables == s.tables
  {
    var k := Wanted(s, id, n);
    var tokens := s.tables[id].logicalTokens;
    var l := s.tables[id].blockIds;
    AllocateManyShape(s, id, k);
    ReverseTop(s.freeStack, k);
    BlocksForMonotone(tokens, tokens + n, s.cfg.blockSize);
    var w := AllocateMany(s, id, k);
    assert (l + w.held)[|l|..] == w.held && (l + w.held)[..|l|] == l;
    var t := AppendTokens(s, id, n).0;
    assert t.tables[id].blockIds == l + w.held;
    assert CutTable(t, id, tokens).tables == s.tables;
  }

  /** The table that comes back is the first pages of the old length. */
  lemma TableAfterUndo(s: State, id: nat, n: nat)
    requires Wf(s) && AppendTokens(s, id, n).1.Ok? && id in s.tables
    ensures var t := RollbackSequence(AppendTokens(s, id, n).0, id, s.tables[id].logicalTokens).0;
            && id in t.tables
            && |t.tables[id].blockIds| == BlocksFor(s.tables[id].logicalTokens, s.cfg.blockSize)
  {
    var u := AppendTokens(s, id, n).0;
    var tokens := s.tables[id].logicalTokens;
    AllocateManyShape(s, id, Wanted(s, id, n));
    FinishIs(s, id, Lengthened(s, id, n), AllocateMany(s, id, Wanted(s, id, n)));
    BlocksForMonotone(tokens, Lengthened(s, id, n), s.cfg.blockSize);
    FreeAllKeeps(CutTable(u, id, tokens), Dropped(u, id, tokens));
  }

  /** The blocks that an append takes carry blank records. */
  predicate TakesBlank(s: State, id: nat, n: nat)
    requires s.cfg.blockSize > 0 && id in s.tables && Wanted(s, id, n) <= |s.freeStack|
  {
    forall b :: b in Top(s.freeStack, Wanted(s, id, n)) ==> b < |s.blocks| && s.blocks[b] == FREE_BLOCK
  }

  /**
   A successful append followed by a rollback to the old length restores the tables exactly when the table
   had the pages its tokens need. Then the trie and the free stack in its order are restored too, and every
   block record exactly when the blocks taken carried blank records.
   */
  lemma AppendThenRollback(s: State, id: nat, n: nat)
    requires Wf(s) && AppendTokens(s, id, n).1.Ok? && id in s.tables
    ensures Wanted(s, id, n) <= |s.freeStack|
    ensures var (t, r) := RollbackSequence(AppendTokens(s, id, n).0, id, s.tables[id].logicalTokens);
            && (t.tables == s.tables <==> PagesMatch(s, id))
            && (PagesMatch(s, id) ==> r == Ok(()) && t.freeStack == s.freeStack && t.nodes == s.nodes)
            && (SameProgram(s, t) <==> PagesMatch(s, id) && TakesBlank(s, id, n))
  {
    AllocateManyShape(s, id, Wanted(s, id, n));
    if PagesMatch(s, id) {
      UndoneAppend(s, id, n);
    } else {
      TableAfterUndo(s, id, n);
    }
  }

  lemma UndoneAppend(s: State, id: nat, n: nat)
    requires Wf(s) && AppendTokens(s, id, n).1.Ok? && id in s.tables && PagesMatch(s, id)
    ensures Wanted(s, id, n) <= |s.freeStack|
    ensures var (t, r) := RollbackSequence(AppendTokens(s, id, n).0, id, s.tables[id].logicalTokens);
            && r == Ok(())
            && t.tables == s.tables && t.freeStack == s.freeStack && t.nodes == s.nodes
            && (SameProgram(s, t) <==> TakesBlank(s, id, n))
  {
    var u := AppendTokens(s, id, n).0;
    var tokens := s.tables[id].logicalTokens;
    DroppedAfterAppend(s, id, n);
    var w := AllocateMany(s, id, Wanted(s, id, n));
    AllocateManyShape(s, id, Wanted(s, id, n));
    AllocateManyBlocks(s, id, Wanted(s, id, n));
    var c := CutTable(u, id, tokens);
    assert c == w.s.(tables := s.tables, prompts := c.prompts);
    RestoreTaken(s, id, w, c, Dropped(u, id, tokens));
  }

  /** Freeing the blocks `w` took from `s`, last taken first. */
  lemma RestoreTaken(s: State, id: nat, w: Walk, c: State, l: seq<nat>)
    requires PoolOk(s) && |w.held| <= |s.freeStack| && w.held == Top(s.freeStack, |w.held|)
             && l == s.freeStack[|s.freeStack| - |w.held|..]
    requires |w.s.blocks| == |s.blocks|
    requires forall b :: 0 <= b < |s.blocks| ==>
               w.s.blocks[b] == if b in w.held then TakenBlock(id) else s.blocks[b]
    requires w.s == s.(blocks := w.s.blocks, freeStack := s.freeStack[..|s.freeStack| - |w.held|])
    requires Wf(c) && c == w.s.(tables := s.tables, prompts := c.prompts)
    ensures var (t, r) := FreeAll(c, l);
            && r == Ok(())
            && t.tables == s.tables && t.freeStack == s.freeStack && t.nodes == s.nodes
            && (SameProgram(s, t) <==> forall b :: b in w.held ==> b < |s.blocks| && s.blocks[b] == FREE_BLOCK)
  {
    TakenIsTop(s, w.held, l);
    FreeTaken(c, l);
    SameOrNot(s, w.held, FreeAll(c, l).0);
  }

  lemma TakenIsTop(s: State, held: seq<nat>, l: seq<nat>)
    requires PoolOk(s) && |held| <= |s.freeStack| && held == Top(s.freeStack, |held|)
             && l == s.freeStack[|s.freeStack| - |held|..]
    ensures Distinct(l) && (forall b :: b in l <==> b in held)
    ensures forall b :: b in l ==> b < |s.blocks| && b !in s.freeStack[..|s.freeStack| - |held|]
    ensures s.freeStack[..|s.freeStack| - |held|] + l == s.freeStack
  {
    var k, n := |held|, |s.freeStack|;
    ReverseTop(s.freeStack, k);
    assert forall i :: 0 <= i < k ==> l[i] == s.freeStack[n - k + i];
    assert forall i :: 0 <= i < k ==> held[i] == l[k - 1 - i];
    assert forall i :: 0 <= i < k ==> l[i] == held[k - 1 - i];
  }

  lemma SameOrNot(s: State, held: seq<nat>, t: State)
    requires |t.blocks| == |s.blocks|
    requires forall b :: 0 <= b < |s.blocks| ==>
               t.blocks[b] == if b in held then FREE_BLOCK else s.blocks[b]
    requires forall b :: b in held ==> b < |s.blocks|
    requires t == s.(blocks := t.blocks, valid := t.valid, prompts := t.prompts)
    ensures SameProgram(s, t) <==> forall b :: b in held ==> b < |s.blocks| && s.blocks[b] == FREE_BLOCK
  {
    if forall b :: b in held ==> b < |s.blocks| && s.blocks[b] == FREE_BLOCK {
      assert t.blocks == s.blocks;
    }
  }

  /** In order books the blocks taken are blank, so the restoration is exact if and only if the pages match. */
  lemma AppendThenRollbackAccounted(s: State, id: nat, n: nat)
    requires Wf(s) && Accounted(s) && AppendTokens(s, id, n).1.Ok? && id in s.tables
    ensures SameProgram(s, RollbackSequence(AppendTokens(s, id, n).0, id, s.tables[id].logicalTokens).0)
            <==> PagesMatch(s, id)
  {
    AppendThenRollback(s, id, n);
    TopIsFresh(s, Held(s), Wanted(s, id, n));
  }

  // ----- Composition -----

  lemma {:induction false} FreeAllConcat(s: State, a: seq<nat>, b: seq<nat>)
    requires Wf(s) && FreeAll(s, a).1.Ok?
    ensures FreeAll(s, a + b) == FreeAll(FreeAll(s, a).0, b)
    decreases |a|
  {
    if a == [] {
      assert a + b == b;
    } else {
      assert (a + b)[1..] == a[1..] + b;
      FreeAllConcat(FreeBlock(s, a[0]).0, a[1..], b);
    }
  }

  /** Freeing does not look at the tables. */
  lemma {:induction false} FreeAllIgnoresTables(s: State, t: State, l: seq<nat>)
    requires Wf(s) && Wf(t) && t == s.(tables := t.tables, prompts := t.prompts)
    ensures FreeAll(t, l) == (FreeAll(s, l).0.(tables := t.tables, prompts := t.prompts), FreeAll(s, l).1)
    decreases |l|
  {
    if l == [] {
    } else {
      FreeAllIgnoresTables(FreeBlock(s, l[0]).0, FreeBlock(t, l[0]).0, l[1..]);
    }
  }

  lemma {:induction false} FreeAllKeeps(s: State, l: seq<nat>)
    requires Wf(s)
    ensures var t := FreeAll(s, l).0; t.tables == s.tables && t.prompts == s.prompts && t.cfg == s.cfg
    decreases |l|
  {
    if l == [] || FreeBlock(s, l[0]).1.Err? {
    } else {
      FreeAllKeeps(FreeBlock(s, l[0]).0, l[1..]);
    }
  }

  lemma DroppedSplits(l: seq<nat>, a: nat, b: nat)
    requires b <= a <= |l|
    ensures Reverse(l[b..]) == Reverse(l[a..]) + Reverse(l[..a][b..])
  {
    assert l[b..] == l[..a][b..] + l[a..];
  }

  /** Rolling back twice, the second time further, is rolling back once. */
  lemma RollbackTwice(s: State, id: nat, first: nat, second: nat)
    requires Wf(s) && second <= first && RollbackSequence(s, id, first).1.Ok?
    ensures RollbackSequence(RollbackSequence(s, id, first).0, id, second) == RollbackSequence(s, id, second)
  {
    if id in s.tables {
      var c1 := CutTable(s, id, first);
      var t1 := RollbackSequence(s, id, first).0;
      FreeAllKeeps(c1, Dropped(s, id, first));
      var c2 := CutTable(s, id, second);
      CutTwice(s, id, first, second, t1);
      var d1, d2 := Dropped(s, id, first), Dropped(t1, id, second);
      FreeAllIgnoresTables(c1, c2, d1);
      FreeAllConcat(c2, d1, d2);
    }
  }

  lemma CutTwice(s: State, id: nat, first: nat, second: nat, t: State)
    requires Wf(s) && Wf(t) && id in s.tables && second <= first
    requires t.tables == CutTable(s, id, first).tables && t.prompts == CutTable(s, id, first).prompts && t.cfg == s.cfg
    ensures Dropped(s, id, second) == Dropped(s, id, first) + Dropped(t, id, second)
    ensures CutTable(t, id, second)
            == t.(tables := CutTable(s, id, second).tables, prompts := CutTable(s, id, second).prompts)
  {
    CutTablesTwice(s, id, first, second, t);
    if id in s.prompts { TakeTwice(s.prompts[id], first, second); }
    assert CutTable(t, id, second).prompts == CutTable(s, id, second).prompts;
  }

  lemma CutTablesTwice(s: State, id: nat, first: nat, second: nat, t: State)
    requires Wf(s) && Wf(t) && id in s.tables && second <= first
    requires t.tables == CutTable(s, id, first).tables && t.cfg == s.cfg
    ensures Dropped(s, id, second) == Dropped(s, id, first) + Dropped(t, id, second)
    ensures CutTable(t, id, second).tables == CutTable(s, id, second).tables
  {
    var l := s.tables[id].blockIds;
    BlocksForMonotone(second, first, s.cfg.blockSize);
    var a, b := BlocksFor(first, s.cfg.blockSize), BlocksFor(second, s.cfg.blockSize);
    DroppedSplits(l, Min(a, |l|), Min(b, |l|));
    TakeTwice(l, a, b);
  }

  lemma TakeTwice<T>(l: seq<T>, a: nat, b: nat)
    requires b <= a
    ensures l[..Min(a, |l|)][..Min(b, Min(a, |l|))] == l[..Min(b, |l|)]
  {
  }
}
