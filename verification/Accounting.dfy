/**
 Reference counts against the references that exist: those in page tables and those that no table
 holds any more.
 */
module Accounting {
  import opened Prelude
  import opened BlockSpace
  import opened PrefixTrie

  // ----- The references that exist -----

  ghost function TableRefs(tables: map<nat, PageTable>): multiset<nat> {
    if tables == map[] then multiset{}
    else
      var id :| id in tables;
      multiset(tables[id].blockIds) + TableRefs(tables - {id})
  }

  function LooseRefs(loose: seq<seq<nat>>): multiset<nat> {
    if loose == [] then multiset{} else multiset(loose[0]) + LooseRefs(loose[1..])
  }

  /** Every reference, with multiplicity, of every table and every loose list. */
  ghost function Held(s: State): multiset<nat> {
    TableRefs(s.tables) + LooseRefs(s.loose)
  }

  lemma {:induction false} TableRefsRemove(tables: map<nat, PageTable>, id: nat)
    requires id in tables
    ensures TableRefs(tables) == multiset(tables[id].blockIds) + TableRefs(tables - {id})
    decreases |tables|
  {
    var k :| k in tables && TableRefs(tables) == multiset(tables[k].blockIds) + TableRefs(tables - {k});
    if k == id {
    } else {
      TableRefsRemove(tables - {k}, id);
      TableRefsRemove(tables - {id}, k);
      assert tables - {k} - {id} == tables - {id} - {k};
    }
  }

  lemma TableRefsPut(tables: map<nat, PageTable>, id: nat, t: PageTable)
    ensures TableRefs(tables[id := t]) + (if id in tables then multiset(tables[id].blockIds) else multiset{})
            == TableRefs(tables) + multiset(t.blockIds)
  {
    TableRefsRemove(tables[id := t], id);
    DropAfterPut(tables, id, t);
    if id in tables { TableRefsRemove(tables, id); }
  }

  lemma DropAfterPut<T>(m: map<nat, T>, id: nat, x: T)
    ensures m[id := x] - {id} == m - {id}
    ensures id !in m ==> m - {id} == m
  {
  }

  lemma LooseRefsFirst(head: seq<nat>, tail: seq<seq<nat>>)
    ensures LooseRefs([head] + tail) == multiset(head) + LooseRefs(tail)
  {
    assert ([head] + tail)[1..] == tail;
  }

  lemma TailOfConcat<T>(a: seq<T>, b: seq<T>)
    requires a != []
    ensures a + b != [] && (a + b)[0] == a[0] && (a + b)[1..] == a[1..] + b
  {
  }

  lemma {:induction false} LooseRefsConcat(a: seq<seq<nat>>, b: seq<seq<nat>>)
    ensures LooseRefs(a + b) == LooseRefs(a) + LooseRefs(b)
  {
    if a == [] {
      assert a + b == b;
    } else {
      LooseRefsConcat(a[1..], b);
      TailOfConcat(a, b);
    }
  }

  lemma AddLooseRefs(loose: seq<seq<nat>>, l: seq<nat>)
    ensures LooseRefs(AddLoose(loose, l)) == LooseRefs(loose) + multiset(l)
  {
    LooseRefsConcat(loose, [l]);
    assert [l][1..] == [];
    assert LooseRefs([l]) == multiset(l) + LooseRefs([]);
  }

  // ----- Accounting -----

  /** Block counts equal the multiplicities in `refs`, and what lies on the free stack is blank. */
  ghost predicate AccountedFor(s: State, refs: multiset<nat>) {
    && (forall b :: b in refs ==> b < |s.blocks|)
    && (forall b :: 0 <= b < |s.blocks| ==> s.blocks[b].refCount == refs[b])
    && (forall b :: 0 <= b < |s.blocks| && b in s.freeStack ==> s.blocks[b] == FREE_BLOCK)
  }

  ghost predicate Accounted(s: State) {
    AccountedFor(s, Held(s))
  }

  lemma InitAccounted(cfg: Config)
    requires cfg.blockSize > 0
    ensures Accounted(InitState(cfg))
  {
  }

  // ----- The pool operations -----

  lemma AllocateAccounted(s: State, refs: multiset<nat>)
    requires Wf(s) && AccountedFor(s, refs)
    ensures var (t, r) := AllocateBlock(s);
            r.Ok? ==> AccountedFor(t, refs + multiset{r.value}) && refs[r.value] == 0
  {
  }

  lemma LabelAccounted(s: State, id: nat, b: nat, cached: bool, refs: multiset<nat>)
    requires Wf(s) && b < |s.blocks| && b !in s.freeStack && AccountedFor(s, refs)
    ensures AccountedFor(LabelBlock(s, id, b, cached), refs)
  {
  }

  /** A block record after the references in `l` were dropped and `left` remain. */
  function AfterFree(block: PhysicalBlock, dropped: bool, left: nat): PhysicalBlock {
    if !dropped then block else if left == 0 then FREE_BLOCK else block.(refCount := left)
  }

  lemma FreeAccounted(s: State, b: nat, refs: multiset<nat>)
    requires Wf(s) && AccountedFor(s, refs + multiset{b})
    ensures var (t, r) := FreeBlock(s, b);
            && r == Ok(()) && AccountedFor(t, refs)
            && t == s.(blocks := s.blocks[b := AfterFree(s.blocks[b], true, refs[b])], freeStack := t.freeStack,
                       valid := t.valid)
            && t.freeStack == (if refs[b] == 0 then s.freeStack + [b] else s.freeStack)
            && (forall n :: n in t.valid <==>
                  n in s.valid && (n < |s.nodes| && s.nodes[n].block == Some(b) ==> refs[b] > 0))
  {
    assert b in refs + multiset{b};
    assert forall x :: x in refs ==> x in refs + multiset{b};
  }

  /** What freeing a list of references does when the books are in order. */
  ghost predicate Released(s: State, t: State, l: seq<nat>, refs: multiset<nat>) {
    && t == s.(blocks := t.blocks, freeStack := t.freeStack, valid := t.valid)
    && |t.blocks| == |s.blocks|
    && (forall b :: 0 <= b < |s.blocks| ==> t.blocks[b] == AfterFree(s.blocks[b], b in l, refs[b]))
    && s.freeStack <= t.freeStack
    && (forall n :: n in t.valid <==>
          n in s.valid && (n < |s.nodes| && s.nodes[n].block.Some? && s.nodes[n].block.value in l
                           ==> refs[s.nodes[n].block.value] > 0))
  }

  lemma {:induction false} FreeAllAccounted(s: State, l: seq<nat>, refs: multiset<nat>)
    requires Wf(s) && AccountedFor(s, refs + multiset(l))
    ensures var (t, r) := FreeAll(s, l);
            r == Ok(()) && AccountedFor(t, refs) && Released(s, t, l, refs)
    decreases |l|
  {
    if l == [] {
      assert refs + multiset(l) == refs;
    } else {
      assert l == [l[0]] + l[1..];
      var rest := refs + multiset(l[1..]);
      assert refs + multiset(l) == rest + multiset{l[0]};
      FreeAccounted(s, l[0], rest);
      var s1 := FreeBlock(s, l[0]).0;
      FreeAllAccounted(s1, l[1..], refs);
      ReleasedStep(s, s1, FreeAll(s1, l[1..]).0, l, refs);
    }
  }

  lemma ReleasedStep(s: State, s1: State, t: State, l: seq<nat>, refs: multiset<nat>)
    requires l != [] && l[0] < |s.blocks|
    requires var rest := refs + multiset(l[1..]);
             && s1 == s.(blocks := s.blocks[l[0] := AfterFree(s.blocks[l[0]], true, rest[l[0]])],
                         freeStack := s1.freeStack, valid := s1.valid)
             && s.freeStack <= s1.freeStack
             && (forall n :: n in s1.valid <==>
                   n in s.valid && (n < |s.nodes| && s.nodes[n].block == Some(l[0]) ==> rest[l[0]] > 0))
    requires Released(s1, t, l[1..], refs)
    ensures Released(s, t, l, refs)
  {
    assert forall b :: b in l <==> b == l[0] || b in l[1..];
    assert forall b :: b in l[1..] <==> multiset(l[1..])[b] > 0;
  }

  // ----- Taking references for a prompt -----

  /** Block `b` is out of balance: counted but on the free stack, or counted too low. */
  predicate OutOfBalance(s: State, refs: multiset<nat>, b: nat) {
    b < |s.blocks| && ((b in s.freeStack && refs[b] > 0) || s.blocks[b].refCount < refs[b])
  }

  /** The loop's references, whether the books stay in order or not. */
  ghost predicate Balanced(w: Walk, refs: multiset<nat>) {
    AccountedFor(w.s, refs + multiset(w.held))
  }

  lemma LeafBalanced(w: Walk, id: nat, chunk: Chunk, refs: multiset<nat>)
    requires WalkOk(w) && w.ok && chunk !in w.s.nodes[w.cur].children && Balanced(w, refs)
    ensures Balanced(WalkStep(w, id, chunk), refs)
  {
    var s0 := w.s.(lookups := w.s.lookups + 1);
    if s0.freeStack != [] {
      var b := Last(s0.freeStack);
      AllocateAccounted(s0, refs + multiset(w.held));
      LabelAccounted(AllocateBlock(s0).0, id, b, true, refs + multiset(w.held) + multiset{b});
      assert multiset(w.held + [b]) == multiset(w.held) + multiset{b};
      assert refs + multiset(w.held + [b]) == refs + multiset(w.held) + multiset{b};
    }
  }

  lemma TakeBalanced(w: Walk, id: nat, refs: multiset<nat>)
    requires WalkOk(w) && w.ok && Balanced(w, refs)
    ensures Balanced(TakeBlock(w, id), refs)
  {
    if w.s.freeStack != [] {
      var b := Last(w.s.freeStack);
      AllocateAccounted(w.s, refs + multiset(w.held));
      LabelAccounted(AllocateBlock(w.s).0, id, b, false, refs + multiset(w.held) + multiset{b});
      assert refs + multiset(w.held + [b]) == refs + multiset(w.held) + multiset{b};
    }
  }

  lemma HitsBalanced(s: State, id: nat, path: Path, w: Walk, refs: multiset<nat>)
    requires PoolOk(s) && AccountedFor(s, refs) && HitPhase(s, id, path, w)
    requires forall b :: b in w.held ==> b < |s.blocks| && s.blocks[b].refCount > 0
    ensures Balanced(w, refs)
  {
    assert forall b :: b in multiset(w.held) <==> b in w.held;
  }

  lemma {:induction false} WalkBalanced(s: State, id: nat, path: Path, refs: multiset<nat>)
    requires Wf(s) && AccountedFor(s, refs) && LiveOn(s, path)
    ensures Balanced(WalkChunks(s, id, path), refs)
  {
    if Find(s.nodes, path).Some? {
      WalkHits(s, id, path);
      assert path[..|path|] == path;
      HitsBalanced(s, id, path, WalkChunks(s, id, path), refs);
    } else {
      var w := WalkChunks(s, id, Init(path));
      TakeInit(path, CachedPrefix(s.nodes, path));
      WalkBalanced(s, id, Init(path), refs);
      if w.ok {
        LastStep(s, id, path, w);
        LeafBalanced(w, id, Last(path), refs);
      }
    }
  }

  lemma LeafOutOfBalance(w: Walk, id: nat, chunk: Chunk, refs: multiset<nat>, b: nat)
    requires WalkOk(w) && w.ok && chunk !in w.s.nodes[w.cur].children
    requires OutOfBalance(w.s, refs + multiset(w.held), b)
    ensures var r := WalkStep(w, id, chunk); OutOfBalance(r.s, refs + multiset(r.held), b)
  {
    var r := WalkStep(w, id, chunk);
    if w.s.freeStack != [] {
      assert r.held == w.held + [Last(w.s.freeStack)];
      assert forall i :: 0 <= i < |Init(w.s.freeStack)| ==> Init(w.s.freeStack)[i] == w.s.freeStack[i];
    }
  }

  lemma TakeOutOfBalance(w: Walk, id: nat, refs: multiset<nat>, b: nat)
    requires WalkOk(w) && w.ok
    requires OutOfBalance(w.s, refs + multiset(w.held), b)
    ensures var r := TakeBlock(w, id); OutOfBalance(r.s, refs + multiset(r.held), b)
  {
    var r := TakeBlock(w, id);
    if w.s.freeStack != [] {
      assert r.held == w.held + [Last(w.s.freeStack)];
    }
  }

  lemma {:induction false} WalkOutOfBalance(s: State, id: nat, path: Path, refs: multiset<nat>, b: nat)
    requires Wf(s) && AccountedFor(s, refs)
    requires b in BlocksOn(s.nodes, HitPath(s.nodes, path)) && b < |s.blocks| && s.blocks[b].refCount == 0
    ensures var w := WalkChunks(s, id, path); OutOfBalance(w.s, refs + multiset(w.held), b)
  {
    if Find(s.nodes, path).Some? {
      WalkHits(s, id, path);
      assert path[..|path|] == path;
      var w := WalkChunks(s, id, path);
      assert multiset(w.held)[b] > 0;
    } else {
      var w := WalkChunks(s, id, Init(path));
      TakeInit(path, CachedPrefix(s.nodes, path));
      WalkOutOfBalance(s, id, Init(path), refs, b);
      if w.ok {
        LastStep(s, id, path, w);
        LeafOutOfBalance(w, id, Last(path), refs, b);
      }
    }
  }

  lemma {:induction false} BlocksOnInRange(s: State, path: Path)
    requires Wf(s) && Find(s.nodes, path).Some?
    ensures AllBelow(BlocksOn(s.nodes, path), |s.blocks|)
  {
    if path == [] {
    } else {
      BlocksOnInRange(s, Init(path));
      CachedIsFound(s.nodes, s.parents, |s.blocks|, path);
    }
  }

  /** Taking a prompt's blocks keeps the books in order exactly when every hit is live. */
  lemma TakePromptBalanced(s: State, id: nat, prompt: seq<u32>, refs: multiset<nat>)
    requires Wf(s) && AccountedFor(s, refs)
    ensures Balanced(TakePrompt(s, id, prompt), refs) <==> LiveHits(s, prompt)
  {
    var cs := Chunks(prompt, s.cfg.blockSize);
    var w := WalkChunks(s, id, cs);
    var r := TakePrompt(s, id, prompt);
    if LiveHits(s, prompt) {
      WalkBalanced(s, id, cs, refs);
      if w.ok { TakeBalanced(w, id, refs); }
    } else {
      CachedPrefixIsLongest(s.nodes, cs, CachedPrefix(s.nodes, cs));
      BlocksOnInRange(s, HitPath(s.nodes, cs));
      var b :| b in HitBlocks(s, prompt) && s.blocks[b].refCount == 0;
      WalkOutOfBalance(s, id, cs, refs, b);
      if w.ok { TakeOutOfBalance(w, id, refs, b); }
      assert OutOfBalance(r.s, refs + multiset(r.held), b);
    }
  }
}
