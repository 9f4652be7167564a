/** Every call keeps the prefix cache sound as long as prefix hits land on valid nodes. */
module SharingRuns {
  import opened Prelude
  import opened BlockSpace
  import opened PrefixTrie
  import opened Accounting
  import opened Runs
  import opened PrefixSharing

  lemma InitSound(cfg: Config)
    requires cfg.blockSize > 0
    ensures CacheSound(InitState(cfg))
  {
    assert forall l :: !Holder(InitState(cfg), l);
  }

  // ----- Calls that leave the trie alone -----

  /** Same trie, same cached flags. */
  ghost predicate SameTrie(s: State, t: State) {
    && t.cfg == s.cfg && t.nodes == s.nodes && t.parents == s.parents && t.valid == s.valid && |t.blocks| == |s.blocks|
    && (forall b :: 0 <= b < |s.blocks| ==> t.blocks[b].isPrefixCached == s.blocks[b].isPrefixCached)
  }

  lemma ValidOkKept(s: State, t: State, refs: multiset<nat>, more: multiset<nat>)
    requires SameTrie(s, t) && ValidOk(s, refs) && refs <= more
    ensures ValidOk(t, more)
  {
    assert forall n :: n in t.valid ==> NodeLive(s, refs, n);
  }

  /** Blocks that no reference counts extend a chain freely. */
  lemma FreshChain(s: State, l: seq<nat>, extra: seq<nat>, refs: multiset<nat>)
    requires ValidOk(s, refs) && Chain(s, l)
    requires forall b :: b in extra ==> refs[b] == 0
    ensures Chain(s, l + extra)
  {
    var r := l + extra;
    assert forall j :: |l| <= j < |r| ==> r[j] in extra;
    forall n, i | n in s.valid && 0 <= i < |r| && r[i] == BlockOf(s.nodes, n) ensures Link(s, r, n, i) {
      assert NodeLive(s, refs, n);
      assert r[i] !in extra;
      assert l[i] == r[i] && Link(s, l, n, i);
    }
  }

  /** Same trie and no new list but `l`: the chains stay chains. */
  lemma ChainsKept(s: State, t: State, l: seq<nat>)
    requires t.nodes == s.nodes && t.parents == s.parents && t.valid == s.valid
    requires ChainsOk(s) && Chain(s, l)
    requires forall k :: Holder(t, k) ==> k == l || Holder(s, k)
    ensures ChainsOk(t)
  {
    forall k | Holder(t, k) ensures Chain(t, k) {
      assert Chain(s, k);
    }
  }

  /** A table insertion adds no list but its own. */
  lemma HoldersAfterPut(s: State, r: State, id: nat, t: PageTable, k: seq<nat>)
    requires r.tables == s.tables[id := t] && r.loose == AddLoose(s.loose, Stranded(s, id)) && Holder(r, k)
    ensures k == t.blockIds || Holder(s, k)
  {
    if k in r.loose {
      if k !in s.loose { assert s.tables[id].blockIds == k; }
    } else {
      var j :| j in r.tables && r.tables[j].blockIds == k;
      if j != id { assert j in s.tables && s.tables[j].blockIds == k; }
    }
  }

  lemma PutPrompts(s: State, r: State, id: nat, t: PageTable, p: Option<seq<u32>>)
    requires PromptsOk(s) && s.cfg.blockSize > 0
    requires r.nodes == s.nodes && r.valid == s.valid && r.cfg == s.cfg && r.tables == s.tables[id := t]
    requires r.prompts == if p.Some? then s.prompts[id := p.value] else s.prompts - {id}
    requires p.Some? ==> Covers(s, t.blockIds, Chunks(p.value, s.cfg.blockSize))
    ensures PromptsOk(r)
  {
    forall k | k in r.prompts ensures PromptOk(r, k) {
      if k != id { assert PromptOk(s, k); }
    }
  }

  lemma PutTableSound(s: State, u: State, id: nat, t: PageTable, p: Option<seq<u32>>)
    requires CacheSound(s) && Wf(u) && SameTrie(s, u)
    requires u.tables == s.tables && u.loose == s.loose && u.prompts == s.prompts
    requires AllBelow(t.blockIds, |u.blocks|) && Chain(s, t.blockIds)
    requires p.Some? ==> Covers(s, t.blockIds, Chunks(p.value, u.cfg.blockSize))
    ensures CacheSound(PutTable(u, id, t, p))
  {
    var r := PutTable(u, id, t, p);
    PutTableHeld(u, id, t, p);
    assert Held(s) <= Held(r);
    ValidOkKept(s, r, Held(s), Held(r));
    forall k | Holder(r, k) ensures k == t.blockIds || Holder(s, k) {
      HoldersAfterPut(s, r, id, t, k);
    }
    ChainsKept(s, r, t.blockIds);
    PutPrompts(s, r, id, t, p);
  }

  lemma RegisterSound(s: State, id: nat)
    requires Wf(s) && CacheSound(s)
    ensures CacheSound(RegisterSequence(s, id))
  {
    PutTableSound(s, s, id, PageTable(0, []), None);
  }

  lemma ForkSound(s: State, parent: nat, child: nat)
    requires Wf(s) && CacheSound(s)
    ensures CacheSound(ForkSequence(s, parent, child).0)
  {
    if parent in s.tables {
      var t := s.tables[parent];
      assert Holder(s, t.blockIds);
      ShareCounts(s.blocks, t.blockIds);
      var p := if parent in s.prompts then Some(s.prompts[parent]) else None;
      PutTableSound(s, s.(blocks := Share(s.blocks, t.blockIds)), child, t, p);
    }
  }

  lemma AllocateOpSound(s: State)
    requires Wf(s) && Accounted(s) && CacheSound(s)
    ensures CacheSound(Step(s, Allocate))
  {
    var (t, r) := AllocateBlock(s);
    if r.Ok? {
      AllocateAccounted(s, Held(s));
      LooseSound(s, t, [r.value]);
    }
  }

  /** Stranding a list of blocks that nothing referred to before. */
  lemma LooseSound(s: State, u: State, extra: seq<nat>)
    requires CacheSound(s) && SameTrie(s, u)
    requires u.tables == s.tables && u.loose == s.loose && u.prompts == s.prompts
    requires forall b :: b in extra ==> Held(s)[b] == 0
    ensures CacheSound(u.(loose := AddLoose(s.loose, extra)))
  {
    var r := u.(loose := AddLoose(s.loose, extra));
    AddLooseRefs(s.loose, extra);
    assert Held(s) <= Held(r);
    ValidOkKept(s, r, Held(s), Held(r));
    FreshChain(s, [], extra, Held(s));
    assert [] + extra == extra;
    ChainsKept(s, r, extra);
    PromptsKept(s, r);
  }

  lemma PromptsKept(s: State, r: State)
    requires PromptsOk(s)
    requires r.nodes == s.nodes && r.valid == s.valid && r.cfg == s.cfg && r.tables == s.tables
    requires r.prompts.Keys <= s.prompts.Keys && forall k :: k in r.prompts ==> r.prompts[k] == s.prompts[k]
    ensures PromptsOk(r)
  {
    forall k | k in r.prompts ensures PromptOk(r, k) {
      assert PromptOk(s, k);
    }
  }

  /** A block taken from the free stack was blank and stays unflagged. */
  lemma TakeFlags(w: Walk, id: nat, refs: multiset<nat>)
    requires WalkOk(w) && w.ok && AccountedFor(w.s, refs)
    ensures SameTrie(w.s, TakeBlock(w, id).s)
  {
  }

  /** Blocks on the free stack are counted nowhere. */
  lemma TopIsFresh(s: State, refs: multiset<nat>, x: nat)
    requires PoolOk(s) && AccountedFor(s, refs) && x <= |s.freeStack|
    ensures forall b :: b in Top(s.freeStack, x) ==> refs[b] == 0 && b in s.freeStack
  {
  }

  /** An append that gets as far as allocating takes blocks nothing refers to, and changes the pool only. */
  lemma AppendTakes(s: State, id: nat, n: nat)
    requires Wf(s) && Accounted(s) && AppendProceeds(s, id, n)
    ensures var w := AllocateMany(s, id, Wanted(s, id, n));
            && SameTrie(s, w.s) && w.s.tables == s.tables && w.s.loose == s.loose && w.s.prompts == s.prompts
            && (forall b :: b in w.held ==> Held(s)[b] == 0)
  {
    var k := Wanted(s, id, n);
    AllocateManyBlocks(s, id, k);
    AllocateManyShape(s, id, k);
    TopIsFresh(s, Held(s), Min(k, |s.freeStack|));
  }

  lemma AppendSound(s: State, id: nat, n: nat)
    requires Wf(s) && Accounted(s) && CacheSound(s)
    ensures CacheSound(AppendTokens(s, id, n).0)
  {
    if AppendProceeds(s, id, n) {
      AppendTakes(s, id, n);
      AppendKeepsSound(s, AllocateMany(s, id, Wanted(s, id, n)), id, s.tables[id].logicalTokens + n,
                       AppendTokens(s, id, n).0);
    }
  }

  /** Whether the blocks end up in the table or stranded. */
  lemma AppendKeepsSound(s: State, w: Walk, id: nat, tokens: nat, t: State)
    requires CacheSound(s) && WalkOk(w) && SameTrie(s, w.s) && id in s.tables
    requires w.s.tables == s.tables && w.s.loose == s.loose && w.s.prompts == s.prompts
    requires forall b :: b in w.held ==> Held(s)[b] == 0
    requires t == FinishAppend(w, id, tokens)
    ensures CacheSound(t)
  {
    if w.ok {
      ExtendSound(s, w.s, id, tokens, w.held);
    } else {
      LooseSound(s, w.s, w.held);
    }
  }

  lemma ExtendSound(s: State, u: State, id: nat, tokens: nat, extra: seq<nat>)
    requires CacheSound(s) && SameTrie(s, u) && id in s.tables
    requires u.tables == s.tables && u.loose == s.loose && u.prompts == s.prompts
    requires forall b :: b in extra ==> Held(s)[b] == 0
    ensures CacheSound(u.(tables := s.tables[id := PageTable(tokens, s.tables[id].blockIds + extra)]))
  {
    var before := s.tables[id].blockIds;
    var r := u.(tables := s.tables[id := PageTable(tokens, before + extra)]);
    TableRefsExtend(s.tables, id, tokens, extra);
    assert Held(s) <= Held(r);
    ValidOkKept(s, r, Held(s), Held(r));
    assert Holder(s, before);
    FreshChain(s, before, extra, Held(s));
    forall k | Holder(r, k) ensures k == before + extra || Holder(s, k) {
      TableHoldersAfterUpdate(s, r, id, before + extra, k);
    }
    ChainsKept(s, r, before + extra);
    ExtendPrompts(s, r, id, extra);
  }

  lemma TableHoldersAfterUpdate(s: State, r: State, id: nat, l: seq<nat>, k: seq<nat>)
    requires r.loose == s.loose && r.tables.Keys <= s.tables.Keys + {id}
    requires forall j :: j in r.tables ==> if j == id then r.tables[j].blockIds == l else r.tables[j] == s.tables[j]
    requires Holder(r, k)
    ensures k == l || Holder(s, k)
  {
    if k !in r.loose {
      var j :| j in r.tables && r.tables[j].blockIds == k;
      if j != id { assert j in s.tables && s.tables[j].blockIds == k; }
    }
  }

  lemma ExtendPrompts(s: State, r: State, id: nat, extra: seq<nat>)
    requires PromptsOk(s) && id in s.tables
    requires r.nodes == s.nodes && r.valid == s.valid && r.cfg == s.cfg && r.prompts == s.prompts
    requires r.tables.Keys == s.tables.Keys && r.tables[id].blockIds == s.tables[id].blockIds + extra
    requires forall j :: j in s.tables && j != id ==> r.tables[j] == s.tables[j]
    ensures PromptsOk(r)
  {
    forall k | k in r.prompts ensures PromptOk(r, k) {
      assert PromptOk(s, k);
      if k == id {
        var path := Chunks(s.prompts[k], s.cfg.blockSize);
        assert r.tables[k].blockIds[..|path|] == s.tables[k].blockIds[..|path|];
      }
    }
  }

  // ----- Calls that give references back -----

  /** Giving back `l`: what is left of the valid nodes is sound. */
  lemma ReleaseSound(c: State, t: State, l: seq<nat>)
    requires Wf(c) && Wf(t) && AccountedFor(c, Held(c) + multiset(l)) && AccountedFor(t, Held(c))
    requires ValidOk(c, Held(c) + multiset(l)) && ChainsOk(c) && PromptsOk(c)
    requires Released(c, t, l, Held(c))
    ensures CacheSound(t)
  {
    assert Held(t) == Held(c);
    forall n ensures n in t.valid <==> n in c.valid && Held(c)[BlockOf(c.nodes, n)] > 0 {
      if n in c.valid {
        assert NodeLive(c, Held(c) + multiset(l), n);
      }
    }
    forall k | Holder(t, k) ensures Chain(t, k) {
      assert Holder(c, k) && Chain(c, k);
      ReleasedChain(c, t, k);
    }
    forall n | n in t.valid ensures NodeLive(t, Held(t), n) {
      assert NodeLive(c, Held(c) + multiset(l), n);
      var k := SomeHolder(c, BlockOf(c.nodes, n));
      var i :| 0 <= i < |k| && k[i] == BlockOf(c.nodes, n);
      assert Holder(t, k) && Chain(t, k) && Link(t, k, n, i);
    }
    ReleasedFlags(c, t, l);
    ReleasedPrompts(c, t);
  }

  lemma ReleasedChain(c: State, t: State, k: seq<nat>)
    requires t.nodes == c.nodes && t.parents == c.parents
    requires forall n :: n in t.valid <==> n in c.valid && Held(c)[BlockOf(c.nodes, n)] > 0
    requires Holder(c, k) && Chain(c, k)
    ensures Chain(t, k)
  {
    HolderCounts(c, k);
    forall n, i | n in t.valid && 0 <= i < |k| && k[i] == BlockOf(t.nodes, n) ensures Link(t, k, n, i) {
      assert Link(c, k, n, i);
      if i > 0 { assert multiset(k)[k[i - 1]] > 0; }
    }
  }

  lemma ReleasedFlags(c: State, t: State, l: seq<nat>)
    requires AccountedFor(c, Held(c) + multiset(l)) && ValidOk(c, Held(c) + multiset(l))
    requires Released(c, t, l, Held(c)) && t.nodes == c.nodes
    requires forall n :: n in t.valid <==> n in c.valid && Held(c)[BlockOf(c.nodes, n)] > 0
    ensures FlagsOk(t)
  {
    forall b | 0 <= b < |t.blocks|
      ensures t.blocks[b].isPrefixCached <==> exists n :: n in t.valid && BlockOf(t.nodes, n) == b
    {
      if n :| n in c.valid && BlockOf(c.nodes, n) == b {
        assert NodeLive(c, Held(c) + multiset(l), n);
        assert multiset(l)[b] > 0 <==> b in l;
        assert n in t.valid <==> Held(c)[b] > 0;
      }
    }
  }

  lemma {:induction false} NodesOnBlocks(s: State, path: Path, n: nat)
    requires Wf(s) && Find(s.nodes, path).Some? && n in NodesOn(s.nodes, path)
    ensures BlockOf(s.nodes, n) in BlocksOn(s.nodes, path)
  {
    FindInRange(s.nodes, s.parents, |s.blocks|, path);
    if n == Find(s.nodes, path).GetOr(0) {
    } else {
      NodesOnBlocks(s, Init(path), n);
    }
  }

  lemma ReleasedPrompts(c: State, t: State)
    requires Wf(c) && t.nodes == c.nodes && t.parents == c.parents && t.tables == c.tables && t.prompts == c.prompts
             && t.cfg == c.cfg
    requires forall n :: n in t.valid <==> n in c.valid && Held(c)[BlockOf(c.nodes, n)] > 0
    requires PromptsOk(c)
    ensures PromptsOk(t)
  {
    forall id | id in t.prompts ensures PromptOk(t, id) {
      assert PromptOk(c, id);
      var path := Chunks(c.prompts[id], c.cfg.blockSize);
      var l := c.tables[id].blockIds;
      assert Covers(c, l, path);
      TableCounts(c.tables, id);
      forall n | n in NodesOn(t.nodes, path) ensures n in t.valid {
        NodesOnBlocks(c, path, n);
        assert BlockOf(c.nodes, n) in l[..|path|];
        assert BlockOf(c.nodes, n) in l;
        assert multiset(l)[BlockOf(c.nodes, n)] > 0;
      }
    }
  }

  lemma {:induction false} OnPathPrefix(nodes: seq<TrieNode>, path: Path, k: nat)
    requires k <= |path|
    ensures NodesOn(nodes, path[..k]) == NodesOn(nodes, path)[..k]
    ensures BlocksOn(nodes, path[..k]) == BlocksOn(nodes, path)[..k]
  {
    if k == |path| {
      assert path[..k] == path;
    } else {
      OnPathPrefix(nodes, Init(path), k);
      TakeInit(path, k);
    }
  }

  lemma CoversPrefix(s: State, l: seq<nat>, path: Path, k: nat, keep: nat)
    requires Covers(s, l, path) && k <= |path| && k <= keep <= |l|
    ensures Covers(s, l[..keep], path[..k])
  {
    OnPathPrefix(s.nodes, path, k);
    FindPrefixClosed(s.nodes, path, k);
    assert l[..keep][..k] == l[..|path|][..k];
  }

  lemma ChunksPrefix(p: seq<u32>, blockSize: nat, m: nat)
    requires blockSize > 0 && m <= |p|
    ensures PageOf(m, blockSize) <= PageOf(|p|, blockSize)
    ensures Chunks(p[..m], blockSize) == Chunks(p, blockSize)[..PageOf(m, blockSize)]
  {
    FloorMonotone(m, |p|, blockSize);
    forall i: nat | i < PageOf(m, blockSize) ensures Chunks(p[..m], blockSize)[i] == Chunks(p, blockSize)[i] {
      ChunkOfPrefix(p, blockSize, m, i);
    }
  }

  lemma ChunkOfPrefix(p: seq<u32>, blockSize: nat, m: nat, i: nat)
    requires blockSize > 0 && m <= |p| && i < PageOf(m, blockSize) <= PageOf(|p|, blockSize)
    ensures ChunkAt(p[..m], blockSize, i) == ChunkAt(p, blockSize, i)
  {
    FullPageInRange(|p[..m]|, blockSize, i);
    var at := i * blockSize;
    assert p[..m][at..at + blockSize] == p[at..at + blockSize];
  }

  lemma CutSound(s: State, id: nat, retain: nat)
    requires Wf(s) && CacheSound(s) && id in s.tables
    ensures var c := CutTable(s, id, retain);
            ValidOk(c, Held(c) + multiset(Dropped(s, id, retain))) && ChainsOk(c) && PromptsOk(c)
  {
    var c := CutTable(s, id, retain);
    CutTableHeld(s, id, retain);
    ValidOkKept(s, c, Held(s), Held(s));
    var l := s.tables[id].blockIds;
    var keep := Min(BlocksFor(retain, s.cfg.blockSize), |l|);
    assert Holder(s, l);
    ChainPrefix(s, l, keep);
    forall k | Holder(c, k) ensures k == l[..keep] || Holder(s, k) {
      TableHoldersAfterUpdate(s, c, id, l[..keep], k);
    }
    ChainsKept(s, c, l[..keep]);
    CutPrompts(s, id, retain);
  }

  lemma CutPrompts(s: State, id: nat, retain: nat)
    requires Wf(s) && PromptsOk(s) && id in s.tables
    ensures PromptsOk(CutTable(s, id, retain))
  {
    var c := CutTable(s, id, retain);
    forall k | k in c.prompts ensures PromptOk(c, k) {
      assert PromptOk(s, k);
      if k == id { CutCovers(s, id, retain); }
    }
  }

  lemma ChainPrefix(s: State, l: seq<nat>, keep: nat)
    requires Chain(s, l) && keep <= |l|
    ensures Chain(s, l[..keep])
  {
    forall n, i | n in s.valid && 0 <= i < keep && l[..keep][i] == BlockOf(s.nodes, n)
        ensures Link(s, l[..keep], n, i) {
      assert Link(s, l, n, i);
    }
  }

  lemma CutCovers(s: State, id: nat, retain: nat)
    requires Wf(s) && id in s.tables && id in s.prompts
    requires Covers(s, s.tables[id].blockIds, Chunks(s.prompts[id], s.cfg.blockSize))
    ensures var c := CutTable(s, id, retain);
            Covers(s, c.tables[id].blockIds, Chunks(c.prompts[id], s.cfg.blockSize))
  {
    var bs := s.cfg.blockSize;
    var p := s.prompts[id];
    var m := Min(retain, |p|);
    var l := s.tables[id].blockIds;
    var keep := Min(BlocksFor(retain, bs), |l|);
    ChunksPrefix(p, bs, m);
    BlocksForFloor(retain, bs);
    FloorMonotone(m, retain, bs);
    CoversPrefix(s, l, Chunks(p, bs), PageOf(m, bs), keep);
  }

  lemma RollbackSound(s: State, id: nat, retain: nat)
    requires Wf(s) && Accounted(s) && CacheSound(s)
    ensures CacheSound(RollbackSequence(s, id, retain).0)
  {
    RollbackAccounted(s, id, retain);
    if id in s.tables {
      var c := CutTable(s, id, retain);
      CutTableHeld(s, id, retain);
      CutSound(s, id, retain);
      ReleaseSound(c, RollbackSequence(s, id, retain).0, Dropped(s, id, retain));
    }
  }

  lemma FreeSequenceSound(s: State, id: nat)
    requires Wf(s) && Accounted(s) && CacheSound(s)
    ensures CacheSound(FreeSequence(s, id).0)
  {
    FreeSequenceAccounted(s, id);
    if id in s.tables {
      var c := RemoveTable(s, id);
      var l := s.tables[id].blockIds;
      RemoveTableHeld(s, id);
      ValidOkKept(s, c, Held(s), Held(s));
      forall k | Holder(c, k) ensures k == l || Holder(s, k) {
        TableHoldersAfterUpdate(s, c, id, l, k);
      }
      assert Holder(s, l);
      ChainsKept(s, c, l);
      RemovePrompts(s, c, id);
      ReleaseSound(c, FreeSequence(s, id).0, l);
    }
  }

  lemma RemovePrompts(s: State, c: State, id: nat)
    requires PromptsOk(s) && c.nodes == s.nodes && c.valid == s.valid && c.cfg == s.cfg
    requires c.tables == s.tables - {id} && c.prompts == s.prompts - {id}
    ensures PromptsOk(c)
  {
    forall k | k in c.prompts ensures PromptOk(c, k) {
      assert PromptOk(s, k);
    }
  }

  lemma DropLooseKeeps(loose: seq<seq<nat>>, l: seq<nat>, k: seq<nat>)
    requires k in DropLoose(loose, l)
    ensures k in loose
  {
    if loose[0] == l || loose[0] == k {
    } else {
      DropLooseKeeps(loose[1..], l, k);
    }
  }

  lemma FreeOpSound(s: State, b: nat)
    requires Wf(s) && Accounted(s) && CacheSound(s) && Disciplined(s, Free(b))
    ensures CacheSound(Step(s, Free(b)))
  {
    if [b] in s.loose {
      DropLooseOk(s.loose, [b], |s.blocks|);
      var c := s.(loose := DropLoose(s.loose, [b]));
      DropLooseRefs(s.loose, [b]);
      assert Held(c) + multiset([b]) == Held(s);
      ValidOkKept(s, c, Held(s), Held(s));
      forall k | Holder(c, k) ensures k == [b] || Holder(s, k) {
        if k in c.loose { DropLooseKeeps(s.loose, [b], k); }
      }
      assert Holder(s, [b]);
      ChainsKept(s, c, [b]);
      PromptsKept(s, c);
      FreeAllAccounted(c, [b], Held(c));
      FreeOpIsFreeAll(s, c, b);
      ReleaseSound(c, Step(s, Free(b)), [b]);
    } else {
      DropLooseNothing(s.loose, [b]);
    }
  }

  lemma {:induction false} DropLooseNothing(loose: seq<seq<nat>>, l: seq<nat>)
    requires l !in loose
    ensures DropLoose(loose, l) == loose
  {
    if loose == [] {
    } else {
      DropLooseNothing(loose[1..], l);
    }
  }

  lemma FreeOpIsFreeAll(s: State, c: State, b: nat)
    requires Wf(s) && Wf(c) && c == s.(loose := DropLoose(s.loose, [b])) && FreeAll(c, [b]).1.Ok?
    ensures FreeAll(c, [b]).0 == Step(s, Free(b))
  {
    var (t, r) := FreeBlock(c, b);
    assert FreeAll(c, [b]) == if r.Err? then (t, r) else FreeAll(t, []);
    assert FreeBlock(s, b) == (t.(loose := s.loose), r);
  }
}
