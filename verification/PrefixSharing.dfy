/**
 What the trie's live part guarantees: sequences share a block exactly when their prompts agree up to
 and including that block, and reference counts dominate those below them.

 A node is valid while its block has not gone back to the pool since the node was made. The program
 never removes a node, so hits on nodes that are no longer valid are what the properties exclude.
 */
module PrefixSharing {
  import opened Prelude
  import opened BlockSpace
  import opened PrefixTrie
  import opened Accounting

  function BlockOf(nodes: seq<TrieNode>, n: nat): nat {
    if n < |nodes| then nodes[n].block.GetOr(0) else 0
  }

  // ----- Lists of blocks that follow the trie -----

  /** Where a list holds a valid node's block, it holds the parent's block just before. */
  ghost predicate Link(s: State, l: seq<nat>, n: nat, i: nat)
    requires i < |l|
  {
    && n < |s.parents|
    && (i == 0 <==> s.parents[n] == 0)
    && (i > 0 ==> s.parents[n] in s.valid && l[i - 1] == BlockOf(s.nodes, s.parents[n]))
  }

  ghost predicate Chain(s: State, l: seq<nat>) {
    forall n, i :: n in s.valid && 0 <= i < |l| && l[i] == BlockOf(s.nodes, n) ==> Link(s, l, n, i)
  }

  /** `l` is the block list of a table or a list of stranded references. */
  ghost predicate Holder(s: State, l: seq<nat>) {
    (exists id :: id in s.tables && s.tables[id].blockIds == l) || l in s.loose
  }

  lemma {:induction false} TableCounts(tables: map<nat, PageTable>, id: nat)
    requires id in tables
    ensures multiset(tables[id].blockIds) <= TableRefs(tables)
  {
    TableRefsRemove(tables, id);
  }

  lemma {:induction false} LooseCounts(loose: seq<seq<nat>>, l: seq<nat>)
    requires l in loose
    ensures multiset(l) <= LooseRefs(loose)
  {
    if loose[0] == l {
    } else {
      LooseCounts(loose[1..], l);
    }
  }

  lemma HolderCounts(s: State, l: seq<nat>)
    requires Holder(s, l)
    ensures multiset(l) <= Held(s)
  {
    if id :| id in s.tables && s.tables[id].blockIds == l {
      TableCounts(s.tables, id);
    } else {
      LooseCounts(s.loose, l);
    }
  }

  lemma {:induction false} LooseHolds(loose: seq<seq<nat>>, b: nat) returns (l: seq<nat>)
    requires LooseRefs(loose)[b] > 0
    ensures l in loose && b in l
  {
    if b in loose[0] {
      l := loose[0];
    } else {
      assert multiset(loose[0])[b] == 0;
      l := LooseHolds(loose[1..], b);
    }
  }

  lemma {:induction false} TableHolds(tables: map<nat, PageTable>, b: nat) returns (id: nat)
    requires TableRefs(tables)[b] > 0
    ensures id in tables && b in tables[id].blockIds
    decreases |tables|
  {
    var k :| k in tables && TableRefs(tables) == multiset(tables[k].blockIds) + TableRefs(tables - {k});
    if b in tables[k].blockIds {
      id := k;
    } else {
      assert multiset(tables[k].blockIds)[b] == 0;
      id := TableHolds(tables - {k}, b);
    }
  }

  lemma SomeHolder(s: State, b: nat) returns (l: seq<nat>)
    requires Held(s)[b] > 0
    ensures Holder(s, l) && b in l
  {
    if TableRefs(s.tables)[b] > 0 {
      var id := TableHolds(s.tables, b);
      l := s.tables[id].blockIds;
    } else {
      l := LooseHolds(s.loose, b);
    }
  }

  // ----- The invariant -----

  ghost predicate NodeLive(s: State, refs: multiset<nat>, n: nat) {
    && 0 < n < |s.nodes| == |s.parents|
    && s.nodes[n].block.Some?
    && refs[BlockOf(s.nodes, n)] > 0
    && (s.parents[n] == 0 || s.parents[n] in s.valid)
  }

  /**
   Neither a valid node nor a later one names a valid node's block: new nodes get free blocks, which no
   valid node names.
   */
  ghost predicate Distinguished(s: State) {
    forall n, m :: n in s.valid && (m in s.valid || n <= m < |s.nodes|) && BlockOf(s.nodes, n) == BlockOf(s.nodes, m)
      ==> n == m
  }

  /** The cached flag is set exactly on the blocks of valid nodes. */
  ghost predicate FlagsOk(s: State) {
    forall b :: 0 <= b < |s.blocks| ==>
      (s.blocks[b].isPrefixCached <==> exists n :: n in s.valid && BlockOf(s.nodes, n) == b)
  }

  /** Valid nodes hang together, own distinct blocks and are counted. */
  ghost predicate ValidOk(s: State, refs: multiset<nat>) {
    && (forall n :: n in s.valid ==> NodeLive(s, refs, n))
    && Distinguished(s)
    && FlagsOk(s)
  }

  /** A table's first blocks are those of the valid nodes along `path`. */
  ghost predicate Covers(s: State, l: seq<nat>, path: Path) {
    && |path| <= |l|
    && Find(s.nodes, path).Some?
    && l[..|path|] == BlocksOn(s.nodes, path)
    && (forall n :: n in NodesOn(s.nodes, path) ==> n in s.valid)
  }

  ghost predicate PromptOk(s: State, id: nat)
    requires id in s.prompts
  {
    id in s.tables && s.cfg.blockSize > 0 && Covers(s, s.tables[id].blockIds, Chunks(s.prompts[id], s.cfg.blockSize))
  }

  ghost predicate PromptsOk(s: State) {
    forall id :: id in s.prompts ==> PromptOk(s, id)
  }

  ghost predicate ChainsOk(s: State) {
    forall l :: Holder(s, l) ==> Chain(s, l)
  }

  ghost predicate CacheSound(s: State) {
    && ValidOk(s, Held(s))
    && ChainsOk(s)
    && PromptsOk(s)
  }

  // ----- Validity in program fields -----

  /** The node's block is flagged as cached, and no later node names it. */
  predicate Current(s: State, n: nat) {
    && 0 < n < |s.nodes| && BlockOf(s.nodes, n) < |s.blocks|
    && s.blocks[BlockOf(s.nodes, n)].isPrefixCached
    && (forall m :: n < m < |s.nodes| ==> BlockOf(s.nodes, m) != BlockOf(s.nodes, n))
  }

  /** In a sound state the nodes whose block never went back to the pool are those that the program can tell. */
  lemma ValidIffCurrent(s: State, n: nat)
    requires Wf(s) && CacheSound(s) && 0 < n < |s.nodes|
    ensures n in s.valid <==> Current(s, n)
  {
    assert NodeOk(s.nodes, s.parents, |s.blocks|, n);
    var b := BlockOf(s.nodes, n);
    if v :| v in s.valid && BlockOf(s.nodes, v) == b {
      assert v <= n ==> v == n;
    }
  }

  // ----- Sharing -----

  lemma {:induction false} ChunksAgree(p: seq<u32>, q: seq<u32>, blockSize: nat, k: nat)
    requires blockSize > 0 && k <= PageOf(|p|, blockSize) && k <= PageOf(|q|, blockSize)
    ensures var n := TokensIn(k, blockSize);
            && n <= |p| && n <= |q|
            && (Chunks(p, blockSize)[..k] == Chunks(q, blockSize)[..k] <==> p[..n] == q[..n])
    decreases k
  {
    if k == 0 {
    } else {
      FullPageInRange(|p|, blockSize, k - 1);
      FullPageInRange(|q|, blockSize, k - 1);
      ChunksAgree(p, q, blockSize, k - 1);
      OnePageMore(k - 1, blockSize);
      OneMoreChunk(p, q, Chunks(p, blockSize), Chunks(q, blockSize), k - 1, TokensIn(k - 1, blockSize), blockSize);
    }
  }

  lemma OneMoreChunk(p: seq<u32>, q: seq<u32>, cp: Path, cq: Path, k: nat, at: nat, n: nat)
    requires at + n <= |p| && at + n <= |q| && k < |cp| && k < |cq|
    requires cp[k] == p[at..at + n] && cq[k] == q[at..at + n]
    requires cp[..k] == cq[..k] <==> p[..at] == q[..at]
    ensures cp[..k + 1] == cq[..k + 1] <==> p[..at + n] == q[..at + n]
  {
    PrefixesAgree(cp, cq, k, 1);
    PrefixesAgree(p, q, at, n);
    assert cp[k..k + 1] == [cp[k]] && cq[k..k + 1] == [cq[k]];
  }

  /** Longer prefixes agree when the shorter ones and the pieces in between do. */
  lemma PrefixesAgree<T>(a: seq<T>, b: seq<T>, i: nat, n: nat)
    requires i + n <= |a| && i + n <= |b|
    ensures a[..i + n] == b[..i + n] <==> a[..i] == b[..i] && a[i..i + n] == b[i..i + n]
  {
    assert a[..i + n] == a[..i] + a[i..i + n];
    assert b[..i + n] == b[..i] + b[i..i + n];
  }

  /** What covering means at one chunk. */
  lemma CoversAt(s: State, l: seq<nat>, path: Path, i: nat)
    requires Covers(s, l, path) && i < |path|
    ensures var n := Find(s.nodes, path[..i + 1]);
            n.Some? && n.value in s.valid && l[i] == Cached(s.nodes, path[..i + 1]).GetOr(0)
  {
    OnPathAt(s.nodes, path, i);
    FindPrefixClosed(s.nodes, path, i + 1);
    assert NodesOn(s.nodes, path)[i] in NodesOn(s.nodes, path);
    assert l[i] == l[..|path|][i];
  }

  /** Two covered lists hold the same block at chunk `i` exactly when the paths agree that far. */
  lemma SharingByChunks(s: State, la: seq<nat>, lb: seq<nat>, pa: Path, pb: Path, i: nat)
    requires TrieOk(s.nodes, s.parents, |s.blocks|) && ValidOk(s, Held(s))
    requires Covers(s, la, pa) && Covers(s, lb, pb) && i < |pa| && i < |pb|
    ensures la[i] == lb[i] <==> pa[..i + 1] == pb[..i + 1]
  {
    CoversAt(s, la, pa, i);
    CoversAt(s, lb, pb, i);
    var na, nb := Find(s.nodes, pa[..i + 1]).value, Find(s.nodes, pb[..i + 1]).value;
    assert NodeLive(s, Held(s), na) && NodeLive(s, Held(s), nb);
    if la[i] == lb[i] {
      assert BlockOf(s.nodes, na) == BlockOf(s.nodes, nb);
      FindIsInjective(s.nodes, s.parents, |s.blocks|, pa[..i + 1], pb[..i + 1]);
    }
  }

  /**
   Prefix sharing is sound and complete: two admitted sequences hold the same block at full chunk `i`
   exactly when their prompts agree on all tokens of the first i + 1 chunks.
   */
  lemma SharingIsExact(s: State, a: nat, b: nat, i: nat)
    requires Wf(s) && CacheSound(s) && a in s.prompts && b in s.prompts
    requires i < PageOf(|s.prompts[a]|, s.cfg.blockSize) && i < PageOf(|s.prompts[b]|, s.cfg.blockSize)
    ensures a in s.tables && b in s.tables && i < |s.tables[a].blockIds| && i < |s.tables[b].blockIds|
    ensures var n := TokensIn(i + 1, s.cfg.blockSize);
            && n <= |s.prompts[a]| && n <= |s.prompts[b]|
            && (s.tables[a].blockIds[i] == s.tables[b].blockIds[i] <==> s.prompts[a][..n] == s.prompts[b][..n])
  {
    ChunksAgree(s.prompts[a], s.prompts[b], s.cfg.blockSize, i + 1);
    assert PromptOk(s, a) && PromptOk(s, b);
    SharingByChunks(s, s.tables[a].blockIds, s.tables[b].blockIds,
                    Chunks(s.prompts[a], s.cfg.blockSize), Chunks(s.prompts[b], s.cfg.blockSize), i);
  }

  // ----- Domination -----

  /** References counted on the blocks of the valid children of `n` among the first `k` nodes. */
  ghost function ChildRefs(s: State, refs: multiset<nat>, n: nat, k: nat): nat
    requires k <= |s.parents|
  {
    if k == 0 then 0
    else ChildRefs(s, refs, n, k - 1)
         + (if k - 1 in s.valid && s.parents[k - 1] == n then refs[BlockOf(s.nodes, k - 1)] else 0)
  }

  lemma {:induction false} ChildRefsAdd(s: State, x: multiset<nat>, y: multiset<nat>, n: nat, k: nat)
    requires k <= |s.parents|
    ensures ChildRefs(s, x + y, n, k) == ChildRefs(s, x, n, k) + ChildRefs(s, y, n, k)
  {
    if k == 0 {
    } else {
      ChildRefsAdd(s, x, y, n, k - 1);
    }
  }

  /** One reference counts for at most one child. */
  lemma {:induction false} ChildRefsOne(s: State, b: nat, n: nat, k: nat)
    requires k <= |s.parents| && Distinguished(s)
    ensures var c := ChildRefs(s, multiset{b}, n, k);
            c == 0 || (c == 1 && exists m :: m in s.valid && m < k && s.parents[m] == n && BlockOf(s.nodes, m) == b)
  {
    if k == 0 {
    } else {
      ChildRefsOne(s, b, n, k - 1);
    }
  }

  /** In a chain every child's block follows its parent's, so the parent is listed at least as often. */
  lemma {:induction false} ChainDominates(s: State, l: seq<nat>, n: nat)
    requires |s.nodes| == |s.parents| && (forall m :: m in s.valid ==> 0 < m < |s.parents|)
    requires Distinguished(s) && Chain(s, l) && n in s.valid && s.parents[n] < n
    ensures multiset(l)[BlockOf(s.nodes, n)]
            >= ChildRefs(s, multiset(l), n, |s.parents|) + (if l != [] && Last(l) == BlockOf(s.nodes, n) then 1 else 0)
  {
    var k := |s.parents|;
    if l == [] {
      NoChildRefs(s, n, k);
    } else {
      var p, x := Init(l), Last(l);
      assert l == p + [x];
      assert multiset(l) == multiset(p) + multiset{x};
      assert Chain(s, p) by {
        forall m, i | m in s.valid && 0 <= i < |p| && p[i] == BlockOf(s.nodes, m) ensures Link(s, p, m, i) {
          assert l[i] == BlockOf(s.nodes, m) && Link(s, l, m, i);
        }
      }
      ChainDominates(s, p, n);
      ChildRefsAdd(s, multiset(p), multiset{x}, n, k);
      ChildRefsOne(s, x, n, k);
      if ChildRefs(s, multiset{x}, n, k) == 1 {
        var m :| m in s.valid && m < k && s.parents[m] == n && BlockOf(s.nodes, m) == x;
        assert Link(s, l, m, |l| - 1);
      }
    }
  }

  lemma {:induction false} NoChildRefs(s: State, n: nat, k: nat)
    requires k <= |s.parents|
    ensures ChildRefs(s, multiset{}, n, k) == 0
  {
    if k == 0 {
    } else {
      NoChildRefs(s, n, k - 1);
    }
  }

  lemma {:induction false} LooseDominates(s: State, loose: seq<seq<nat>>, n: nat)
    requires |s.nodes| == |s.parents| && (forall m :: m in s.valid ==> 0 < m < |s.parents|)
    requires Distinguished(s) && n in s.valid && s.parents[n] < n
    requires forall i :: 0 <= i < |loose| ==> Chain(s, loose[i])
    ensures LooseRefs(loose)[BlockOf(s.nodes, n)] >= ChildRefs(s, LooseRefs(loose), n, |s.parents|)
  {
    if loose == [] {
      NoChildRefs(s, n, |s.parents|);
    } else {
      ChainDominates(s, loose[0], n);
      LooseDominates(s, loose[1..], n);
      ChildRefsAdd(s, multiset(loose[0]), LooseRefs(loose[1..]), n, |s.parents|);
    }
  }

  lemma {:induction false} TablesDominate(s: State, tables: map<nat, PageTable>, n: nat)
    requires |s.nodes| == |s.parents| && (forall m :: m in s.valid ==> 0 < m < |s.parents|)
    requires Distinguished(s) && n in s.valid && s.parents[n] < n
    requires forall id :: id in tables ==> Chain(s, tables[id].blockIds)
    ensures TableRefs(tables)[BlockOf(s.nodes, n)] >= ChildRefs(s, TableRefs(tables), n, |s.parents|)
    decreases |tables|
  {
    if tables == map[] {
      NoChildRefs(s, n, |s.parents|);
    } else {
      var id :| id in tables && TableRefs(tables) == multiset(tables[id].blockIds) + TableRefs(tables - {id});
      ChainDominates(s, tables[id].blockIds, n);
      TablesDominate(s, tables - {id}, n);
      ChildRefsAdd(s, multiset(tables[id].blockIds), TableRefs(tables - {id}), n, |s.parents|);
    }
  }

  /** The counts of the valid children of `n` among the first `k` nodes, added up. */
  ghost function ChildCounts(s: State, n: nat, k: nat): nat
    requires Wf(s) && k <= |s.nodes|
  {
    if k == 0 then 0
    else ChildCounts(s, n, k - 1)
         + (if k - 1 in s.valid && s.parents[k - 1] == n then
              assert NodeOk(s.nodes, s.parents, |s.blocks|, k - 1);
              s.blocks[BlockOf(s.nodes, k - 1)].refCount
            else 0)
  }

  lemma {:induction false} ChildCountsAreRefs(s: State, n: nat, k: nat)
    requires Wf(s) && Accounted(s) && k <= |s.nodes|
    ensures ChildCounts(s, n, k) == ChildRefs(s, Held(s), n, k)
  {
    if k == 0 {
    } else {
      ChildCountsAreRefs(s, n, k - 1);
      if k - 1 in s.valid { assert NodeOk(s.nodes, s.parents, |s.blocks|, k - 1); }
    }
  }

  /** A valid node's block is counted at least as often as the blocks of its valid children together. */
  lemma CountsDominate(s: State, n: nat)
    requires Wf(s) && Accounted(s) && CacheSound(s) && n in s.valid
    ensures BlockOf(s.nodes, n) < |s.blocks|
    ensures s.blocks[BlockOf(s.nodes, n)].refCount >= ChildCounts(s, n, |s.nodes|)
  {
    ChildCountsAreRefs(s, n, |s.nodes|);
    assert NodeOk(s.nodes, s.parents, |s.blocks|, n);
    forall i | 0 <= i < |s.loose| ensures Chain(s, s.loose[i]) { assert Holder(s, s.loose[i]); }
    forall id | id in s.tables ensures Chain(s, s.tables[id].blockIds) { assert Holder(s, s.tables[id].blockIds); }
    LooseDominates(s, s.loose, n);
    TablesDominate(s, s.tables, n);
    ChildRefsAdd(s, TableRefs(s.tables), LooseRefs(s.loose), n, |s.parents|);
  }

  ghost predicate Ancestor(s: State, n: nat, m: nat)
    requires Wf(s) && m < |s.nodes|
    decreases m
  {
    n == m || (m > 0 && NodeOk(s.nodes, s.parents, |s.blocks|, m) && Ancestor(s, n, s.parents[m]))
  }

  /** Valid nodes are closed under ancestors: when a block has gone, those of all descendants have too. */
  lemma {:induction false} AncestorsAreValid(s: State, n: nat, m: nat)
    requires Wf(s) && CacheSound(s) && m < |s.nodes| && n > 0 && Ancestor(s, n, m) && m in s.valid
    ensures n in s.valid
    decreases m
  {
    if n == m {
    } else {
      assert NodeLive(s, Held(s), m);
      if s.parents[m] != 0 {
        AncestorsAreValid(s, n, s.parents[m]);
      }
    }
  }
}
