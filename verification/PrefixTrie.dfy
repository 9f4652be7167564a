/**
 The arena trie as a map from chunk paths to blocks, and the chunk loop of prefix matching as a lookup
 of the longest cached path followed by insertions.
 */
module PrefixTrie {
  import opened Prelude
  import opened BlockSpace

  /** The node a path leads to. */
  function Find(nodes: seq<TrieNode>, path: Path): Option<nat> {
    if path == [] then Some(0)
    else
      match Find(nodes, Init(path))
      case None => None
      case Some(i) =>
        if i < |nodes| && Last(path) in nodes[i].children then Some(nodes[i].children[Last(path)]) else None
  }

  /** The block cached for a path. */
  function Cached(nodes: seq<TrieNode>, path: Path): Option<nat> {
    var n := Find(nodes, path);
    if n.Some? && n.value < |nodes| then nodes[n.value].block else None
  }

  /** The path of a node, read upwards. */
  ghost function PathOf(nodes: seq<TrieNode>, parents: seq<nat>, total: nat, j: nat): Path
    requires TrieOk(nodes, parents, total) && j < |nodes|
  {
    if j == 0 then []
    else
      assert NodeOk(nodes, parents, total, j);
      PathOf(nodes, parents, total, parents[j]) + [nodes[j].chunk]
  }

  lemma {:induction false} FindInRange(nodes: seq<TrieNode>, parents: seq<nat>, total: nat, path: Path)
    requires TrieOk(nodes, parents, total)
    ensures var r := Find(nodes, path);
            r.Some? ==>
              && r.value < |nodes|
              && (r.value == 0 <==> path == [])
              && (path != [] ==>
                    Find(nodes, Init(path)) == Some(parents[r.value]) && nodes[r.value].chunk == Last(path))
  {
    if path == [] {
    } else {
      FindInRange(nodes, parents, total, Init(path));
      var p := Find(nodes, Init(path));
      if p.Some? && Last(path) in nodes[p.value].children {
        assert ChildOk(nodes, parents, p.value, Last(path));
      }
    }
  }

  /** Nodes and cached paths correspond one to one. */
  lemma {:induction false} PathsAreNodes(nodes: seq<TrieNode>, parents: seq<nat>, total: nat, j: nat, path: Path)
    requires TrieOk(nodes, parents, total) && j < |nodes|
    ensures Find(nodes, path) == Some(j) <==> path == PathOf(nodes, parents, total, j)
    decreases j
  {
    FindInRange(nodes, parents, total, path);
    if j == 0 {
    } else {
      assert NodeOk(nodes, parents, total, j);
      var up := PathOf(nodes, parents, total, parents[j]);
      PathsAreNodes(nodes, parents, total, parents[j], up);
      assert Init(up + [nodes[j].chunk]) == up;
      if Find(nodes, path) == Some(j) {
        PathsAreNodes(nodes, parents, total, parents[j], Init(path));
        InitLast(path);
      }
    }
  }

  lemma FindIsInjective(nodes: seq<TrieNode>, parents: seq<nat>, total: nat, p: Path, q: Path)
    requires TrieOk(nodes, parents, total)
    requires Find(nodes, p).Some? && Find(nodes, p) == Find(nodes, q)
    ensures p == q
  {
    FindInRange(nodes, parents, total, p);
    var j := Find(nodes, p).value;
    PathsAreNodes(nodes, parents, total, j, p);
    PathsAreNodes(nodes, parents, total, j, q);
  }

  /** The cached paths are closed under prefixes. */
  lemma {:induction false} FindPrefixClosed(nodes: seq<TrieNode>, path: Path, k: nat)
    requires k <= |path| && Find(nodes, path).Some?
    ensures Find(nodes, path[..k]).Some?
  {
    if k == |path| {
      assert path[..k] == path;
    } else {
      FindPrefixClosed(nodes, Init(path), k);
      assert Init(path)[..k] == path[..k];
    }
  }

  /** Every non-root node has a block. */
  lemma CachedIsFound(nodes: seq<TrieNode>, parents: seq<nat>, total: nat, path: Path)
    requires TrieOk(nodes, parents, total)
    ensures path != [] ==> (Cached(nodes, path).Some? <==> Find(nodes, path).Some?)
    ensures Cached(nodes, path).Some? ==> Cached(nodes, path).value < total && path != []
  {
    FindInRange(nodes, parents, total, path);
    var r := Find(nodes, path);
    if r.Some? && r.value > 0 {
      assert NodeOk(nodes, parents, total, r.value);
    }
  }

  // ----- The longest cached prefix -----

  /** How many leading chunks of `path` the trie holds. */
  function CachedPrefix(nodes: seq<TrieNode>, path: Path): (m: nat)
    ensures m <= |path|
  {
    if path == [] then 0
    else if Find(nodes, path).Some? then |path|
    else CachedPrefix(nodes, Init(path))
  }

  lemma {:induction false} CachedPrefixIsLongest(nodes: seq<TrieNode>, path: Path, k: nat)
    requires k <= |path|
    ensures Find(nodes, path[..k]).Some? <==> k <= CachedPrefix(nodes, path)
  {
    if path == [] {
    } else if Find(nodes, path).Some? {
      FindPrefixClosed(nodes, path, k);
    } else if k == |path| {
      assert path[..k] == path;
    } else {
      CachedPrefixIsLongest(nodes, Init(path), k);
      assert Init(path)[..k] == path[..k];
    }
  }

  /** The nodes along a path, root excluded. */
  function NodesOn(nodes: seq<TrieNode>, path: Path): (r: seq<nat>)
    ensures |r| == |path|
  {
    if path == [] then [] else NodesOn(nodes, Init(path)) + [Find(nodes, path).GetOr(0)]
  }

  /** The blocks along a path. */
  function BlocksOn(nodes: seq<TrieNode>, path: Path): (r: seq<nat>)
    ensures |r| == |path|
  {
    if path == [] then [] else BlocksOn(nodes, Init(path)) + [Cached(nodes, path).GetOr(0)]
  }

  lemma {:induction false} OnPathAt(nodes: seq<TrieNode>, path: Path, i: nat)
    requires i < |path|
    ensures NodesOn(nodes, path)[i] == Find(nodes, path[..i + 1]).GetOr(0)
    ensures BlocksOn(nodes, path)[i] == Cached(nodes, path[..i + 1]).GetOr(0)
  {
    if i == |path| - 1 {
      assert path[..i + 1] == path;
    } else {
      OnPathAt(nodes, Init(path), i);
      assert Init(path)[..i + 1] == path[..i + 1];
    }
  }

  /** The part of a chunk path that the trie holds. */
  function HitPath(nodes: seq<TrieNode>, path: Path): Path {
    path[..CachedPrefix(nodes, path)]
  }

  /** The blocks that matching this prompt takes from the trie. */
  function HitBlocks(s: State, prompt: seq<u32>): seq<nat>
    requires s.cfg.blockSize > 0
  {
    BlocksOn(s.nodes, HitPath(s.nodes, Chunks(prompt, s.cfg.blockSize)))
  }

  /** Every hit of a walk along `path` lands on a block that is in use. */
  predicate LiveOn(s: State, path: Path) {
    forall b :: b in BlocksOn(s.nodes, HitPath(s.nodes, path)) ==> b < |s.blocks| && s.blocks[b].refCount > 0
  }

  predicate LiveHits(s: State, prompt: seq<u32>)
    requires s.cfg.blockSize > 0
  {
    LiveOn(s, Chunks(prompt, s.cfg.blockSize))
  }

  /** Every hit of this call lands on a node whose block never went back to the pool. */
  predicate ValidHits(s: State, prompt: seq<u32>)
    requires s.cfg.blockSize > 0
  {
    forall n :: n in NodesOn(s.nodes, HitPath(s.nodes, Chunks(prompt, s.cfg.blockSize))) ==> n in s.valid
  }

  // ----- Insertion -----

  /** A new leaf adds exactly its own path to the map. */
  lemma {:induction false} FindAfterInsert(nodes: seq<TrieNode>, parents: seq<nat>, total: nat, cur: nat, chunk: Chunk,
                                           b: nat, p: Path, q: Path)
    requires TrieOk(nodes, parents, total) && cur < |nodes| && chunk !in nodes[cur].children
    requires Find(nodes, p) == Some(cur)
    ensures Find(AddNode(nodes, cur, chunk, b), q) == if Find(nodes, q).Some? then Find(nodes, q)
                                                      else if q == p + [chunk] then Some(|nodes|) else None
  {
    if q == [] {
    } else {
      FindAfterInsert(nodes, parents, total, cur, chunk, b, p, Init(q));
      FindInRange(nodes, parents, total, q);
      FindInRange(nodes, parents, total, Init(q));
      InitLast(q);
      assert Init(p + [chunk]) == p && Last(p + [chunk]) == chunk;
      if Find(nodes, Init(q)) == Some(cur) {
        FindIsInjective(nodes, parents, total, p, Init(q));
      }
    }
  }

  // ----- The chunk loop -----

  /** Block records after references to `held` were taken for sequence `id`. */
  ghost predicate Bumped(before: seq<PhysicalBlock>, after: seq<PhysicalBlock>, held: seq<nat>, id: nat) {
    && |after| == |before|
    && forall b :: 0 <= b < |before| ==>
         after[b] == if b in held
                     then before[b].(refCount := before[b].refCount + multiset(held)[b], isPrefixCached := true,
                                     mappedSeqId := Some(id))
                     else before[b]
  }

  /** While chunks are found, the loop only takes references. */
  ghost predicate HitPhase(s: State, id: nat, path: Path, w: Walk) {
    && w.ok && w.matched == |path|
    && w.held == BlocksOn(s.nodes, path)
    && w.s == s.(blocks := w.s.blocks, lookups := s.lookups + |path|, hits := s.hits + |path|)
    && Bumped(s.blocks, w.s.blocks, w.held, id)
    && Find(s.nodes, path) == Some(w.cur)
  }

  lemma BumpOne(before: seq<PhysicalBlock>, after: seq<PhysicalBlock>, held: seq<nat>, id: nat, b: nat)
    requires Bumped(before, after, held, id) && b < |before|
    ensures var rec := after[b].(refCount := after[b].refCount + 1, isPrefixCached := true, mappedSeqId := Some(id));
            Bumped(before, after[b := rec], held + [b], id)
  {
    assert multiset(held + [b]) == multiset(held) + multiset{b};
    assert forall x :: x in held + [b] <==> x in held || x == b;
  }

  lemma HitStep(s: State, id: nat, path: Path, w: Walk)
    requires WalkOk(w) && Wf(s) && path != [] && Find(s.nodes, path).Some?
    requires HitPhase(s, id, Init(path), w)
    ensures HitPhase(s, id, path, WalkStep(w, id, Last(path)))
  {
    CachedIsFound(s.nodes, s.parents, |s.blocks|, path);
    FindInRange(s.nodes, s.parents, |s.blocks|, path);
    BumpOne(s.blocks, w.s.blocks, w.held, id, Cached(s.nodes, path).value);
  }

  lemma {:induction false} WalkHits(s: State, id: nat, path: Path)
    requires Wf(s) && Find(s.nodes, path).Some?
    ensures HitPhase(s, id, path, WalkChunks(s, id, path))
  {
    if path == [] {
    } else {
      WalkHits(s, id, Init(path));
      HitStep(s, id, path, WalkChunks(s, id, Init(path)));
    }
  }

  /** The `x` topmost blocks of the free stack, in the order in which they are taken. */
  function Top(stack: seq<nat>, x: nat): seq<nat>
    requires x <= |stack|
  {
    Reverse(stack[|stack| - x..])
  }

  lemma TopOne(stack: seq<nat>, x: nat)
    requires x < |stack|
    ensures Top(stack, x + 1) == Top(stack, x) + [Last(stack[..|stack| - x])]
    ensures Init(stack[..|stack| - x]) == stack[..|stack| - (x + 1)]
  {
  }

  /**
   The loop over `path` when its first |hit| chunks were found, with blocks `hit`: from there on every
   chunk is new, while blocks last.
   */
  ghost predicate MissPhase(s: State, path: Path, hit: seq<nat>, w: Walk)
    requires |hit| <= |path|
  {
    var x := Min(|path| - |hit|, |s.freeStack|);
    && (w.ok <==> |path| - |hit| <= |s.freeStack|)
    && w.matched == |hit|
    && w.held == hit + Top(s.freeStack, x)
    && w.s == s.(blocks := w.s.blocks, freeStack := s.freeStack[..|s.freeStack| - x],
                 nodes := w.s.nodes, parents := w.s.parents, valid := w.s.valid,
                 lookups := s.lookups + Min(|path|, |hit| + |s.freeStack| + 1), hits := s.hits + |hit|)
    && |w.s.blocks| == |s.blocks|
    && AtNewLeaf(s, w, path[..|hit| + x], x)
  }

  /** The cursor stands at `path`, below `x` nodes the loop has made. */
  ghost predicate AtNewLeaf(s: State, w: Walk, path: Path, x: nat) {
    && Find(w.s.nodes, path) == Some(w.cur)
    && |w.s.nodes| == |s.nodes| + x
    && (x == 0 ==> w.s.nodes == s.nodes && w.s.parents == s.parents && w.s.valid == s.valid)
    && (x > 0 ==> w.cur == |w.s.nodes| - 1 && w.s.nodes[w.cur].children == map[])
  }

  lemma {:induction false} WalkMisses(s: State, id: nat, path: Path, m: nat)
    requires Wf(s) && m == CachedPrefix(s.nodes, path)
    ensures MissPhase(s, path, BlocksOn(s.nodes, path[..m]), WalkChunks(s, id, path))
  {
    if Find(s.nodes, path).Some? {
      WalkHits(s, id, path);
      assert path[..m] == path;
      AllFound(s, id, path, WalkChunks(s, id, path));
    } else {
      WalkMisses(s, id, Init(path), m);
      TakeInit(path, m);
      MissStep(s, id, path, BlocksOn(s.nodes, path[..m]), WalkChunks(s, id, Init(path)));
    }
  }

  /** The loop body for a chunk that is not in the trie. */
  lemma MissStep(s: State, id: nat, path: Path, hit: seq<nat>, w: Walk)
    requires Find(s.nodes, path).None? && WalkOk(w) && |hit| < |path|
    requires MissPhase(s, Init(path), hit, w)
    ensures MissPhase(s, path, hit, if w.ok then WalkStep(w, id, Last(path)) else w)
  {
    if !w.ok {
      StaysFailed(s, path, hit, w);
    } else {
      TakeInit(path, |path| - 1);
      NotUnderCursor(s, path, w, |path| - 1 - |hit|);
      if w.s.freeStack == [] {
        OutOfBlocks(w, id, Last(path));
        NoBlock(s, path, hit, w, WalkStep(w, id, Last(path)));
      } else {
        NewLeaf(s, id, path, w, |path| - 1 - |hit|);
        LeafKeepsPhase(s, path, hit, w, WalkStep(w, id, Last(path)));
      }
    }
  }

  lemma TakeInit<T>(s: seq<T>, k: nat)
    requires k < |s|
    ensures Init(s)[..k] == s[..k]
    ensures k == |s| - 1 ==> Init(s)[..k] == Init(s)
  {
  }

  lemma AllFound(s: State, id: nat, path: Path, w: Walk)
    requires Find(s.nodes, path).Some? && HitPhase(s, id, path, w)
    ensures MissPhase(s, path, BlocksOn(s.nodes, path), w)
  {
    var stack := s.freeStack;
    assert stack[..|stack| - 0] == stack && Top(stack, 0) == [] && path[..|path|] == path;
    assert w.held + [] == w.held;
  }

  lemma StaysFailed(s: State, path: Path, hit: seq<nat>, w: Walk)
    requires |hit| < |path| && !w.ok && MissPhase(s, Init(path), hit, w)
    ensures MissPhase(s, path, hit, w)
  {
    TakeInit(path, |hit| + |s.freeStack|);
    assert Min(|path|, |hit| + |s.freeStack| + 1) == Min(|Init(path)|, |hit| + |s.freeStack| + 1);
    assert Min(|path| - |hit|, |s.freeStack|) == Min(|Init(path)| - |hit|, |s.freeStack|);
  }

  lemma NoBlock(s: State, path: Path, hit: seq<nat>, w: Walk, r: Walk)
    requires |hit| < |path| && w.ok && MissPhase(s, Init(path), hit, w)
    requires w.s.freeStack == [] && r == w.(s := w.s.(lookups := w.s.lookups + 1), ok := false)
    ensures MissPhase(s, path, hit, r)
  {
    TakeInit(path, |hit| + |s.freeStack|);
  }

  /** The loop body took a block for a new leaf under the cursor. */
  ghost predicate LeafStep(w: Walk, r: Walk, chunk: Chunk)
    requires w.s.freeStack != [] && w.cur < |w.s.nodes|
  {
    && r == w.(s := r.s, cur := |w.s.nodes|, held := w.held + [Last(w.s.freeStack)])
    && r.s == w.s.(blocks := r.s.blocks, freeStack := Init(w.s.freeStack),
                   nodes := AddNode(w.s.nodes, w.cur, chunk, Last(w.s.freeStack)), parents := w.s.parents + [w.cur],
                   valid := w.s.valid + {|w.s.nodes|}, lookups := w.s.lookups + 1)
    && |r.s.blocks| == |w.s.blocks|
  }

  lemma LeafKeepsPhase(s: State, path: Path, hit: seq<nat>, w: Walk, r: Walk)
    requires |hit| < |path| && w.ok && MissPhase(s, Init(path), hit, w)
    requires w.s.freeStack != [] && w.cur < |w.s.nodes| && LeafStep(w, r, Last(path))
             && AtNewLeaf(s, r, path, |path| - |hit|)
    ensures MissPhase(s, path, hit, r)
  {
    var x := |path| - 1 - |hit|;
    TopOne(s.freeStack, x);
    assert path[..|path|] == path;
    assert hit + Top(s.freeStack, x) + [Last(w.s.freeStack)] == hit + Top(s.freeStack, x + 1);
  }

  lemma NotUnderCursor(s: State, path: Path, w: Walk, x: nat)
    requires WalkOk(w) && path != []
    requires AtNewLeaf(s, w, Init(path), x) && Find(s.nodes, path).None?
    ensures Last(path) !in w.s.nodes[w.cur].children
  {
  }

  lemma NewLeaf(s: State, id: nat, path: Path, w: Walk, x: nat)
    requires WalkOk(w) && w.ok && w.s.freeStack != [] && path != []
    requires AtNewLeaf(s, w, Init(path), x) && Find(s.nodes, path).None?
    ensures LeafStep(w, WalkStep(w, id, Last(path)), Last(path))
            && AtNewLeaf(s, WalkStep(w, id, Last(path)), path, x + 1)
  {
    NotUnderCursor(s, path, w, x);
    FindAfterInsert(w.s.nodes, w.s.parents, |w.s.blocks|, w.cur, Last(path), Last(w.s.freeStack), Init(path),
                    Init(path));
  }

  /** The block of the new leaf is counted once and flagged; no other record changes. */
  lemma LeafBlocks(w: Walk, id: nat, chunk: Chunk)
    requires WalkOk(w) && w.ok && w.s.freeStack != [] && chunk !in w.s.nodes[w.cur].children
    ensures var r := WalkStep(w, id, chunk);
            && |r.s.blocks| == |w.s.blocks|
            && (forall b :: 0 <= b < |r.s.blocks| ==>
                  if b == Last(w.s.freeStack) then r.s.blocks[b].isPrefixCached && r.s.blocks[b].refCount == 1
                  else r.s.blocks[b] == w.s.blocks[b])
  {
  }

  /** A failed allocation leaves the state alone but for the lookup count. */
  lemma OutOfBlocks(w: Walk, id: nat, chunk: Chunk)
    requires WalkOk(w) && w.ok && w.s.freeStack == [] && chunk !in w.s.nodes[w.cur].children
    ensures WalkStep(w, id, chunk) == w.(s := w.s.(lookups := w.s.lookups + 1), ok := false)
  {
  }

  // ----- What the chunk loop does to the map -----

  /** How many new paths a loop over `path` can pay for from this stack. */
  function Paid(nodes: seq<TrieNode>, stack: seq<nat>, path: Path): nat {
    Min(|path| - CachedPrefix(nodes, path), |stack|)
  }

  /** Number of new nodes the loop over `path` makes. */
  function NewNodes(s: State, path: Path): nat {
    Paid(s.nodes, s.freeStack, path)
  }

  lemma WalkCounts(s: State, id: nat, path: Path)
    requires Wf(s)
    ensures var w := WalkChunks(s, id, path);
            var m := CachedPrefix(s.nodes, path);
            && |w.s.nodes| == |s.nodes| + NewNodes(s, path)
            && w.s.freeStack == s.freeStack[..|s.freeStack| - NewNodes(s, path)]
            && |w.held| == m + NewNodes(s, path)
            && w.matched == m
            && (w.ok <==> |path| - m <= |s.freeStack|)
  {
    WalkMisses(s, id, path, CachedPrefix(s.nodes, path));
  }

  /** The last iteration, for a chunk that is not in the trie. */
  lemma LastStep(s: State, id: nat, path: Path, w: Walk)
    requires Wf(s) && Find(s.nodes, path).None? && w == WalkChunks(s, id, Init(path)) && w.ok
    ensures Last(path) !in w.s.nodes[w.cur].children && Find(w.s.nodes, Init(path)) == Some(w.cur)
    ensures w.s.freeStack == [] ==> WalkChunks(s, id, path) == w.(s := w.s.(lookups := w.s.lookups + 1), ok := false)
    ensures w.s.freeStack != [] ==> LeafStep(w, WalkChunks(s, id, path), Last(path))
  {
    var m := CachedPrefix(s.nodes, path);
    WalkMisses(s, id, Init(path), m);
    PhaseAtEnd(s, Init(path), BlocksOn(s.nodes, Init(path)[..m]), w);
    LastStepAt(s, id, path, |Init(path)| - m, w);
  }

  lemma PhaseAtEnd(s: State, path: Path, hit: seq<nat>, w: Walk)
    requires |hit| <= |path| && MissPhase(s, path, hit, w) && w.ok
    ensures AtNewLeaf(s, w, path, |path| - |hit|)
  {
    assert path[..|path|] == path;
  }

  lemma LastStepAt(s: State, id: nat, path: Path, x: nat, w: Walk)
    requires WalkOk(w) && path != [] && Find(s.nodes, path).None? && w.ok && AtNewLeaf(s, w, Init(path), x)
    ensures Last(path) !in w.s.nodes[w.cur].children && Find(w.s.nodes, Init(path)) == Some(w.cur)
    ensures w.s.freeStack == []
            ==> WalkStep(w, id, Last(path)) == w.(s := w.s.(lookups := w.s.lookups + 1), ok := false)
    ensures w.s.freeStack != [] ==> LeafStep(w, WalkStep(w, id, Last(path)), Last(path))
  {
    NotUnderCursor(s, path, w, x);
    if w.s.freeStack == [] {
      OutOfBlocks(w, id, Last(path));
    } else {
      NewLeaf(s, id, path, w, x);
    }
  }

  lemma FindAfterStep(s: State, id: nat, path: Path, q: Path)
    requires Wf(s) && Find(s.nodes, path).None?
    ensures var w := WalkChunks(s, id, Init(path));
            Find(WalkChunks(s, id, path).s.nodes, q)
            == if Find(w.s.nodes, q).None? && q == path && w.ok && w.s.freeStack != [] then Some(|w.s.nodes|)
               else Find(w.s.nodes, q)
  {
    var w := WalkChunks(s, id, Init(path));
    if w.ok {
      LastStep(s, id, path, w);
      if w.s.freeStack != [] {
        FindAfterInsert(w.s.nodes, w.s.parents, |w.s.blocks|, w.cur, Last(path), Last(w.s.freeStack), Init(path), q);
        InitLast(path);
      }
    }
  }

  /** Is `q` one of the paths that a loop over `path` adds when the first `m` chunks were there and `x` were new? */
  predicate Added(path: Path, m: nat, x: nat, q: Path)
    requires m + x <= |path|
  {
    m < |q| <= m + x && q == path[..|q|]
  }

  lemma AddedOneMore(path: Path, m: nat, x: nat, y: nat, q: Path)
    requires m + x < |path| && x <= y <= x + 1
    ensures Added(path, m, y, q) <==> Added(Init(path), m, x, q) || (y == x + 1 && q == path[..m + y])
  {
    if |q| < |path| {
      TakeInit(path, |q|);
    }
  }

  /** The loop adds exactly the paths from the first new chunk to the last one that finds a block. */
  lemma {:induction false} FindAfterWalk(s: State, id: nat, path: Path, m: nat, q: Path)
    requires Wf(s) && m == CachedPrefix(s.nodes, path)
    ensures Find(WalkChunks(s, id, path).s.nodes, q)
            == FoundAfter(path, m, NewNodes(s, path), |s.nodes|, q, Find(s.nodes, q))
  {
    if Find(s.nodes, path).Some? {
      WalkHits(s, id, path);
    } else {
      FindAfterWalk(s, id, Init(path), m, q);
      FindAfterStep(s, id, path, q);
      var w := WalkChunks(s, id, Init(path));
      NewNodesGrow(s, id, path, m, w);
      StepAdds(path, m, NewNodes(s, Init(path)), NewNodes(s, path), |s.nodes|, q, w.ok && w.s.freeStack != [],
               Find(s.nodes, q), Find(w.s.nodes, q), Find(WalkChunks(s, id, path).s.nodes, q));
    }
  }

  /** The count of new nodes grows by one when the loop is still running and finds a free block. */
  lemma NewNodesGrow(s: State, id: nat, path: Path, m: nat, w: Walk)
    requires Wf(s) && Find(s.nodes, path).None? && m == CachedPrefix(s.nodes, path)
             && w == WalkChunks(s, id, Init(path))
    ensures m == CachedPrefix(s.nodes, Init(path)) && m + NewNodes(s, Init(path)) < |path|
    ensures |w.s.nodes| == |s.nodes| + NewNodes(s, Init(path))
    ensures NewNodes(s, path) == NewNodes(s, Init(path)) + (if w.ok && w.s.freeStack != [] then 1 else 0)
    ensures w.ok && w.s.freeStack != [] ==> m + NewNodes(s, path) == |path|
  {
    WalkCounts(s, id, Init(path));
  }

  /** The node of `q` after a loop that met `m` chunks and made `x` nodes, in terms of the node before it. */
  function FoundAfter(path: Path, m: nat, x: nat, size: nat, q: Path, before: Option<nat>): Option<nat>
    requires m + x <= |path|
  {
    if before.Some? then before
    else if Added(path, m, x, q) then Some(size + |q| - m - 1)
    else None
  }

  lemma StepAdds(path: Path, m: nat, x: nat, y: nat, size: nat, q: Path, grows: bool,
                 before: Option<nat>, mid: Option<nat>, after: Option<nat>)
    requires m + x < |path| && y == (if grows then x + 1 else x) && (grows ==> m + x + 1 == |path|)
    requires mid == FoundAfter(Init(path), m, x, size, q, before)
    requires after == if mid.None? && q == path && grows then Some(size + x) else mid
    ensures after == FoundAfter(path, m, y, size, q, before)
  {
    AddedOneMore(path, m, x, y, q);
    if grows { assert path[..m + y] == path; }
  }

  /** One iteration keeps every node's block and gives a new node the top of the free stack. */
  lemma BlocksAfterStep(s: State, id: nat, path: Path, n: nat)
    requires Wf(s) && Find(s.nodes, path).None?
    ensures var w := WalkChunks(s, id, Init(path));
            var r := WalkChunks(s, id, path);
            && (n < |w.s.nodes| ==> n < |r.s.nodes| && r.s.nodes[n].block == w.s.nodes[n].block)
            && (|w.s.nodes| == n < |r.s.nodes|
                ==> w.s.freeStack != [] && r.s.nodes[n].block == Some(Last(w.s.freeStack)))
  {
    var w := WalkChunks(s, id, Init(path));
    if w.ok {
      LastStep(s, id, path, w);
    }
  }

  lemma {:induction false} OldBlocksAfterWalk(s: State, id: nat, path: Path, n: nat)
    requires Wf(s) && n < |s.nodes|
    ensures var w := WalkChunks(s, id, path); n < |w.s.nodes| && w.s.nodes[n].block == s.nodes[n].block
  {
    if Find(s.nodes, path).Some? {
      WalkHits(s, id, path);
    } else {
      OldBlocksAfterWalk(s, id, Init(path), n);
      BlocksAfterStep(s, id, path, n);
    }
  }

  lemma LastOfRest(stack: seq<nat>, i: nat, rest: seq<nat>)
    requires i < |stack| && rest == stack[..|stack| - i]
    ensures rest != [] && Last(rest) == FromTop(stack, i)
  {
  }

  /** The `i`-th block from the top of the stack. */
  function FromTop(stack: seq<nat>, i: nat): nat
    requires i < |stack|
  {
    stack[|stack| - 1 - i]
  }

  /** New nodes get their blocks from the top of the free stack, in order. */
  lemma {:induction false} NewBlocksAfterWalk(s: State, id: nat, path: Path, i: nat, n: nat)
    requires Wf(s) && i < NewNodes(s, path) && n == |s.nodes| + i
    ensures var w := WalkChunks(s, id, path);
            n < |w.s.nodes| && w.s.nodes[n].block == Some(FromTop(s.freeStack, i))
  {
    assert path != [] && Find(s.nodes, path).None?;
    var w := WalkChunks(s, id, Init(path));
    NewNodesGrow(s, id, path, CachedPrefix(s.nodes, path), w);
    WalkCounts(s, id, Init(path));
    WalkCounts(s, id, path);
    BlocksAfterStep(s, id, path, n);
    if i < NewNodes(s, Init(path)) {
      NewBlocksAfterWalk(s, id, Init(path), i, n);
    } else {
      LastOfRest(s.freeStack, i, w.s.freeStack);
    }
  }
}
