/** Prefix matching keeps the cache sound, on success exactly when every hit lands on a valid node. */
module MatchSound {
  import opened Prelude
  import opened BlockSpace
  import opened PrefixTrie
  import opened Accounting
  import opened Runs
  import opened PrefixSharing
  import opened SharingRuns

  /** What the chunk loop keeps: sound valid nodes, and its own references form a chain. */
  ghost predicate WalkSound(s: State, w: Walk, path: Path, refs: multiset<nat>) {
    && ValidOk(w.s, refs + multiset(w.held))
    && Chain(w.s, w.held)
    && (forall l :: Holder(s, l) ==> Chain(w.s, l))
    && CursorOk(w)
    && (w.ok ==> |w.held| == |path| && Covers(w.s, w.held, path))
  }

  ghost predicate CursorOk(w: Walk) {
    && (w.cur == 0 <==> w.held == [])
    && (w.cur != 0 ==> w.cur in w.s.valid && Last(w.held) == BlockOf(w.s.nodes, w.cur))
  }

  // ----- While chunks are found -----

  lemma {:induction false} BlocksOnNodes(s: State, path: Path, b: nat)
    requires Wf(s) && Find(s.nodes, path).Some? && b in BlocksOn(s.nodes, path)
    ensures exists n :: n in NodesOn(s.nodes, path) && BlockOf(s.nodes, n) == b
  {
    FindInRange(s.nodes, s.parents, |s.blocks|, path);
    if b != Cached(s.nodes, path).GetOr(0) {
      BlocksOnNodes(s, Init(path), b);
      var n :| n in NodesOn(s.nodes, Init(path)) && BlockOf(s.nodes, n) == b;
      assert n in NodesOn(s.nodes, path);
    } else {
      var n := Find(s.nodes, path).value;
      assert NodesOn(s.nodes, path)[|path| - 1] == n;
      assert n in NodesOn(s.nodes, path);
    }
  }

  /** The blocks along a path of valid nodes are a chain. */
  lemma {:induction false} PathChain(s: State, path: Path)
    requires TrieOk(s.nodes, s.parents, |s.blocks|) && Distinguished(s) && Find(s.nodes, path).Some?
    requires forall n :: n in NodesOn(s.nodes, path) ==> n in s.valid
    ensures Chain(s, BlocksOn(s.nodes, path))
  {
    if path == [] {
    } else {
      var p, n := Init(path), Find(s.nodes, path).value;
      FindInRange(s.nodes, s.parents, |s.blocks|, path);
      FindInRange(s.nodes, s.parents, |s.blocks|, p);
      assert NodesOn(s.nodes, path)[|path| - 1] == n;
      forall m | m in NodesOn(s.nodes, p) ensures m in s.valid {
        assert m in NodesOn(s.nodes, path);
      }
      PathChain(s, p);
      ChainOneMore(s, BlocksOn(s.nodes, p), n);
    }
  }

  /** A chain may grow by the block of a valid node whose parent's block it ends with. */
  lemma ChainOneMore(s: State, l: seq<nat>, n: nat)
    requires Distinguished(s) && Chain(s, l) && n in s.valid && n < |s.parents|
    requires l == [] <==> s.parents[n] == 0
    requires l != [] ==> s.parents[n] in s.valid && Last(l) == BlockOf(s.nodes, s.parents[n])
    ensures Chain(s, l + [BlockOf(s.nodes, n)])
  {
    var r := l + [BlockOf(s.nodes, n)];
    forall m, i | m in s.valid && 0 <= i < |r| && r[i] == BlockOf(s.nodes, m) ensures Link(s, r, m, i) {
      if i < |l| {
        assert l[i] == BlockOf(s.nodes, m) && Link(s, l, m, i);
      } else {
        assert m == n;
      }
    }
  }

  lemma HitFlags(s: State, id: nat, path: Path, w: Walk)
    requires Wf(s) && FlagsOk(s) && HitPhase(s, id, path, w)
    requires forall n :: n in NodesOn(s.nodes, path) ==> n in s.valid
    ensures SameTrie(s, w.s)
  {
    forall b | 0 <= b < |s.blocks| && b in w.held ensures s.blocks[b].isPrefixCached {
      BlocksOnNodes(s, path, b);
    }
  }

  lemma HitCursor(s: State, path: Path, w: Walk)
    requires TrieOk(s.nodes, s.parents, |s.blocks|) && Find(s.nodes, path) == Some(w.cur) && w.s.nodes == s.nodes
             && w.s.valid == s.valid
    requires w.held == BlocksOn(s.nodes, path)
    requires forall n :: n in NodesOn(s.nodes, path) ==> n in s.valid
    ensures CursorOk(w)
  {
    FindInRange(s.nodes, s.parents, |s.blocks|, path);
    if path != [] {
      assert NodesOn(s.nodes, path)[|path| - 1] == w.cur;
    }
  }

  lemma HitsSound(s: State, id: nat, path: Path, w: Walk, refs: multiset<nat>)
    requires Wf(s) && ValidOk(s, refs) && ChainsOk(s) && HitPhase(s, id, path, w)
    requires forall n :: n in NodesOn(s.nodes, path) ==> n in s.valid
    ensures WalkSound(s, w, path, refs)
  {
    HitFlags(s, id, path, w);
    ValidOkKept(s, w.s, refs, refs + multiset(w.held));
    PathChain(s, path);
    HitCursor(s, path, w);
    SameChains(s, w.s, w.held);
    assert w.held[..|path|] == w.held;
  }

  lemma SameChains(s: State, t: State, l: seq<nat>)
    requires t.nodes == s.nodes && t.parents == s.parents && t.valid == s.valid && ChainsOk(s) && Chain(s, l)
    ensures Chain(t, l) && forall k :: Holder(s, k) ==> Chain(t, k)
  {
    forall k | Holder(s, k) ensures Chain(t, k) {
      assert Chain(s, k);
    }
  }

  // ----- A new leaf -----

  /** The nodes on a cached path, and their blocks, survive the insertion of a leaf. */
  lemma {:induction false} OnPathKept(w: Walk, r: Walk, path: Path, p: Path)
    requires WalkOk(w) && w.s.freeStack != [] && path != [] && Last(path) !in w.s.nodes[w.cur].children
    requires LeafStep(w, r, Last(path)) && Find(w.s.nodes, Init(path)) == Some(w.cur) && Find(w.s.nodes, p).Some?
    ensures Find(r.s.nodes, p) == Find(w.s.nodes, p)
    ensures NodesOn(r.s.nodes, p) == NodesOn(w.s.nodes, p) && BlocksOn(r.s.nodes, p) == BlocksOn(w.s.nodes, p)
  {
    FindAfterInsert(w.s.nodes, w.s.parents, |w.s.blocks|, w.cur, Last(path), Last(w.s.freeStack), Init(path), p);
    if p == [] {
    } else {
      OnPathKept(w, r, path, Init(p));
      FindInRange(w.s.nodes, w.s.parents, |w.s.blocks|, p);
    }
  }

  lemma LeafChain(w: Walk, r: Walk, chunk: Chunk, l: seq<nat>)
    requires w.s.freeStack != [] && w.cur < |w.s.nodes| == |w.s.parents| && LeafStep(w, r, chunk)
    requires (forall n :: n in w.s.valid ==> n < |w.s.nodes|)
    requires Chain(w.s, l) && Last(w.s.freeStack) !in l
    ensures Chain(r.s, l)
  {
    forall n, i | n in r.s.valid && 0 <= i < |l| && l[i] == BlockOf(r.s.nodes, n) ensures Link(r.s, l, n, i) {
      assert n in w.s.valid && BlockOf(w.s.nodes, n) == l[i];
      assert Link(w.s, l, n, i);
    }
  }

  lemma LeafValid(w: Walk, r: Walk, chunk: Chunk, refs: multiset<nat>)
    requires WalkOk(w) && w.s.freeStack != [] && LeafStep(w, r, chunk) && CursorOk(w)
    requires forall b :: 0 <= b < |r.s.blocks| ==>
               if b == Last(w.s.freeStack) then r.s.blocks[b].isPrefixCached else r.s.blocks[b] == w.s.blocks[b]
    requires ValidOk(w.s, refs) && refs[Last(w.s.freeStack)] == 0
    ensures ValidOk(r.s, refs + multiset{Last(w.s.freeStack)})
  {
    var b, leaf := Last(w.s.freeStack), |w.s.nodes|;
    assert BlockOf(r.s.nodes, leaf) == b;
    forall n | n in r.s.valid
        ensures NodeLive(r.s, refs + multiset{b}, n)
                && (n == leaf || (n in w.s.valid && BlockOf(r.s.nodes, n) == BlockOf(w.s.nodes, n) != b)) {
      if n != leaf { assert NodeLive(w.s, refs, n); }
    }
    forall x | 0 <= x < |r.s.blocks|
      ensures r.s.blocks[x].isPrefixCached <==> exists n :: n in r.s.valid && BlockOf(r.s.nodes, n) == x
    {
      if x == b {
        assert leaf in r.s.valid;
      } else if n :| n in w.s.valid && BlockOf(w.s.nodes, n) == x {
        assert NodeLive(w.s, refs, n);
        assert n in r.s.valid && BlockOf(r.s.nodes, n) == x;
      }
    }
  }

  lemma LeafSound(s: State, w: Walk, r: Walk, path: Path, refs: multiset<nat>)
    requires WalkOk(w) && w.ok && w.s.freeStack != [] && path != [] && Last(path) !in w.s.nodes[w.cur].children
    requires LeafStep(w, r, Last(path)) && Find(w.s.nodes, Init(path)) == Some(w.cur)
    requires forall b :: 0 <= b < |r.s.blocks| ==>
               if b == Last(w.s.freeStack) then r.s.blocks[b].isPrefixCached else r.s.blocks[b] == w.s.blocks[b]
    requires WalkSound(s, w, Init(path), refs) && (refs + multiset(w.held))[Last(w.s.freeStack)] == 0
    requires forall l :: Holder(s, l) ==> multiset(l) <= refs
    ensures WalkSound(s, r, path, refs)
  {
    var b := Last(w.s.freeStack);
    LeafValid(w, r, Last(path), refs + multiset(w.held));
    assert refs + multiset(w.held + [b]) == refs + multiset(w.held) + multiset{b};
    assert multiset(w.held)[b] == 0;
    LeafChain(w, r, Last(path), w.held);
    ChainOneMore(r.s, w.held, |w.s.nodes|);
    forall l | Holder(s, l) ensures Chain(r.s, l) {
      assert multiset(l)[b] <= refs[b];
      LeafChain(w, r, Last(path), l);
    }
    LeafCovers(w, r, path);
  }

  lemma LeafCovers(w: Walk, r: Walk, path: Path)
    requires WalkOk(w) && w.s.freeStack != [] && path != [] && Last(path) !in w.s.nodes[w.cur].children
    requires LeafStep(w, r, Last(path)) && Find(w.s.nodes, Init(path)) == Some(w.cur)
    requires |w.held| == |Init(path)| && Covers(w.s, w.held, Init(path))
    ensures |r.held| == |path| && Covers(r.s, r.held, path)
  {
    var p := Init(path);
    OnPathKept(w, r, path, p);
    assert Find(r.s.nodes, path) == Some(|w.s.nodes|);
    assert BlocksOn(r.s.nodes, path) == BlocksOn(w.s.nodes, p) + [Last(w.s.freeStack)];
    assert w.held[..|p|] == w.held && r.held[..|path|] == r.held;
    assert NodesOn(r.s.nodes, path) == NodesOn(w.s.nodes, p) + [|w.s.nodes|];
  }

  // ----- The loop -----

  lemma {:induction false} WalkKeepsSound(s: State, id: nat, path: Path, refs: multiset<nat>)
    requires Wf(s) && AccountedFor(s, refs) && ValidOk(s, refs) && ChainsOk(s)
    requires forall n :: n in NodesOn(s.nodes, HitPath(s.nodes, path)) ==> n in s.valid
    requires LiveOn(s, path) && forall l :: Holder(s, l) ==> multiset(l) <= refs
    ensures WalkSound(s, WalkChunks(s, id, path), path, refs)
  {
    if Find(s.nodes, path).Some? {
      assert path[..|path|] == path;
      WalkHits(s, id, path);
      HitsSound(s, id, path, WalkChunks(s, id, path), refs);
    } else {
      TakeInit(path, CachedPrefix(s.nodes, path));
      WalkKeepsSound(s, id, Init(path), refs);
      var w := WalkChunks(s, id, Init(path));
      if w.ok {
        LastStep(s, id, path, w);
        WalkBalanced(s, id, Init(path), refs);
        StepKeepsSound(s, id, path, refs, w, WalkChunks(s, id, path));
      }
    }
  }

  lemma StepKeepsSound(s: State, id: nat, path: Path, refs: multiset<nat>, w: Walk, r: Walk)
    requires WalkOk(w) && w.ok && path != [] && Last(path) !in w.s.nodes[w.cur].children
             && r == WalkStep(w, id, Last(path))
    requires w.s.freeStack == [] ==> r == w.(s := w.s.(lookups := w.s.lookups + 1), ok := false)
    requires w.s.freeStack != [] ==> LeafStep(w, r, Last(path))
    requires Find(w.s.nodes, Init(path)) == Some(w.cur)
    requires Balanced(w, refs) && WalkSound(s, w, Init(path), refs)
    requires forall l :: Holder(s, l) ==> multiset(l) <= refs
    ensures WalkSound(s, r, path, refs)
  {
    if w.s.freeStack == [] {
      FailSound(s, w, r, path, refs);
    } else {
      LeafBlocks(w, id, Last(path));
      assert Last(w.s.freeStack) in w.s.freeStack;
      LeafSound(s, w, r, path, refs);
    }
  }

  lemma FailSound(s: State, w: Walk, r: Walk, path: Path, refs: multiset<nat>)
    requires path != [] && WalkSound(s, w, Init(path), refs)
    requires r == w.(s := w.s.(lookups := w.s.lookups + 1), ok := false)
    ensures WalkSound(s, r, path, refs)
  {
    ValidOkKept(w.s, r.s, refs + multiset(w.held), refs + multiset(r.held));
    LookupChain(w.s, r.s, w.held);
    forall l | Holder(s, l) ensures Chain(r.s, l) {
      LookupChain(w.s, r.s, l);
    }
  }

  lemma LookupChain(s: State, t: State, l: seq<nat>)
    requires Chain(s, l) && t.nodes == s.nodes && t.parents == s.parents && t.valid == s.valid
    ensures Chain(t, l)
  {
  }

  // ----- Other sequences during the loop -----

  /** The loop's new nodes are valid, and no node stops being valid. */
  lemma {:induction false} ValidAfterWalk(s: State, id: nat, path: Path)
    requires Wf(s)
    ensures var w := WalkChunks(s, id, path);
            forall n :: n in w.s.valid <==> n in s.valid || |s.nodes| <= n < |w.s.nodes|
  {
    if Find(s.nodes, path).Some? {
      WalkHits(s, id, path);
    } else {
      ValidAfterWalk(s, id, Init(path));
      WalkCounts(s, id, Init(path));
      var w := WalkChunks(s, id, Init(path));
      if w.ok { LastStep(s, id, path, w); }
    }
  }

  /** Cached paths keep their nodes and blocks. */
  lemma {:induction false} OnPathAfterWalk(s: State, id: nat, path: Path, p: Path)
    requires Wf(s) && Find(s.nodes, p).Some?
    ensures var w := WalkChunks(s, id, path);
            && Find(w.s.nodes, p) == Find(s.nodes, p)
            && NodesOn(w.s.nodes, p) == NodesOn(s.nodes, p) && BlocksOn(w.s.nodes, p) == BlocksOn(s.nodes, p)
  {
    FindAfterWalk(s, id, path, CachedPrefix(s.nodes, path), p);
    if p == [] {
    } else {
      OnPathAfterWalk(s, id, path, Init(p));
      FindInRange(s.nodes, s.parents, |s.blocks|, p);
      OldBlocksAfterWalk(s, id, path, Find(s.nodes, p).value);
    }
  }

  lemma PromptsAfterWalk(s: State, id: nat, path: Path, t: State)
    requires Wf(s) && PromptsOk(s)
    requires t.nodes == WalkChunks(s, id, path).s.nodes && t.valid == WalkChunks(s, id, path).s.valid
    requires t.tables == s.tables && t.prompts == s.prompts && t.cfg == s.cfg
    ensures PromptsOk(t)
  {
    ValidAfterWalk(s, id, path);
    forall k | k in t.prompts ensures PromptOk(t, k) {
      assert PromptOk(s, k);
      OnPathAfterWalk(s, id, path, Chunks(s.prompts[k], s.cfg.blockSize));
    }
  }

  /** Valid hits land on blocks in use. */
  lemma ValidHitsAreLive(s: State, prompt: seq<u32>)
    requires Wf(s) && Accounted(s) && ValidOk(s, Held(s)) && ValidHits(s, prompt)
    ensures LiveHits(s, prompt)
  {
    var cs := Chunks(prompt, s.cfg.blockSize);
    var hp := HitPath(s.nodes, cs);
    CachedPrefixIsLongest(s.nodes, cs, |hp|);
    forall b | b in BlocksOn(s.nodes, hp) ensures b < |s.blocks| && s.blocks[b].refCount > 0 {
      BlocksOnNodes(s, hp, b);
      var n :| n in NodesOn(s.nodes, hp) && BlockOf(s.nodes, n) == b;
      assert NodeLive(s, Held(s), n);
    }
  }

  // ----- The whole call -----

  /** The remainder block was free, so it joins the chain without a node. */
  lemma TakeKeepsSound(s: State, w: Walk, id: nat, path: Path, refs: multiset<nat>)
    requires WalkOk(w) && w.ok && Balanced(w, refs) && WalkSound(s, w, path, refs)
    ensures var r := TakeBlock(w, id);
            && ValidOk(r.s, refs + multiset(r.held)) && Chain(r.s, r.held)
            && (forall l :: Holder(s, l) ==> Chain(r.s, l))
            && (r.ok ==> Covers(r.s, r.held, path))
            && r.s.nodes == w.s.nodes && r.s.valid == w.s.valid
  {
    var r := TakeBlock(w, id);
    TakeFlags(w, id, refs + multiset(w.held));
    if r.ok {
      var b := Last(w.s.freeStack);
      assert r.held == w.held + [b] && b in w.s.freeStack;
      assert refs + multiset(w.held) <= refs + multiset(r.held);
      ValidOkKept(w.s, r.s, refs + multiset(w.held), refs + multiset(r.held));
      FreshChain(w.s, w.held, [b], refs + multiset(w.held));
      assert r.held[..|path|] == w.held[..|path|];
    }
    LookupChain(w.s, r.s, r.held);
    forall l | Holder(s, l) ensures Chain(r.s, l) {
      LookupChain(w.s, r.s, l);
    }
  }

  /** The state of the loop and the remainder together. */
  ghost predicate PromptTaken(s: State, w: Walk, path: Path) {
    && ValidOk(w.s, Held(s) + multiset(w.held)) && Chain(w.s, w.held)
    && (forall l :: Holder(s, l) ==> Chain(w.s, l))
    && (w.ok ==> Covers(w.s, w.held, path))
    && PromptsOk(w.s)
    && w.s.cfg == s.cfg && w.s.tables == s.tables && w.s.loose == s.loose && w.s.prompts == s.prompts
  }

  lemma TakePromptSound(s: State, id: nat, prompt: seq<u32>)
    requires Wf(s) && Accounted(s) && CacheSound(s) && ValidHits(s, prompt)
    ensures PromptTaken(s, TakePrompt(s, id, prompt), Chunks(prompt, s.cfg.blockSize))
  {
    var cs := Chunks(prompt, s.cfg.blockSize);
    forall l | Holder(s, l) ensures multiset(l) <= Held(s) { HolderCounts(s, l); }
    ValidHitsAreLive(s, prompt);
    WalkKeepsSound(s, id, cs, Held(s));
    WalkBalanced(s, id, cs, Held(s));
    TakePromptFrame(s, id, prompt);
    var w := WalkChunks(s, id, cs);
    if w.ok && Overhang(|prompt|, s.cfg.blockSize) != 0 {
      TakeKeepsSound(s, w, id, cs, Held(s));
    }
    PromptsAfterWalk(s, id, cs, TakePrompt(s, id, prompt).s);
  }

  lemma PutPromptSound(s: State, w: Walk, id: nat, prompt: seq<u32>, t: State)
    requires s.cfg.blockSize > 0 && WalkOk(w) && w.ok && PromptTaken(s, w, Chunks(prompt, s.cfg.blockSize))
    requires t == PutTable(w.s, id, PageTable(|prompt|, w.held), Some(prompt))
    ensures CacheSound(t)
  {
    PutTableHeld(w.s, id, PageTable(|prompt|, w.held), Some(prompt));
    assert Held(w.s) == Held(s);
    ValidOkKept(w.s, t, Held(s) + multiset(w.held), Held(t));
    forall k | Holder(t, k) ensures Chain(t, k) {
      HoldersAfterPut(w.s, t, id, PageTable(|prompt|, w.held), k);
      assert k == w.held || Holder(s, k);
      LookupChain(w.s, t, k);
    }
    PutPrompts(w.s, t, id, PageTable(|prompt|, w.held), Some(prompt));
  }

  lemma LeakPromptSound(s: State, w: Walk, path: Path, t: State)
    requires WalkOk(w) && PromptTaken(s, w, path) && t == Leak(w)
    ensures CacheSound(t)
  {
    LeakHeld(w);
    assert Held(w.s) == Held(s);
    ValidOkKept(w.s, t, Held(s) + multiset(w.held), Held(t));
    forall k | Holder(t, k) ensures Chain(t, k) {
      assert k == w.held || Holder(s, k);
      LookupChain(w.s, t, k);
    }
    PromptsKept(w.s, t);
  }

  lemma MatchKeepsSound(s: State, id: nat, prompt: seq<u32>)
    requires Wf(s) && Accounted(s) && CacheSound(s) && ValidHits(s, prompt)
    ensures CacheSound(MatchOrAllocatePrefix(s, id, prompt).0)
  {
    var s0 := if id in s.tables then s else RegisterSequence(s, id);
    RegisterSound(s, id);
    RegisterAccounted(s, id);
    var t := MatchOrAllocatePrefix(s, id, prompt).0;
    AdmitKeepsSound(s0, id, prompt, t);
  }

  lemma AdmitKeepsSound(s: State, id: nat, prompt: seq<u32>, t: State)
    requires Wf(s) && Accounted(s) && CacheSound(s) && ValidHits(s, prompt)
    requires var w := TakePrompt(s, id, prompt);
             t == if w.ok then PutTable(w.s, id, PageTable(|prompt|, w.held), Some(prompt)) else Leak(w)
    ensures CacheSound(t)
  {
    TakePromptSound(s, id, prompt);
    var w := TakePrompt(s, id, prompt);
    if w.ok {
      PutPromptSound(s, w, id, prompt, t);
    } else {
      LeakPromptSound(s, w, Chunks(prompt, s.cfg.blockSize), t);
    }
  }

  /** A successful call leaves the cache sound only if every hit was valid. */
  lemma SoundMeansValidHits(s: State, id: nat, prompt: seq<u32>)
    requires Wf(s) && MatchOrAllocatePrefix(s, id, prompt).1.Ok? && CacheSound(MatchOrAllocatePrefix(s, id, prompt).0)
    ensures ValidHits(s, prompt)
  {
    var s0 := if id in s.tables then s else RegisterSequence(s, id);
    CoveredMeansValid(s0, id, prompt, MatchOrAllocatePrefix(s, id, prompt).0);
  }

  lemma CoveredMeansValid(s: State, id: nat, prompt: seq<u32>, t: State)
    requires Wf(s) && PromptsOk(t)
    requires var w := TakePrompt(s, id, prompt);
             w.ok && t == PutTable(w.s, id, PageTable(|prompt|, w.held), Some(prompt))
    ensures ValidHits(s, prompt)
  {
    assert t.cfg == s.cfg && t.prompts[id] == prompt && PromptOk(t, id);
    CoveredHitsAreValid(s, id, Chunks(prompt, s.cfg.blockSize), t);
  }

  /** If all nodes on the path are valid after the loop, those it found were valid before. */
  lemma CoveredHitsAreValid(s: State, id: nat, path: Path, t: State)
    requires Wf(s) && t.nodes == WalkChunks(s, id, path).s.nodes && t.valid == WalkChunks(s, id, path).s.valid
    requires forall n :: n in NodesOn(t.nodes, path) ==> n in t.valid
    ensures forall n :: n in NodesOn(s.nodes, HitPath(s.nodes, path)) ==> n in s.valid
  {
    var hp := HitPath(s.nodes, path);
    CachedPrefixIsLongest(s.nodes, path, |hp|);
    OnPathAfterWalk(s, id, path, hp);
    ValidAfterWalk(s, id, path);
    OnPathPrefix(t.nodes, path, |hp|);
    forall n | n in NodesOn(s.nodes, hp) ensures n in s.valid {
      assert n in NodesOn(t.nodes, path)[..|hp|];
      assert n in NodesOn(t.nodes, path);
      NodesOnInRange(s, hp, n);
    }
  }

  lemma {:induction false} NodesOnInRange(s: State, path: Path, n: nat)
    requires Wf(s) && Find(s.nodes, path).Some? && n in NodesOn(s.nodes, path)
    ensures 0 < n < |s.nodes|
  {
    FindInRange(s.nodes, s.parents, |s.blocks|, path);
    if n == Find(s.nodes, path).GetOr(0) {
    } else {
      NodesOnInRange(s, Init(path), n);
    }
  }

  /** A successful admission keeps the cache sound exactly when every hit is valid. */
  lemma AdmissionIsSoundIffHitsValid(s: State, id: nat, prompt: seq<u32>)
    requires Wf(s) && Accounted(s) && CacheSound(s) && MatchOrAllocatePrefix(s, id, prompt).1.Ok?
    ensures CacheSound(MatchOrAllocatePrefix(s, id, prompt).0) <==> ValidHits(s, prompt)
  {
    if ValidHits(s, prompt) {
      MatchKeepsSound(s, id, prompt);
    }
    if CacheSound(MatchOrAllocatePrefix(s, id, prompt).0) {
      SoundMeansValidHits(s, id, prompt);
    }
  }

  /** Every hit of this call lands on a node that still stands for its block. */
  predicate CurrentHits(s: State, prompt: seq<u32>)
    requires s.cfg.blockSize > 0
  {
    forall n :: n in NodesOn(s.nodes, HitPath(s.nodes, Chunks(prompt, s.cfg.blockSize))) ==> Current(s, n)
  }

  lemma ValidHitsIffCurrent(s: State, prompt: seq<u32>)
    requires Wf(s) && CacheSound(s)
    ensures ValidHits(s, prompt) <==> CurrentHits(s, prompt)
  {
    var hp := HitPath(s.nodes, Chunks(prompt, s.cfg.blockSize));
    CachedPrefixIsLongest(s.nodes, Chunks(prompt, s.cfg.blockSize), |hp|);
    forall n | n in NodesOn(s.nodes, hp) ensures n in s.valid <==> Current(s, n) {
      NodesOnInRange(s, hp, n);
      ValidIffCurrent(s, n);
    }
  }

  // ----- Runs -----

  /** The calls after which the cache stays sound. */
  predicate Careful(s: State, op: Op)
    requires Wf(s)
  {
    match op
    case Match(id, prompt) => CurrentHits(s, prompt)
    case _ => Disciplined(s, op)
  }

  lemma StepSound(s: State, op: Op)
    requires Wf(s) && Accounted(s) && CacheSound(s) && Careful(s, op)
    ensures Accounted(Step(s, op)) && CacheSound(Step(s, op))
  {
    if op.Match? {
      ValidHitsIffCurrent(s, op.prompt);
      ValidHitsAreLive(s, op.prompt);
    }
    StepAccounted(s, op);
    match op
    case Allocate => AllocateOpSound(s);
    case Free(b) => FreeOpSound(s, b);
    case Register(id) => RegisterSound(s, id);
    case Match(id, prompt) => MatchKeepsSound(s, id, prompt);
    case Append(id, n) => AppendSound(s, id, n);
    case Fork(p, c) => ForkSound(s, p, c);
    case Rollback(id, retain) => RollbackSound(s, id, retain);
    case FreeSeq(id) => FreeSequenceSound(s, id);
  }

  predicate RunCareful(s: State, ops: seq<Op>)
    requires Wf(s)
  {
    ops == [] || (RunCareful(s, Init(ops)) && Careful(Run(s, Init(ops)), Last(ops)))
  }

  lemma {:induction false} RunsSound(s: State, ops: seq<Op>)
    requires Wf(s) && Accounted(s) && CacheSound(s) && RunCareful(s, ops)
    ensures Accounted(Run(s, ops)) && CacheSound(Run(s, ops))
  {
    if ops == [] {
    } else {
      RunsSound(s, Init(ops));
      StepSound(Run(s, Init(ops)), Last(ops));
    }
  }
}
