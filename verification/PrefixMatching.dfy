/** Prefix matching as a whole: its result, the table it builds and what it does to the map of cached paths. */
module PrefixMatching {
  import opened Prelude
  import opened BlockSpace
  import opened PrefixTrie

  /** Blocks a prompt needs beyond those it finds. */
  function Shortfall(s: State, prompt: seq<u32>): nat
    requires s.cfg.blockSize > 0
  {
    var cs := Chunks(prompt, s.cfg.blockSize);
    |cs| - CachedPrefix(s.nodes, cs) + (if Overhang(|prompt|, s.cfg.blockSize) == 0 then 0 else 1)
  }

  /** The loop and the remainder: hits first, then the top of the free stack while it lasts. */
  lemma TakePromptShape(s: State, id: nat, prompt: seq<u32>)
    requires Wf(s)
    ensures var w := TakePrompt(s, id, prompt);
            var x := Min(Shortfall(s, prompt), |s.freeStack|);
            && (w.ok <==> Shortfall(s, prompt) <= |s.freeStack|)
            && w.matched == |HitBlocks(s, prompt)|
            && w.held == HitBlocks(s, prompt) + Top(s.freeStack, x)
            && w.s.freeStack == s.freeStack[..|s.freeStack| - x]
            && w.s.tables == s.tables
  {
    var cs := Chunks(prompt, s.cfg.blockSize);
    WalkMisses(s, id, cs, CachedPrefix(s.nodes, cs));
    RemainderShape(s, id, |prompt|, HitBlocks(s, prompt), cs, WalkChunks(s, id, cs), TakePrompt(s, id, prompt),
                   Shortfall(s, prompt));
  }

  lemma RemainderShape(s: State, id: nat, tokens: nat, hit: seq<nat>, path: Path, w: Walk, r: Walk, need: nat)
    requires WalkOk(w) && |hit| <= |path| && MissPhase(s, path, hit, w)
    requires r == if !w.ok || Overhang(tokens, w.s.cfg.blockSize) == 0 then w else TakeBlock(w, id)
    requires need == |path| - |hit| + (if Overhang(tokens, w.s.cfg.blockSize) == 0 then 0 else 1)
    ensures var x := Min(need, |s.freeStack|);
            && (r.ok <==> need <= |s.freeStack|) && r.matched == |hit|
            && r.held == hit + Top(s.freeStack, x) && r.s.freeStack == s.freeStack[..|s.freeStack| - x]
            && r.s.tables == s.tables
  {
    if w.ok && Overhang(tokens, w.s.cfg.blockSize) != 0 && w.s.freeStack != [] {
      TopOne(s.freeStack, |path| - |hit|);
    }
  }

  /**
   The whole outcome: success exactly when the free pool covers the shortfall, reporting the longest
   cached prefix; the table is the cached blocks followed by the top of the stack, in order. On failure
   the pool is drained and no table but a new empty one has changed.
   */
  lemma MatchOutcome(s: State, id: nat, prompt: seq<u32>)
    requires Wf(s)
    ensures var (t, r) := MatchOrAllocatePrefix(s, id, prompt);
            var need := Shortfall(s, prompt);
            if need <= |s.freeStack| then
              && r == Ok(|HitBlocks(s, prompt)|)
              && t.freeStack == s.freeStack[..|s.freeStack| - need]
              && t.tables == s.tables[id := PageTable(|prompt|, HitBlocks(s, prompt) + Top(s.freeStack, need))]
            else
              && r == Err(OutOfMemory)
              && t.freeStack == []
              && t.tables == if id in s.tables then s.tables else s.tables[id := PageTable(0, [])]
  {
    var s0 := Registered(s, id);
    RegisteredSame(s, id, prompt);
    TakePromptShape(s0, id, prompt);
    var o := MatchOrAllocatePrefix(s, id, prompt);
    FinishMatch(s0, id, |prompt|, prompt, TakePrompt(s0, id, prompt), o.0, o.1);
    PutTwice(s.tables, id, PageTable(0, []), PageTable(|prompt|, TakePrompt(s0, id, prompt).held));
  }

  /** The manager after the registration that opens a call. */
  function Registered(s: State, id: nat): State
    requires Wf(s)
  {
    if id in s.tables then s else RegisterSequence(s, id)
  }

  /** Registration changes nothing a match looks at. */
  lemma RegisteredSame(s: State, id: nat, prompt: seq<u32>)
    requires Wf(s)
    ensures var s0 := Registered(s, id);
            && Wf(s0) && s0.freeStack == s.freeStack && s0.cfg == s.cfg && s0.nodes == s.nodes
            && HitBlocks(s0, prompt) == HitBlocks(s, prompt) && Shortfall(s0, prompt) == Shortfall(s, prompt)
            && s0.tables == if id in s.tables then s.tables else s.tables[id := PageTable(0, [])]
  {
  }

  lemma PutTwice<T>(m: map<nat, T>, id: nat, x: T, y: T)
    ensures m[id := x][id := y] == m[id := y]
  {
  }

  lemma FinishMatch(s: State, id: nat, tokens: nat, prompt: seq<u32>, w: Walk, t: State, r: Result<nat>)
    requires WalkOk(w) && w.s.tables == s.tables
    requires (t, r) == if !w.ok then (Leak(w), Err(OutOfMemory))
             else (PutTable(w.s, id, PageTable(tokens, w.held), Some(prompt)), Ok(w.matched))
    ensures t.freeStack == w.s.freeStack
    ensures w.ok ==> r == Ok(w.matched) && t.tables == s.tables[id := PageTable(tokens, w.held)]
    ensures !w.ok ==> r == Err(OutOfMemory) && t.tables == s.tables
  {
  }

  /**
   The hit-ratio counters: a hit per found chunk, and a lookup per chunk up to the one that finds no block, if
   there is one.
   */
  lemma MatchCounters(s: State, id: nat, prompt: seq<u32>)
    requires Wf(s)
    ensures var t := MatchOrAllocatePrefix(s, id, prompt).0;
            && t.hits == s.hits + |HitBlocks(s, prompt)|
            && t.lookups == s.lookups
               + Min(|Chunks(prompt, s.cfg.blockSize)|, |HitBlocks(s, prompt)| + |s.freeStack| + 1)
  {
    var s0 := Registered(s, id);
    RegisteredSame(s, id, prompt);
    TakePromptCounters(s0, id, prompt);
    KeptCounters(s0, id, prompt);
  }

  lemma TakePromptCounters(s: State, id: nat, prompt: seq<u32>)
    requires Wf(s)
    ensures var t := TakePrompt(s, id, prompt).s;
            && t.hits == s.hits + |HitBlocks(s, prompt)|
            && t.lookups == s.lookups
               + Min(|Chunks(prompt, s.cfg.blockSize)|, |HitBlocks(s, prompt)| + |s.freeStack| + 1)
  {
    var cs := Chunks(prompt, s.cfg.blockSize);
    WalkMisses(s, id, cs, CachedPrefix(s.nodes, cs));
  }

  lemma KeptCounters(s: State, id: nat, prompt: seq<u32>)
    requires Wf(s) && id in s.tables
    ensures var t, u := MatchOrAllocatePrefix(s, id, prompt).0, TakePrompt(s, id, prompt).s;
            t.hits == u.hits && t.lookups == u.lookups
  {
  }

  /** The reported number is the length of the longest cached block-prefix. */
  lemma ReportsLongestPrefix(s: State, prompt: seq<u32>, k: nat)
    requires s.cfg.blockSize > 0 && k <= |Chunks(prompt, s.cfg.blockSize)|
    ensures Find(s.nodes, Chunks(prompt, s.cfg.blockSize)[..k]).Some? <==> k <= |HitBlocks(s, prompt)|
  {
    CachedPrefixIsLongest(s.nodes, Chunks(prompt, s.cfg.blockSize), k);
  }

  /** The state of the trie after a call is that after its chunk loop. */
  lemma MatchTrie(s: State, id: nat, prompt: seq<u32>, t: State)
    requires Wf(s) && t == MatchOrAllocatePrefix(s, id, prompt).0
    ensures t.nodes == WalkChunks(Registered(s, id), id, Chunks(prompt, s.cfg.blockSize)).s.nodes
  {
  }

  /** The block of path `q` after matching `path`: as before, or one taken for a new prefix of `path`, or none. */
  function BlockAfter(nodes: seq<TrieNode>, stack: seq<nat>, path: Path, q: Path): Option<nat> {
    var m := CachedPrefix(nodes, path);
    if Find(nodes, q).Some? then Cached(nodes, q)
    else if Added(path, m, Paid(nodes, stack, path), q) then Some(FromTop(stack, |q| - m - 1))
    else None
  }

  /**
   The trie refines a map from chunk paths to blocks: a call adds exactly the prompt's block-prefixes from
   the first missing one to the last for which a block was left, with the blocks it took for them, and
   leaves every other entry, present or absent, as it was.
   */
  lemma TrieRefinesMap(s: State, id: nat, prompt: seq<u32>, q: Path)
    requires Wf(s)
    ensures Cached(MatchOrAllocatePrefix(s, id, prompt).0.nodes, q)
            == BlockAfter(s.nodes, s.freeStack, Chunks(prompt, s.cfg.blockSize), q)
  {
    RegisteredSame(s, id, prompt);
    MatchTrie(s, id, prompt, MatchOrAllocatePrefix(s, id, prompt).0);
    CachedAfterWalk(Registered(s, id), id, Chunks(prompt, s.cfg.blockSize), q);
  }

  lemma CachedAfterWalk(s: State, id: nat, path: Path, q: Path)
    requires Wf(s)
    ensures Cached(WalkChunks(s, id, path).s.nodes, q) == BlockAfter(s.nodes, s.freeStack, path, q)
  {
    var m := CachedPrefix(s.nodes, path);
    if Find(s.nodes, q).Some? {
      OldEntry(s, id, path, q);
    } else if Added(path, m, NewNodes(s, path), q) {
      NewEntry(s, id, path, m, |q| - m - 1, |s.nodes| + |q| - m - 1, q);
    } else {
      NoEntry(s, id, path, m, q);
    }
  }

  /** A new path has the block that was taken for it. */
  lemma NewEntry(s: State, id: nat, path: Path, m: nat, i: nat, n: nat, q: Path)
    requires Wf(s) && m == CachedPrefix(s.nodes, path) && Find(s.nodes, q).None? && Added(path, m, NewNodes(s, path), q)
    requires |q| == m + i + 1 && n == |s.nodes| + i
    ensures Cached(WalkChunks(s, id, path).s.nodes, q) == Some(FromTop(s.freeStack, i))
  {
    NewPathFound(s, id, path, m, n, q);
    NewBlocksAfterWalk(s, id, path, i, n);
  }

  lemma NewPathFound(s: State, id: nat, path: Path, m: nat, n: nat, q: Path)
    requires Wf(s) && m == CachedPrefix(s.nodes, path) && Find(s.nodes, q).None? && Added(path, m, NewNodes(s, path), q)
    requires n == |s.nodes| + |q| - m - 1
    ensures Find(WalkChunks(s, id, path).s.nodes, q) == Some(n)
  {
    FindAfterWalk(s, id, path, m, q);
  }

  /** Any other path stays absent. */
  lemma NoEntry(s: State, id: nat, path: Path, m: nat, q: Path)
    requires Wf(s) && m == CachedPrefix(s.nodes, path) && Find(s.nodes, q).None?
             && !Added(path, m, NewNodes(s, path), q)
    ensures Cached(WalkChunks(s, id, path).s.nodes, q).None?
  {
    FindAfterWalk(s, id, path, m, q);
  }

  /** An old path keeps its block. */
  lemma OldEntry(s: State, id: nat, path: Path, q: Path)
    requires Wf(s) && Find(s.nodes, q).Some?
    ensures Cached(WalkChunks(s, id, path).s.nodes, q) == Cached(s.nodes, q)
  {
    FindAfterWalk(s, id, path, CachedPrefix(s.nodes, path), q);
    FindInRange(s.nodes, s.parents, |s.blocks|, q);
    OldBlocksAfterWalk(s, id, path, Find(s.nodes, q).value);
  }

  /** Afterwards the trie holds exactly the block-prefixes up to the failing chunk: on success, all of them. */
  lemma PrefixesPresent(s: State, id: nat, prompt: seq<u32>, k: nat)
    requires Wf(s) && k <= |Chunks(prompt, s.cfg.blockSize)|
    ensures var (t, r) := MatchOrAllocatePrefix(s, id, prompt);
            var cs := Chunks(prompt, s.cfg.blockSize);
            && (Find(t.nodes, cs[..k]).Some? <==> k <= CachedPrefix(s.nodes, cs) + Paid(s.nodes, s.freeStack, cs))
            && (r.Ok? ==> Find(t.nodes, cs[..k]).Some?)
  {
    var cs := Chunks(prompt, s.cfg.blockSize);
    RegisteredSame(s, id, prompt);
    MatchTrie(s, id, prompt, MatchOrAllocatePrefix(s, id, prompt).0);
    PathsAfterWalk(Registered(s, id), id, cs, k);
    MatchOutcome(s, id, prompt);
  }

  lemma PathsAfterWalk(s: State, id: nat, path: Path, k: nat)
    requires Wf(s) && k <= |path|
    ensures Find(WalkChunks(s, id, path).s.nodes, path[..k]).Some?
            <==> k <= CachedPrefix(s.nodes, path) + Paid(s.nodes, s.freeStack, path)
  {
    FindAfterWalk(s, id, path, CachedPrefix(s.nodes, path), path[..k]);
    CachedPrefixIsLongest(s.nodes, path, k);
    assert |path[..k]| == k;
  }

  /** An admitted table holds, page for page, the blocks the trie then has for the prompt's block-prefixes. */
  lemma TableFollowsTrie(s: State, id: nat, prompt: seq<u32>, i: nat)
    requires Wf(s) && MatchOrAllocatePrefix(s, id, prompt).1.Ok? && i < |Chunks(prompt, s.cfg.blockSize)|
    ensures var t := MatchOrAllocatePrefix(s, id, prompt).0;
            && id in t.tables && i < |t.tables[id].blockIds|
            && Cached(t.nodes, Chunks(prompt, s.cfg.blockSize)[..i + 1]) == Some(t.tables[id].blockIds[i])
  {
    var cs := Chunks(prompt, s.cfg.blockSize);
    MatchOutcome(s, id, prompt);
    TrieRefinesMap(s, id, prompt, cs[..i + 1]);
    EntryAgrees(s, cs, Shortfall(s, prompt), i);
  }

  /** The map's entry for a prefix is the block in the table that a successful match builds. */
  lemma EntryAgrees(s: State, path: Path, need: nat, i: nat)
    requires TrieOk(s.nodes, s.parents, |s.blocks|) && i < |path| && need <= |s.freeStack|
    requires need >= |path| - CachedPrefix(s.nodes, path)
    ensures var hit := BlocksOn(s.nodes, HitPath(s.nodes, path));
            |hit| == CachedPrefix(s.nodes, path)
            && BlockAfter(s.nodes, s.freeStack, path, path[..i + 1]) == Some((hit + Top(s.freeStack, need))[i])
  {
    var hit := BlocksOn(s.nodes, HitPath(s.nodes, path));
    if i < CachedPrefix(s.nodes, path) {
      HeldFollowsTrie(s, path, |hit|, i);
      HeldFirst(hit, Top(s.freeStack, need), i);
    } else {
      NewEntryAgrees(s.nodes, s.freeStack, path, |hit|, i);
      HeldFromTop(hit, s.freeStack, need, i);
    }
  }

  lemma NewEntryAgrees(nodes: seq<TrieNode>, stack: seq<nat>, path: Path, m: nat, i: nat)
    requires m == CachedPrefix(nodes, path) <= i < |path| && |path| - m <= |stack|
    ensures BlockAfter(nodes, stack, path, path[..i + 1]) == Some(FromTop(stack, i - m))
  {
    CachedPrefixIsLongest(nodes, path, i + 1);
    assert |path[..i + 1]| == i + 1;
  }

  lemma HeldFirst(hit: seq<nat>, taken: seq<nat>, i: nat)
    requires i < |hit|
    ensures (hit + taken)[i] == hit[i]
  {
  }

  lemma HeldFromTop(hit: seq<nat>, stack: seq<nat>, need: nat, i: nat)
    requires need <= |stack| && |hit| <= i < |hit| + need
    ensures (hit + Top(stack, need))[i] == FromTop(stack, i - |hit|)
  {
  }

  lemma HeldFollowsTrie(s: State, path: Path, m: nat, i: nat)
    requires TrieOk(s.nodes, s.parents, |s.blocks|) && m == CachedPrefix(s.nodes, path) && i < m
    ensures Cached(s.nodes, path[..i + 1]) == Some(BlocksOn(s.nodes, HitPath(s.nodes, path))[i])
  {
    OnPathAt(s.nodes, path[..m], i);
    assert path[..m][..i + 1] == path[..i + 1];
    CachedPrefixIsLongest(s.nodes, path, i + 1);
    CachedIsFound(s.nodes, s.parents, |s.blocks|, path[..i + 1]);
  }

  /** The arena is a tree: every node but the root has one parent, earlier in the arena, under its own chunk. */
  lemma OneParent(s: State, j: nat)
    requires Wf(s) && 0 < j < |s.nodes|
    ensures s.parents[j] < j && s.nodes[j].chunk in s.nodes[s.parents[j]].children
    ensures forall i, c :: 0 <= i < |s.nodes| && c in s.nodes[i].children ==>
              (s.nodes[i].children[c] == j <==> i == s.parents[j] && c == s.nodes[j].chunk)
  {
    assert NodeOk(s.nodes, s.parents, |s.blocks|, j);
    forall i, c | 0 <= i < |s.nodes| && c in s.nodes[i].children
      ensures s.nodes[i].children[c] == j <==> i == s.parents[j] && c == s.nodes[j].chunk
    {
      assert ChildOk(s.nodes, s.parents, i, c);
    }
  }

  /** A fresh pool hands out its blocks in ascending order: page i of the first admitted table is block i. */
  lemma FreshPoolInOrder(cfg: Config, id: nat, prompt: seq<u32>, i: nat)
    requires cfg.blockSize > 0 && BlocksFor(|prompt|, cfg.blockSize) <= cfg.totalBlocks
    requires i < BlocksFor(|prompt|, cfg.blockSize)
    ensures var (t, r) := MatchOrAllocatePrefix(InitState(cfg), id, prompt);
            && r == Ok(0) && id in t.tables && |t.tables[id].blockIds| == BlocksFor(|prompt|, cfg.blockSize)
            && t.tables[id].blockIds[i] == i
  {
    FullPoolInOrder(InitState(cfg), id, prompt, i);
  }

  lemma FullPoolInOrder(s: State, id: nat, prompt: seq<u32>, i: nat)
    requires Wf(s) && |s.nodes| == 1 && s.nodes[0].children == map[] && s.freeStack == CountDown(s.cfg.totalBlocks)
    requires i < BlocksFor(|prompt|, s.cfg.blockSize) <= s.cfg.totalBlocks
    ensures var (t, r) := MatchOrAllocatePrefix(s, id, prompt);
            && r == Ok(0) && id in t.tables && |t.tables[id].blockIds| == BlocksFor(|prompt|, s.cfg.blockSize)
            && t.tables[id].blockIds[i] == i
  {
    NothingCached(s, prompt);
    BlocksForFloor(|prompt|, s.cfg.blockSize);
    MatchOutcome(s, id, prompt);
  }

  lemma NothingCached(s: State, prompt: seq<u32>)
    requires s.cfg.blockSize > 0 && |s.nodes| == 1 && s.nodes[0].children == map[]
    ensures HitBlocks(s, prompt) == [] && CachedPrefix(s.nodes, Chunks(prompt, s.cfg.blockSize)) == 0
  {
    var cs := Chunks(prompt, s.cfg.blockSize);
    if cs != [] {
      CachedPrefixIsLongest(s.nodes, cs, 1);
      assert Init(cs[..1]) == [];
    }
  }
}
