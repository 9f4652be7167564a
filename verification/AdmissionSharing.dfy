/**
 What one admission shares. The program can tell a node that still stands for its block: the block is
 flagged as cached and no later node names it. A hit on any other node shares wrongly exactly when another
 sequence holds that block there.
 */
module AdmissionSharing {
  import opened Prelude
  import opened BlockSpace
  import opened PrefixTrie
  import opened Accounting
  import opened PrefixSharing
  import opened SharingRuns
  import opened MatchSound
  import opened PrefixMatching

  /** A successful admission keeps the cache sound exactly when every hit lands on a current node. */
  lemma AdmissionIsSoundIffHitsCurrent(s: State, id: nat, prompt: seq<u32>)
    requires Wf(s) && Accounted(s) && CacheSound(s) && MatchOrAllocatePrefix(s, id, prompt).1.Ok?
    ensures CacheSound(MatchOrAllocatePrefix(s, id, prompt).0) <==> CurrentHits(s, prompt)
  {
    AdmissionIsSoundIffHitsValid(s, id, prompt);
    ValidHitsIffCurrent(s, prompt);
  }

  // ----- What the new table shares -----

  /** Both prompts fill chunk `i`. */
  predicate BothFill(s: State, a: nat, prompt: seq<u32>, i: nat)
    requires s.cfg.blockSize > 0
  {
    a in s.prompts && i < PageOf(|s.prompts[a]|, s.cfg.blockSize) && i < PageOf(|prompt|, s.cfg.blockSize)
  }

  /** The two tables hold the same block at chunk `i` exactly when the prompts agree that far. */
  predicate SharesRightly(t: State, a: nat, p: seq<u32>, b: nat, q: seq<u32>, i: nat) {
    && a in t.tables && b in t.tables && i < |t.tables[a].blockIds| && i < |t.tables[b].blockIds|
    && var n := TokensIn(i + 1, t.cfg.blockSize);
       && n <= |p| && n <= |q|
       && (t.tables[a].blockIds[i] == t.tables[b].blockIds[i] <==> p[..n] == q[..n])
  }

  /** The hit at chunk `i` lands on a node that lost its block, and sequence `a` holds that block at `i`. */
  predicate Clashes(s: State, prompt: seq<u32>, a: nat, i: nat)
    requires s.cfg.blockSize > 0
  {
    && i < |HitBlocks(s, prompt)|
    && a in s.tables && i < |s.tables[a].blockIds| && s.tables[a].blockIds[i] == HitBlocks(s, prompt)[i]
    && !Current(s, NodesOn(s.nodes, HitPath(s.nodes, Chunks(prompt, s.cfg.blockSize)))[i])
  }

  /**
   A successful admission shares rightly with an admitted sequence at a full chunk, in the sense that the
   tables hold the same block exactly when the prompts agree up to there, if and only if the two do not
   clash: no hit on a node that lost its block to that sequence.
   */
  lemma AdmissionSharesRightly(s: State, id: nat, prompt: seq<u32>, a: nat, i: nat)
    requires Wf(s) && Accounted(s) && CacheSound(s) && MatchOrAllocatePrefix(s, id, prompt).1.Ok?
    requires a != id && BothFill(s, a, prompt, i)
    ensures SharesRightly(MatchOrAllocatePrefix(s, id, prompt).0, a, s.prompts[a], id, prompt, i)
            <==> !Clashes(s, prompt, a, i)
  {
    var bs := s.cfg.blockSize;
    assert PromptOk(s, a);
    AdmittedTable(s, id, prompt);
    ChunksAgree(s.prompts[a], prompt, bs, i + 1);
    SharesByChunks(s, s.tables[a].blockIds, Chunks(s.prompts[a], bs), Chunks(prompt, bs), Shortfall(s, prompt), i);
  }

  lemma AdmittedTable(s: State, id: nat, prompt: seq<u32>)
    requires Wf(s) && MatchOrAllocatePrefix(s, id, prompt).1.Ok?
    ensures var t := MatchOrAllocatePrefix(s, id, prompt).0;
            var need := Shortfall(s, prompt);
            && t.cfg == s.cfg && |Chunks(prompt, s.cfg.blockSize)| - |HitBlocks(s, prompt)| <= need <= |s.freeStack|
            && t.tables == s.tables[id := PageTable(|prompt|, HitBlocks(s, prompt) + Top(s.freeStack, need))]
  {
    MatchOutcome(s, id, prompt);
  }

  /** The same for chunk paths: `l` is a covered list, `p` the path walked. */
  lemma SharesByChunks(s: State, l: seq<nat>, path: Path, p: Path, need: nat, i: nat)
    requires Wf(s) && CacheSound(s) && Accounted(s) && Covers(s, l, path) && i < |path| && i < |p|
    requires (exists a :: a in s.tables && s.tables[a].blockIds == l)
    requires |p| - CachedPrefix(s.nodes, p) <= need <= |s.freeStack|
    ensures var hit := BlocksOn(s.nodes, HitPath(s.nodes, p));
            && |hit| == CachedPrefix(s.nodes, p)
            && ((l[i] == (hit + Top(s.freeStack, need))[i] <==> path[..i + 1] == p[..i + 1])
                <==> !(i < |hit| && l[i] == hit[i] && !Current(s, NodesOn(s.nodes, HitPath(s.nodes, p))[i])))
  {
    if i < CachedPrefix(s.nodes, p) {
      HitShares(s, l, path, p, i);
    } else {
      MissedPathDiffers(s, l, path, p, i);
      MissShares(s, l, need, i - CachedPrefix(s.nodes, p), i);
    }
  }

  /** A path the trie does not hold is no covered one. */
  lemma MissedPathDiffers(s: State, l: seq<nat>, path: Path, p: Path, i: nat)
    requires Covers(s, l, path) && CachedPrefix(s.nodes, p) <= i < |p| && i < |path|
    ensures path[..i + 1] != p[..i + 1]
  {
    CachedPrefixIsLongest(s.nodes, p, i + 1);
    FindPrefixClosed(s.nodes, path, i + 1);
  }

  /** A hit shares with a covered list exactly when its node is the covered one, or another that lost this block. */
  lemma HitShares(s: State, l: seq<nat>, path: Path, p: Path, i: nat)
    requires Wf(s) && CacheSound(s) && Covers(s, l, path) && i < |path| && i < CachedPrefix(s.nodes, p)
    ensures var hp := HitPath(s.nodes, p);
            (l[i] == BlocksOn(s.nodes, hp)[i] <==> path[..i + 1] == p[..i + 1])
            <==> (l[i] == BlocksOn(s.nodes, hp)[i] ==> Current(s, NodesOn(s.nodes, hp)[i]))
  {
    var hp := HitPath(s.nodes, p);
    OnPathAt(s.nodes, hp, i);
    assert hp[..i + 1] == p[..i + 1];
    CachedPrefixIsLongest(s.nodes, p, i + 1);
    CoversAt(s, l, path, i);
    NodesShare(s, path[..i + 1], p[..i + 1]);
  }

  /**
   Two cached paths, the first of a valid node: their blocks agree exactly when the paths do or the second
   node lost the block.
   */
  lemma NodesShare(s: State, path: Path, p: Path)
    requires Wf(s) && CacheSound(s) && path != [] && p != [] && Find(s.nodes, path).Some? && Find(s.nodes, p).Some?
    requires Find(s.nodes, path).value in s.valid
    ensures (Cached(s.nodes, path).GetOr(0) == Cached(s.nodes, p).GetOr(0) <==> path == p)
            <==> (Cached(s.nodes, path).GetOr(0) == Cached(s.nodes, p).GetOr(0)
                  ==> Current(s, Find(s.nodes, p).GetOr(0)))
  {
    FindInRange(s.nodes, s.parents, |s.blocks|, path);
    FindInRange(s.nodes, s.parents, |s.blocks|, p);
    var n, m := Find(s.nodes, path).value, Find(s.nodes, p).value;
    ValidIffCurrent(s, m);
    if n == m { FindIsInjective(s.nodes, s.parents, |s.blocks|, path, p); }
  }

  /** A block just taken from the free stack is in no table. */
  lemma MissShares(s: State, l: seq<nat>, need: nat, j: nat, i: nat)
    requires Wf(s) && Accounted(s) && (exists a :: a in s.tables && s.tables[a].blockIds == l)
    requires need <= |s.freeStack| && j < need && i < |l|
    ensures l[i] != Top(s.freeStack, need)[j]
  {
    var a :| a in s.tables && s.tables[a].blockIds == l;
    TableCounts(s.tables, a);
    TopIsFresh(s, Held(s), need);
    assert Top(s.freeStack, need)[j] in Top(s.freeStack, need);
    assert multiset(l)[l[i]] > 0;
    assert multiset(l)[l[i]] <= Held(s)[l[i]];
  }
}
