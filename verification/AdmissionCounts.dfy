/** The block records after a prompt match, whatever its hits land on. */
module AdmissionCounts {
  import opened Prelude
  import opened BlockSpace
  import opened PrefixTrie
  import opened PrefixMatching
  import opened Runs

  /** A record after so many hits for `id`. */
  function Referenced(rec: PhysicalBlock, hits: nat, id: nat): PhysicalBlock {
    if hits == 0 then rec
    else rec.(refCount := rec.refCount + hits, isPrefixCached := true, mappedSeqId := Some(id))
  }

  /** Blocks taken for chunks are cached, the one for the remainder is not, and hits add up on all others. */
  ghost predicate RecordedAfter(before: seq<PhysicalBlock>, after: seq<PhysicalBlock>, hit: seq<nat>,
                                cached: seq<nat>, plain: seq<nat>, id: nat) {
    && |after| == |before|
    && (forall b :: 0 <= b < |before| ==>
          after[b] == if b in plain then PhysicalBlock(1, false, Some(id), false, false)
                      else if b in cached then PhysicalBlock(1, false, Some(id), true, false)
                      else Referenced(before[b], multiset(hit)[b], id))
  }

  /** Blocks taken from the pool are counted once, all others once more for every hit. */
  ghost predicate CountedAfter(before: seq<PhysicalBlock>, after: seq<PhysicalBlock>, hit: seq<nat>, taken: seq<nat>) {
    && |after| == |before|
    && (forall b :: 0 <= b < |before| ==>
          after[b].refCount == if b in taken then 1 else before[b].refCount + multiset(hit)[b])
  }

  lemma HitsRecorded(s: State, id: nat, path: Path, w: Walk)
    requires HitPhase(s, id, path, w)
    ensures RecordedAfter(s.blocks, w.s.blocks, w.held, [], [], id)
  {
    assert forall b :: b in w.held <==> multiset(w.held)[b] > 0;
  }

  /** The record of the block taken for a new leaf; no other changes. */
  lemma LeafRecord(w: Walk, id: nat, chunk: Chunk)
    requires WalkOk(w) && w.ok && w.s.freeStack != [] && chunk !in w.s.nodes[w.cur].children
    ensures var r := WalkStep(w, id, chunk);
            && |r.s.blocks| == |w.s.blocks|
            && (forall b :: 0 <= b < |r.s.blocks| ==>
                  r.s.blocks[b] == if b == Last(w.s.freeStack) then PhysicalBlock(1, false, Some(id), true, false)
                                   else w.s.blocks[b])
  {
  }

  lemma {:induction false} WalkRecorded(s: State, id: nat, path: Path, hit: seq<nat>)
    requires Wf(s) && hit == BlocksOn(s.nodes, HitPath(s.nodes, path))
    ensures RecordedAfter(s.blocks, WalkChunks(s, id, path).s.blocks, hit, Top(s.freeStack, NewNodes(s, path)), [], id)
  {
    if Find(s.nodes, path).Some? {
      WalkHits(s, id, path);
      assert path[..|path|] == path;
      HitsRecorded(s, id, path, WalkChunks(s, id, path));
      assert Top(s.freeStack, 0) == [];
    } else {
      var w := WalkChunks(s, id, Init(path));
      TakeInit(path, CachedPrefix(s.nodes, path));
      WalkRecorded(s, id, Init(path), hit);
      NewNodesGrow(s, id, path, CachedPrefix(s.nodes, path), w);
      WalkCounts(s, id, Init(path));
      if w.ok { LeafRecorded(s, id, path, hit, w, NewNodes(s, Init(path))); }
    }
  }

  lemma LeafRecorded(s: State, id: nat, path: Path, hit: seq<nat>, w: Walk, x: nat)
    requires Wf(s) && Find(s.nodes, path).None? && w == WalkChunks(s, id, Init(path)) && w.ok
    requires x <= |s.freeStack| && w.s.freeStack == s.freeStack[..|s.freeStack| - x]
    requires RecordedAfter(s.blocks, w.s.blocks, hit, Top(s.freeStack, x), [], id)
    ensures var r := WalkChunks(s, id, path);
            if w.s.freeStack == [] then r.s.blocks == w.s.blocks
            else x < |s.freeStack| && RecordedAfter(s.blocks, r.s.blocks, hit, Top(s.freeStack, x + 1), [], id)
  {
    LastStep(s, id, path, w);
    if w.s.freeStack != [] {
      LeafRecord(w, id, Last(path));
      TopOne(s.freeStack, x);
      CachedOneMore(s.blocks, w.s.blocks, WalkChunks(s, id, path).s.blocks, hit, Top(s.freeStack, x), id,
                    Last(w.s.freeStack));
    }
  }

  lemma CachedOneMore(before: seq<PhysicalBlock>, mid: seq<PhysicalBlock>, after: seq<PhysicalBlock>, hit: seq<nat>,
                      cached: seq<nat>, id: nat, b: nat)
    requires RecordedAfter(before, mid, hit, cached, [], id) && |after| == |mid|
    requires forall k :: 0 <= k < |mid| ==>
               after[k] == if k == b then PhysicalBlock(1, false, Some(id), true, false) else mid[k]
    ensures RecordedAfter(before, after, hit, cached + [b], [], id)
  {
  }

  lemma PlainOne(before: seq<PhysicalBlock>, mid: seq<PhysicalBlock>, after: seq<PhysicalBlock>, hit: seq<nat>,
                 cached: seq<nat>, id: nat, b: nat)
    requires RecordedAfter(before, mid, hit, cached, [], id) && |after| == |mid|
    requires forall k :: 0 <= k < |mid| ==>
               after[k] == if k == b then PhysicalBlock(1, false, Some(id), false, false) else mid[k]
    ensures RecordedAfter(before, after, hit, cached, [b], id)
  {
  }

  lemma LoopRecorded(s: State, id: nat, prompt: seq<u32>, new_: nat, k: nat, w: Walk)
    requires Wf(s) && w == WalkChunks(s, id, Chunks(prompt, s.cfg.blockSize))
    requires new_ == |Chunks(prompt, s.cfg.blockSize)| - |HitBlocks(s, prompt)| && k == Min(new_, |s.freeStack|)
    ensures w.s.freeStack == s.freeStack[..|s.freeStack| - k] && (w.ok <==> new_ <= |s.freeStack|)
    ensures Shortfall(s, prompt) == new_ + (if Overhang(|prompt|, s.cfg.blockSize) == 0 then 0 else 1)
    ensures RecordedAfter(s.blocks, w.s.blocks, HitBlocks(s, prompt), Top(s.freeStack, k), [], id)
  {
    WalkRecorded(s, id, Chunks(prompt, s.cfg.blockSize), HitBlocks(s, prompt));
    WalkCounts(s, id, Chunks(prompt, s.cfg.blockSize));
  }

  lemma RemainderRecorded(s: State, id: nat, w: Walk, hit: seq<nat>, k: nat)
    requires WalkOk(w) && w.ok && k < |s.freeStack| && w.s.freeStack == s.freeStack[..|s.freeStack| - k]
    requires RecordedAfter(s.blocks, w.s.blocks, hit, Top(s.freeStack, k), [], id)
    ensures RecordedAfter(s.blocks, TakeBlock(w, id).s.blocks, hit, Top(s.freeStack, k), Top(s.freeStack, k + 1)[k..],
                          id)
  {
    TakeRecords(w, id);
    TopOne(s.freeStack, k);
    PlainOne(s.blocks, w.s.blocks, TakeBlock(w, id).s.blocks, hit, Top(s.freeStack, k), id, Last(w.s.freeStack));
    assert Top(s.freeStack, k + 1)[k..] == [Last(w.s.freeStack)];
  }

  /** The loop and the remainder. */
  lemma TakePromptRecorded(s: State, id: nat, prompt: seq<u32>, new_: nat, k: nat, x: nat)
    requires Wf(s) && new_ == |Chunks(prompt, s.cfg.blockSize)| - |HitBlocks(s, prompt)|
    requires k == Min(new_, |s.freeStack|) && x == Min(Shortfall(s, prompt), |s.freeStack|)
    ensures k <= x
    ensures RecordedAfter(s.blocks, TakePrompt(s, id, prompt).s.blocks, HitBlocks(s, prompt),
                          Top(s.freeStack, k), Top(s.freeStack, x)[k..], id)
  {
    var w := WalkChunks(s, id, Chunks(prompt, s.cfg.blockSize));
    LoopRecorded(s, id, prompt, new_, k, w);
    var more := w.ok && Overhang(|prompt|, s.cfg.blockSize) != 0 && w.s.freeStack != [];
    TakePromptIs(s, id, prompt, w);
    RestEmpty(s.freeStack, k, w.s.freeStack);
    assert x == k + (if more then 1 else 0);
    EndRecorded(s, id, w, TakePrompt(s, id, prompt).s.blocks, HitBlocks(s, prompt), k, x, more);
  }

  lemma RestEmpty(stack: seq<nat>, k: nat, rest: seq<nat>)
    requires k <= |stack| && rest == stack[..|stack| - k]
    ensures rest == [] <==> k == |stack|
  {
  }

  lemma EndRecorded(s: State, id: nat, w: Walk, after: seq<PhysicalBlock>, hit: seq<nat>, k: nat, x: nat, more: bool)
    requires WalkOk(w) && k <= |s.freeStack| && w.s.freeStack == s.freeStack[..|s.freeStack| - k]
    requires more ==> w.ok && w.s.freeStack != []
    requires x == (if more then k + 1 else k) && after == (if more then TakeBlock(w, id).s.blocks else w.s.blocks)
    requires RecordedAfter(s.blocks, w.s.blocks, hit, Top(s.freeStack, k), [], id)
    ensures x <= |s.freeStack|
    ensures RecordedAfter(s.blocks, after, hit, Top(s.freeStack, k), Top(s.freeStack, x)[k..], id)
  {
    if more {
      RestEmpty(s.freeStack, k, w.s.freeStack);
      RemainderRecorded(s, id, w, hit, k);
    } else {
      assert Top(s.freeStack, k)[k..] == [];
    }
  }

  lemma TakePromptIs(s: State, id: nat, prompt: seq<u32>, w: Walk)
    requires Wf(s) && w == WalkChunks(s, id, Chunks(prompt, s.cfg.blockSize))
    ensures var more := w.ok && Overhang(|prompt|, s.cfg.blockSize) != 0 && w.s.freeStack != [];
            TakePrompt(s, id, prompt).s.blocks == if more then TakeBlock(w, id).s.blocks else w.s.blocks
  {
  }

  /**
   The records after a match of a prompt with `new_` new chunks, whether it succeeds or runs out of blocks:
   every block taken from the pool is counted once and mapped to the sequence, even if it was hit before, and is
   cached exactly when it was taken for a chunk; every other block is counted once more per hit, and if hit
   mapped to the sequence and cached.
   */
  lemma MatchRecorded(s: State, id: nat, prompt: seq<u32>, new_: nat, k: nat, x: nat)
    requires Wf(s) && new_ == |Chunks(prompt, s.cfg.blockSize)| - |HitBlocks(s, prompt)|
    requires k == Min(new_, |s.freeStack|) && x == Min(Shortfall(s, prompt), |s.freeStack|)
    ensures k <= x
    ensures RecordedAfter(s.blocks, MatchOrAllocatePrefix(s, id, prompt).0.blocks, HitBlocks(s, prompt),
                          Top(s.freeStack, k), Top(s.freeStack, x)[k..], id)
  {
    var s0 := Registered(s, id);
    RegisteredSame(s, id, prompt);
    assert s0.blocks == s.blocks;
    TakePromptRecorded(s0, id, prompt, new_, k, x);
    KeptBlocks(s0, id, prompt);
  }

  lemma KeptBlocks(s: State, id: nat, prompt: seq<u32>)
    requires Wf(s) && id in s.tables
    ensures MatchOrAllocatePrefix(s, id, prompt).0.blocks == TakePrompt(s, id, prompt).s.blocks
  {
  }

  /** The counts alone. */
  lemma MatchCounted(s: State, id: nat, prompt: seq<u32>)
    requires Wf(s) && Shortfall(s, prompt) <= |s.freeStack|
    ensures CountedAfter(s.blocks, MatchOrAllocatePrefix(s, id, prompt).0.blocks,
                         HitBlocks(s, prompt), Top(s.freeStack, Shortfall(s, prompt)))
  {
    var need := Shortfall(s, prompt);
    var k := |Chunks(prompt, s.cfg.blockSize)| - |HitBlocks(s, prompt)|;
    MatchRecorded(s, id, prompt, k, k, need);
    TopPrefix(s.freeStack, k, need);
    CountsOfRecords(s.blocks, MatchOrAllocatePrefix(s, id, prompt).0.blocks, HitBlocks(s, prompt),
                    Top(s.freeStack, k), Top(s.freeStack, need)[k..], id);
  }

  lemma TopPrefix(stack: seq<nat>, k: nat, x: nat)
    requires k <= x <= |stack|
    ensures Top(stack, k) + Top(stack, x)[k..] == Top(stack, x)
  {
  }

  lemma CountsOfRecords(before: seq<PhysicalBlock>, after: seq<PhysicalBlock>, hit: seq<nat>, cached: seq<nat>,
                        plain: seq<nat>, id: nat)
    requires RecordedAfter(before, after, hit, cached, plain, id)
    ensures CountedAfter(before, after, hit, cached + plain)
  {
  }
}
