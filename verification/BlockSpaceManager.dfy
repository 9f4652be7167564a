/** The block-space manager with its fields updated in place; every method is tied to the function that specifies it. */
module Manager {
  import opened Prelude
  import opened BlockSpace
  import opened PrefixTrie
  import opened Addresses
  import opened TableExport
  import ReferenceCounts

  class BlockSpaceManager {
    const cfg: Config
    const physicalBlocks: array<PhysicalBlock>
    var freeStack: seq<nat>
    var pageTables: map<nat, PageTable>
    var nodes: seq<TrieNode>
    var prefixCacheLookups: nat
    var prefixCacheHits: nat

    // History, see `BlockSpace.State`.
    ghost var loose: seq<seq<nat>>
    ghost var valid: set<nat>
    ghost var prompts: map<nat, seq<u32>>
    ghost var parents: seq<nat>

    ghost function Model(): State
      reads this, physicalBlocks
    {
      State(cfg, physicalBlocks[..], freeStack, pageTables, nodes, prefixCacheLookups, prefixCacheHits, loose, valid,
            prompts, parents)
    }

    ghost predicate Valid()
      reads this, physicalBlocks
    {
      Wf(Model())
    }

    constructor (totalBlocks: nat, blockSize: nat, maxBlocksPerSeq: nat)
      requires blockSize > 0
      ensures Valid() && fresh(physicalBlocks)
      ensures Model() == InitState(Config(totalBlocks, blockSize, maxBlocksPerSeq))
    {
      cfg := Config(totalBlocks, blockSize, maxBlocksPerSeq);
      var stack: seq<nat> := [];
      for id := totalBlocks downto 0
        invariant stack + CountDown(id) == CountDown(totalBlocks)
      {
        assert CountDown(id + 1) == [id as nat] + CountDown(id);
        stack := stack + [id];
      }
      freeStack := stack;
      var blocks := new PhysicalBlock[totalBlocks](_ => FREE_BLOCK);
      physicalBlocks := blocks;
      pageTables := map[];
      nodes := [TrieNode(None, [], map[])];
      prefixCacheLookups, prefixCacheHits := 0, 0;
      loose, valid, prompts, parents := [], {}, map[], [0];
      new;
      assert freeStack == CountDown(totalBlocks);
      assert physicalBlocks[..] == seq(totalBlocks, i => FREE_BLOCK);
    }

    method SetBlock(b: nat, rec: PhysicalBlock)
      requires b < physicalBlocks.Length
      modifies physicalBlocks
      ensures Model() == old(Model()).(blocks := old(Model()).blocks[b := rec])
    {
      physicalBlocks[b] := rec;
      assert physicalBlocks[..] == old(physicalBlocks[..])[b := rec];
    }

    method AllocateBlock() returns (r: Result<nat>)
      requires Valid()
      modifies this, physicalBlocks
      ensures Valid()
      ensures (Model(), r) == BlockSpace.AllocateBlock(old(Model()))
    {
      if freeStack == [] {
        return Err(OutOfMemory);
      }
      var b := Last(freeStack);
      freeStack := Init(freeStack);
      SetBlock(b, physicalBlocks[b].(isFree := false, refCount := 1, isPrefixCached := false, isSpeculative := false));
      r := Ok(b);
    }

    method FreeBlock(b: nat) returns (r: Result<()>)
      requires Valid()
      modifies this, physicalBlocks
      ensures Valid()
      ensures (Model(), r) == BlockSpace.FreeBlock(old(Model()), b)
    {
      if b >= cfg.totalBlocks {
        return Err(DoubleFree(b));
      }
      var block := physicalBlocks[b];
      if block.refCount == 0 {
        return Err(DoubleFree(b));
      }
      block := block.(refCount := block.refCount - 1);
      if block.refCount == 0 {
        block := block.(isFree := true, mappedSeqId := None, isPrefixCached := false, isSpeculative := false);
        if b !in freeStack {
          freeStack := freeStack + [b];
        }
        valid := set n | n in valid && nodes[n].block != Some(b);
      }
      SetBlock(b, block);
      r := Ok(());
    }

    /** Free a list front to back, stopping at the first error. */
    method FreeBlocks(l: seq<nat>) returns (r: Result<()>)
      requires Valid()
      modifies this, physicalBlocks
      ensures Valid()
      ensures (Model(), r) == FreeAll(old(Model()), l)
    {
      for i := 0 to |l|
        invariant Valid()
        invariant FreeAll(old(Model()), l) == FreeAll(Model(), l[i..])
      {
        assert l[i..][0] == l[i] && l[i..][1..] == l[i + 1..];
        r := FreeBlock(l[i]);
        if r.Err? {
          return;
        }
      }
      r := Ok(());
    }

    /** Insert a page table, recording what it displaces. */
    method StoreTable(seqId: nat, table: PageTable, ghost covered: Option<seq<u32>>)
      requires Valid() && AllBelow(table.blockIds, physicalBlocks.Length)
      modifies this
      ensures Valid()
      ensures Model() == PutTable(old(Model()), seqId, table, covered)
    {
      loose := AddLoose(loose, Stranded(Model(), seqId));
      prompts := if covered.Some? then prompts[seqId := covered.value] else prompts - {seqId};
      pageTables := pageTables[seqId := table];
    }

    method RegisterSequence(seqId: nat)
      requires Valid()
      modifies this
      ensures Valid()
      ensures Model() == BlockSpace.RegisterSequence(old(Model()), seqId)
    {
      StoreTable(seqId, PageTable(0, []), None);
    }

    method MatchOrAllocatePrefix(seqId: nat, promptTokens: seq<u32>) returns (r: Result<nat>)
      requires Valid()
      modifies this, physicalBlocks
      ensures Valid()
      ensures (Model(), r) == BlockSpace.MatchOrAllocatePrefix(old(Model()), seqId, promptTokens)
    {
      if seqId !in pageTables {
        RegisterSequence(seqId);
      }
      ghost var s0 := Model();
      // 1. Traverse the trie, inserting what is missing.
      var ok, matched, held, curr := VisitChunks(seqId, promptTokens);
      // 2. The remainder tokens.
      if ok && Overhang(|promptTokens|, cfg.blockSize) > 0 {
        ok, held := NewBlock(seqId, held, curr, matched);
      }
      ghost var w := TakePrompt(s0, seqId, promptTokens);
      assert w == Walk(Model(), curr, held, matched, ok);
      if !ok {
        loose := AddLoose(loose, held);
        assert Model() == Leak(w);
        return Err(OutOfMemory);
      }
      // 3. The page table.
      StoreTable(seqId, PageTable(|promptTokens|, held), Some(promptTokens));
      r := Ok(matched);
    }

    /** The loop over the full chunks of the prompt. */
    method VisitChunks(seqId: nat, promptTokens: seq<u32>)
        returns (ok: bool, matched: nat, held: seq<nat>, ghost curr: nat)
      requires Valid()
      modifies this, physicalBlocks
      ensures Valid()
      ensures WalkChunks(old(Model()), seqId, Chunks(promptTokens, cfg.blockSize))
              == Walk(Model(), curr, held, matched, ok)
    {
      ghost var s0 := Model();
      ghost var cs := Chunks(promptTokens, cfg.blockSize);
      var numFullBlocks := PageOf(|promptTokens|, cfg.blockSize);
      var node: nat := 0;
      ok, matched, held, curr := true, 0, [], 0;
      for i := 0 to numFullBlocks
        invariant ok && node == curr
        invariant WalkChunks(s0, seqId, cs[..i]) == Walk(Model(), curr, held, matched, true)
      {
        var chunk := ReadChunk(promptTokens, i);
        WalkOneMore(s0, seqId, cs, i);
        ok, node, matched, held := VisitChunk(seqId, node, chunk, matched, held);
        curr := node;
        if !ok {
          WalkStaysFailed(s0, seqId, cs, i + 1);
          return;
        }
      }
      assert cs[..numFullBlocks] == cs;
    }

    method ReadChunk(promptTokens: seq<u32>, i: nat) returns (chunk: Chunk)
      requires cfg.blockSize > 0 && i < PageOf(|promptTokens|, cfg.blockSize)
      ensures chunk == Chunks(promptTokens, cfg.blockSize)[i]
    {
      FullPageInRange(|promptTokens|, cfg.blockSize, i);
      var start := i * cfg.blockSize;
      chunk := promptTokens[start..start + cfg.blockSize];
    }

    /** One iteration of that loop. */
    method VisitChunk(seqId: nat, curr: nat, chunk: Chunk, matched: nat, held: seq<nat>)
      returns (ok: bool, curr': nat, matched': nat, held': seq<nat>)
      requires WalkOk(Walk(Model(), curr, held, matched, true))
      modifies this, physicalBlocks
      ensures Walk(Model(), curr', held', matched', ok)
              == WalkStep(Walk(old(Model()), curr, held, matched, true), seqId, chunk)
    {
      ghost var w := Walk(Model(), curr, held, matched, true);
      CountLookup();
      if chunk in nodes[curr].children {
        var child := nodes[curr].children[chunk];
        HitIs(w, seqId, chunk, child);
        if nodes[child].block.Some? {
          held' := ShareCached(seqId, child, held, matched);
          return true, child, matched + 1, held';
        }
      }
      MissIs(w, seqId, chunk);
      ok, curr', held' := NewLeaf(seqId, curr, chunk, held, matched);
      matched' := matched;
    }

    method CountLookup()
      modifies this
      ensures Model() == Looked(old(Model()))
    {
      prefixCacheLookups := prefixCacheLookups + 1;
    }

    /** One more reference to the block of a cached chunk. */
    method ShareCached(seqId: nat, child: nat, held: seq<nat>, ghost matched: nat) returns (held': seq<nat>)
      requires Valid() && 0 < child < |nodes|
      modifies this, physicalBlocks
      ensures Walk(Model(), child, held', matched + 1, true) == AfterHit(old(Model()), seqId, child, held, matched)
    {
      assert NodeOk(nodes, parents, physicalBlocks.Length, child);
      var b := nodes[child].block.value;
      var rec := physicalBlocks[b];
      SetBlock(b, rec.(refCount := rec.refCount + 1, isPrefixCached := true, mappedSeqId := Some(seqId)));
      prefixCacheHits := prefixCacheHits + 1;
      held' := held + [b];
    }

    /** Allocate a block for a chunk that is not cached, and cache it. */
    method NewLeaf(seqId: nat, curr: nat, chunk: Chunk, held: seq<nat>, ghost matched: nat)
        returns (ok: bool, curr': nat, held': seq<nat>)
      requires Valid() && curr < |nodes|
      modifies this, physicalBlocks
      ensures Walk(Model(), curr', held', matched, ok) == AfterMiss(old(Model()), seqId, chunk, curr, held, matched)
    {
      var a := AllocateBlock();
      if a.Err? {
        return false, curr, held;
      }
      var b := a.value;
      SetBlock(b, physicalBlocks[b].(mappedSeqId := Some(seqId), isPrefixCached := true));
      var index := |nodes|;
      nodes := nodes + [TrieNode(Some(b), chunk, map[])];
      nodes := nodes[curr := nodes[curr].(children := nodes[curr].children[chunk := index])];
      parents := parents + [curr];
      valid := valid + {index};
      return true, index, held + [b];
    }

    /** Allocate one more block outside the trie. */
    method NewBlock(seqId: nat, held: seq<nat>, ghost curr: nat, ghost matched: nat) returns (ok: bool, held': seq<nat>)
      requires Valid() && curr < |nodes| && AllBelow(held, physicalBlocks.Length)
      modifies this, physicalBlocks
      ensures Valid()
      ensures Walk(Model(), curr, held', matched, ok) == TakeBlock(Walk(old(Model()), curr, held, matched, true), seqId)
    {
      var a := AllocateBlock();
      if a.Err? {
        return false, held;
      }
      SetBlock(a.value, physicalBlocks[a.value].(mappedSeqId := Some(seqId)));
      return true, held + [a.value];
    }

    method AppendTokens(seqId: nat, numNewTokens: nat) returns (r: Result<()>)
      requires Valid()
      modifies this, physicalBlocks
      ensures Valid()
      ensures (Model(), r) == BlockSpace.AppendTokens(old(Model()), seqId, numNewTokens)
    {
      if seqId !in pageTables {
        return Err(SequenceNotFound(seqId));
      }
      var table := pageTables[seqId];
      var newTokens := table.logicalTokens + numNewTokens;
      var needed := BlocksFor(newTokens, cfg.blockSize);
      if needed > cfg.maxBlocksPerSeq {
        return Err(CapacityExceeded);
      }
      var count := if needed > |table.blockIds| then needed - |table.blockIds| else 0;
      assert newTokens == Lengthened(Model(), seqId, numNewTokens) && count == Wanted(Model(), seqId, numNewTokens);
      var ok, newBlocks := AllocateBlocks(seqId, count);
      ExtendTable(seqId, ok, newTokens, newBlocks);
      r := if ok then Ok(()) else Err(OutOfMemory);
    }

    /** Append the new blocks to the table, or record that nobody holds them. */
    method ExtendTable(seqId: nat, ok: bool, newTokens: nat, newBlocks: seq<nat>)
      requires Valid() && seqId in pageTables && AllBelow(newBlocks, physicalBlocks.Length)
      modifies this
      ensures Valid()
      ensures Model() == FinishAppend(Walk(old(Model()), 0, newBlocks, 0, ok), seqId, newTokens)
    {
      if !ok {
        loose := AddLoose(loose, newBlocks);
        return;
      }
      pageTables := pageTables[seqId := PageTable(newTokens, pageTables[seqId].blockIds + newBlocks)];
    }

    /** The allocation loop of an append. */
    method AllocateBlocks(seqId: nat, count: nat) returns (ok: bool, newBlocks: seq<nat>)
      requires Valid()
      modifies this, physicalBlocks
      ensures Valid()
      ensures AllocateMany(old(Model()), seqId, count) == Walk(Model(), 0, newBlocks, 0, ok)
    {
      ok, newBlocks := true, [];
      for k := 0 to count
        invariant Valid() && ok && AllBelow(newBlocks, physicalBlocks.Length)
        invariant AllocateMany(old(Model()), seqId, k) == Walk(Model(), 0, newBlocks, 0, true)
      {
        ok, newBlocks := NewBlock(seqId, newBlocks, 0, 0);
        if !ok {
          AllocationStaysFailed(old(Model()), seqId, k + 1, count);
          return;
        }
      }
    }

    method ForkSequenceCow(parentSeqId: nat, childSeqId: nat) returns (r: Result<()>)
      requires Valid()
      modifies this, physicalBlocks
      ensures Valid()
      ensures (Model(), r) == BlockSpace.ForkSequence(old(Model()), parentSeqId, childSeqId)
    {
      if parentSeqId !in pageTables {
        return Err(SequenceNotFound(parentSeqId));
      }
      var parentTable := pageTables[parentSeqId];
      ShareBlocks(parentTable.blockIds);
      assert Valid() by { ShareOk(old(Model()), parentTable.blockIds); }
      StoreTable(childSeqId, PageTable(parentTable.logicalTokens, parentTable.blockIds),
                 if parentSeqId in prompts then Some(prompts[parentSeqId]) else None);
      r := Ok(());
    }

    /** One more reference to every block of a list. */
    method ShareBlocks(l: seq<nat>)
      requires AllBelow(l, physicalBlocks.Length)
      modifies physicalBlocks
      ensures physicalBlocks[..] == Share(old(physicalBlocks[..]), l)
    {
      ghost var before := physicalBlocks[..];
      for i := 0 to |l|
        invariant physicalBlocks[..] == Share(before, l[..i])
      {
        ghost var now := physicalBlocks[..];
        physicalBlocks[l[i]] := physicalBlocks[l[i]].(refCount := physicalBlocks[l[i]].refCount + 1);
        assert physicalBlocks[..] == now[l[i] := now[l[i]].(refCount := now[l[i]].refCount + 1)];
        assert l[..i + 1] == l[..i] + [l[i]];
        ShareOne(before, l[..i], l[i]);
      }
      assert l[..|l|] == l;
    }

    method RollbackSequence(seqId: nat, tokensToRetain: nat) returns (r: Result<()>)
      requires Valid()
      modifies this, physicalBlocks
      ensures Valid()
      ensures Model() == BlockSpace.RollbackSequence(old(Model()), seqId, tokensToRetain).0
      ensures r == BlockSpace.RollbackSequence(old(Model()), seqId, tokensToRetain).1
    {
      if seqId !in pageTables {
        return Err(SequenceNotFound(seqId));
      }
      var left, freed := PopBlocks(pageTables[seqId].blockIds, BlocksFor(tokensToRetain, cfg.blockSize));
      pageTables := pageTables[seqId := PageTable(tokensToRetain, left)];
      if seqId in prompts {
        prompts := prompts[seqId := prompts[seqId][..Min(tokensToRetain, |prompts[seqId]|)]];
      }
      r := FreeBlocks(freed);
    }

    /** Pop block ids until `needed` are left, last one first. */
    method PopBlocks(blockIds: seq<nat>, needed: nat) returns (left: seq<nat>, freed: seq<nat>)
      ensures left == blockIds[..Min(needed, |blockIds|)]
      ensures freed == Reverse(blockIds[Min(needed, |blockIds|)..])
    {
      left, freed := blockIds, [];
      while |left| > needed
        invariant |left| <= |blockIds| && left == blockIds[..|left|] && |left| >= Min(needed, |blockIds|)
        invariant freed == Reverse(blockIds[|left|..])
      {
        assert Reverse(blockIds[|left| - 1..]) == Reverse(blockIds[|left|..]) + [Last(left)];
        freed := freed + [Last(left)];
        left := Init(left);
      }
    }

    method FreeSequence(seqId: nat) returns (r: Result<()>)
      requires Valid()
      modifies this, physicalBlocks
      ensures Valid()
      ensures (Model(), r) == BlockSpace.FreeSequence(old(Model()), seqId)
    {
      if seqId !in pageTables {
        return Ok(());
      }
      var table := pageTables[seqId];
      pageTables := pageTables - {seqId};
      prompts := prompts - {seqId};
      r := FreeBlocks(table.blockIds);
    }

    /** Flat page tables and lengths of the given sequences, padded with -1. */
    method ExportCudaBlockTables(activeSeqIds: seq<nat>) returns (flatTables: seq<int>, seqLens: seq<int>)
      ensures flatTables == ExportRows(Model(), activeSeqIds)
      ensures seqLens == ExportLens(Model(), activeSeqIds)
    {
      ghost var m := Model();
      var limit := cfg.maxBlocksPerSeq;
      MulNonNegative(|activeSeqIds|, limit);
      var flat := new int[|activeSeqIds| * limit](_ => -1);
      seqLens := [];
      assert flat[..] == Blank(flat.Length);
      for i := 0 to |activeSeqIds|
        invariant Model() == m
        invariant RowsWritten(m, activeSeqIds[..i], flat[..])
        invariant seqLens == ExportLens(m, activeSeqIds[..i])
      {
        Distribute(i, 1, limit);
        MulMonotone(i + 1, |activeSeqIds|, limit);
        var len := WriteRow(activeSeqIds[i], flat, i * limit, m, activeSeqIds[..i]);
        seqLens := seqLens + [len];
        assert activeSeqIds[..i + 1] == activeSeqIds[..i] + [activeSeqIds[i]];
      }
      flatTables := flat[..];
      assert activeSeqIds[..|activeSeqIds|] == activeSeqIds;
    }

    /** One sequence's row and length, after the rows of `done`. */
    method WriteRow(id: nat, flat: array<int>, at: nat, ghost m: State, ghost done: seq<nat>) returns (len: int)
      requires m.cfg == cfg && m.tables == pageTables
      requires at == |ExportRows(m, done)| && at + cfg.maxBlocksPerSeq <= flat.Length && RowsWritten(m, done, flat[..])
      modifies flat
      ensures RowsWritten(m, done + [id], flat[..])
      ensures ExportLens(m, done + [id]) == ExportLens(m, done) + [len]
    {
      ghost var before := flat[..];
      len := 0;
      if id in pageTables {
        len := AsI32(pageTables[id].logicalTokens);
        CastRow(flat, at, cfg.maxBlocksPerSeq, pageTables[id].blockIds);
      }
      OneMoreRow(m, done, id, before, flat[..]);
      LensSnoc(m, done, id);
    }

    /** The clamp never acts: the free count is the length of the stack. */
    method FreeBlocksCount() returns (n: nat)
      requires Valid()
      ensures n == |freeStack|
    {
      ReferenceCounts.StackFits(Model());
      n := Min(|freeStack|, cfg.totalBlocks);
    }

    /** The subtraction never saturates: allocated and free blocks make up the pool. */
    method AllocatedBlocksCount() returns (n: nat)
      requires Valid()
      ensures n + |freeStack| == cfg.totalBlocks
    {
      ReferenceCounts.StackFits(Model());
      n := if cfg.totalBlocks > |freeStack| then cfg.totalBlocks - |freeStack| else 0;
    }
  }

  /** Write the ids that fit into a row that starts at `at`. */
  method CastRow(flat: array<int>, at: nat, limit: nat, ids: seq<nat>)
    requires at + limit <= flat.Length
    modifies flat
    ensures flat[..] == old(flat[..at]) + CastIds(ids, limit) + old(flat[at + Min(|ids|, limit)..])
  {
    for j := 0 to |ids|
      invariant forall i :: 0 <= i < at || at + Min(j, limit) <= i < flat.Length ==> flat[i] == old(flat[i])
      invariant forall i :: 0 <= i < Min(j, limit) ==> flat[at + i] == AsI32(ids[i])
    {
      if j < limit {
        flat[at + j] := AsI32(ids[j]);
      }
    }
    assert flat[at..at + Min(|ids|, limit)] == CastIds(ids, limit);
  }

  /** The rows of `ids` are in place and the rest is blank. */
  ghost predicate RowsWritten(s: State, ids: seq<nat>, flat: seq<int>) {
    var done := ExportRows(s, ids);
    |done| <= |flat| && flat == done + Blank(|flat| - |done|)
  }

  /** Writing an id list over the start of the blank part completes one row. */
  lemma OneMoreRow(s: State, ids: seq<nat>, id: nat, before: seq<int>, after: seq<int>)
    requires RowsWritten(s, ids, before) && |ExportRows(s, ids)| + s.cfg.maxBlocksPerSeq <= |before|
    requires var at, row := |ExportRows(s, ids)|, CastIds(BlocksOf(s, id), s.cfg.maxBlocksPerSeq);
             after == before[..at] + row + before[at + |row|..]
    ensures RowsWritten(s, ids + [id], after)
  {
    RowsSnoc(s, ids, id);
    RowFills(ExportRows(s, ids), CastIds(BlocksOf(s, id), s.cfg.maxBlocksPerSeq), s.cfg.maxBlocksPerSeq, before, after);
  }

  lemma RowFills(done: seq<int>, ids: seq<int>, limit: nat, before: seq<int>, after: seq<int>)
    requires |ids| <= limit && |done| + limit <= |before| && before == done + Blank(|before| - |done|)
    requires after == before[..|done|] + ids + before[|done| + |ids|..]
    ensures after == (done + (ids + Blank(limit - |ids|))) + Blank(|after| - |done| - limit)
  {
  }

  lemma RowsSnoc(s: State, ids: seq<nat>, id: nat)
    ensures ExportRows(s, ids + [id]) == ExportRows(s, ids) + ExportRow(s, id)
  {
    assert Init(ids + [id]) == ids;
  }

  lemma LensSnoc(s: State, ids: seq<nat>, id: nat)
    ensures ExportLens(s, ids + [id])
            == ExportLens(s, ids) + [if id in s.tables then AsI32(s.tables[id].logicalTokens) else 0]
  {
  }

  lemma WalkOneMore(s: State, id: nat, path: Path, i: nat)
    requires Wf(s) && i < |path| && WalkChunks(s, id, path[..i]).ok
    ensures WalkChunks(s, id, path[..i + 1]) == WalkStep(WalkChunks(s, id, path[..i]), id, path[i])
  {
    assert Init(path[..i + 1]) == path[..i] && Last(path[..i + 1]) == path[i];
  }

  /** A loop that failed after `k` chunks has failed for good. */
  lemma {:induction false} WalkStaysFailed(s: State, id: nat, path: Path, k: nat)
    requires Wf(s) && k <= |path| && !WalkChunks(s, id, path[..k]).ok
    ensures WalkChunks(s, id, path) == WalkChunks(s, id, path[..k])
  {
    if k == |path| {
      assert path[..k] == path;
    } else {
      TakeInit(path, k);
      WalkStaysFailed(s, id, Init(path), k);
    }
  }

  /** One more lookup counted. */
  function Looked(s: State): State {
    s.(lookups := s.lookups + 1)
  }

  /** The loop after a chunk whose node is cached: a reference to its block. */
  function AfterHit(s: State, id: nat, child: nat, held: seq<nat>, matched: nat): Walk
    requires Wf(s) && 0 < child < |s.nodes|
  {
    assert NodeOk(s.nodes, s.parents, |s.blocks|, child);
    var b := s.nodes[child].block.value;
    Walk(HitBlock(s, id, b), child, held + [b], matched + 1, true)
  }

  lemma HitIs(w: Walk, id: nat, chunk: Chunk, child: nat)
    requires WalkOk(w) && w.ok && chunk in w.s.nodes[w.cur].children && child == w.s.nodes[w.cur].children[chunk]
    ensures 0 < child < |w.s.nodes| && w.s.nodes[child].block.Some? && Wf(Looked(w.s))
    ensures WalkStep(w, id, chunk) == AfterHit(Looked(w.s), id, child, w.held, w.matched)
  {
    assert ChildOk(w.s.nodes, w.s.parents, w.cur, chunk);
    assert NodeOk(w.s.nodes, w.s.parents, |w.s.blocks|, child);
  }

  /** The loop after a chunk that is not cached: a new leaf, or failure. */
  function AfterMiss(s: State, id: nat, chunk: Chunk, curr: nat, held: seq<nat>, matched: nat): Walk
    requires Wf(s) && curr < |s.nodes|
  {
    if s.freeStack == [] then Walk(s, curr, held, matched, false)
    else
      var b := Last(s.freeStack);
      Walk(InsertChild(LabelBlock(BlockSpace.AllocateBlock(s).0, id, b, true), curr, chunk, b), |s.nodes|, held + [b],
           matched, true)
  }

  lemma MissIs(w: Walk, id: nat, chunk: Chunk)
    requires WalkOk(w) && w.ok && chunk !in w.s.nodes[w.cur].children
    ensures Wf(Looked(w.s))
    ensures WalkStep(w, id, chunk) == AfterMiss(Looked(w.s), id, chunk, w.cur, w.held, w.matched)
  {
  }

  lemma ShareOne(blocks: seq<PhysicalBlock>, l: seq<nat>, b: nat)
    requires AllBelow(l, |blocks|) && b < |blocks|
    ensures var now := Share(blocks, l);
            Share(blocks, l + [b]) == now[b := now[b].(refCount := now[b].refCount + 1)]
  {
    assert Init(l + [b]) == l && Last(l + [b]) == b;
  }

  lemma ShareOk(s: State, l: seq<nat>)
    requires Wf(s) && AllBelow(l, |s.blocks|)
    ensures Wf(s.(blocks := Share(s.blocks, l)))
  {
    ShareCounts(s.blocks, l);
  }

  lemma {:induction false} AllocationStaysFailed(s: State, id: nat, k: nat, n: nat)
    requires Wf(s) && k <= n && !AllocateMany(s, id, k).ok
    ensures AllocateMany(s, id, n) == AllocateMany(s, id, k)
    decreases n
  {
    if k == n {
    } else {
      AllocationStaysFailed(s, id, k, n - 1);
    }
  }
}
