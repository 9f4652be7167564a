/** Exporting page tables for the kernel, and what the exported tables guarantee to it. */
module TableExport {
  import opened Prelude
  import opened BlockSpace
  import opened PrefixTrie
  import opened Runs
  import opened ReferenceCounts
  import opened PrefixMatching
  import opened PageCounts
  import opened AppendOutcomes
  import opened Addresses
  import opened PagedAttention
  import opened AttentionKernels

  // ----- The exported arrays -----

  function Blank(n: nat): seq<int> {
    seq(n, i => -1)
  }

  /** Block ids cast to 32 bits, at most `limit` of them. */
  function CastIds(ids: seq<nat>, limit: nat): seq<int> {
    seq(Min(|ids|, limit), i requires 0 <= i < |ids| => AsI32(ids[i]))
  }

  function BlocksOf(s: State, id: nat): seq<nat> {
    if id in s.tables then s.tables[id].blockIds else []
  }

  /** One row: the block ids that fit, then -1. */
  function ExportRow(s: State, id: nat): (r: seq<int>)
    ensures |r| == s.cfg.maxBlocksPerSeq
  {
    var ids := CastIds(BlocksOf(s, id), s.cfg.maxBlocksPerSeq);
    ids + Blank(s.cfg.maxBlocksPerSeq - |ids|)
  }

  function ExportRows(s: State, ids: seq<nat>): (r: seq<int>)
    ensures |r| == |ids| * s.cfg.maxBlocksPerSeq
  {
    if ids == [] then []
    else
      Distribute(|ids| - 1, 1, s.cfg.maxBlocksPerSeq);
      ExportRows(s, Init(ids)) + ExportRow(s, Last(ids))
  }

  function ExportLens(s: State, ids: seq<nat>): seq<int> {
    seq(|ids|, i requires 0 <= i < |ids| => if ids[i] in s.tables then AsI32(s.tables[ids[i]].logicalTokens) else 0)
  }

  /** Entry `j` of row `i` lies at i * max + j. */
  lemma {:induction false} ExportAt(s: State, ids: seq<nat>, i: nat, j: nat)
    requires i < |ids| && j < s.cfg.maxBlocksPerSeq
    ensures 0 <= i * s.cfg.maxBlocksPerSeq <= i * s.cfg.maxBlocksPerSeq + j < |ids| * s.cfg.maxBlocksPerSeq
    ensures ExportRows(s, ids)[i * s.cfg.maxBlocksPerSeq + j] == ExportRow(s, ids[i])[j]
  {
    DigitBound(i, |ids|, j, s.cfg.maxBlocksPerSeq);
    if i == |ids| - 1 {
    } else {
      ExportAt(s, Init(ids), i, j);
    }
  }

  /**
   Every cell of the export: entry `j` of row `i` is the 32-bit id of page `j` of sequence `i`, or -1 where it
   has no such page or is unknown; its length is its 32-bit token count, or 0.
   */
  lemma ExportedCells(s: State, ids: seq<nat>, i: nat, j: nat)
    requires i < |ids| && j < s.cfg.maxBlocksPerSeq
    ensures |ExportRows(s, ids)| == |ids| * s.cfg.maxBlocksPerSeq && |ExportLens(s, ids)| == |ids|
    ensures 0 <= i * s.cfg.maxBlocksPerSeq + j < |ExportRows(s, ids)|
    ensures ExportRows(s, ids)[i * s.cfg.maxBlocksPerSeq + j]
            == if ids[i] in s.tables && j < |s.tables[ids[i]].blockIds| then AsI32(s.tables[ids[i]].blockIds[j]) else -1
    ensures ExportLens(s, ids)[i] == if ids[i] in s.tables then AsI32(s.tables[ids[i]].logicalTokens) else 0
  {
    ExportAt(s, ids, i, j);
  }

  // ----- What the kernel gets -----

  /** The shape under which a manager's export is read. */
  predicate Matches(s: State, ids: seq<nat>, sh: Shape) {
    && sh.maxBlocksPerSeq == s.cfg.maxBlocksPerSeq && sh.blockSize == s.cfg.blockSize > 0 && sh.numSeqs == |ids|
  }

  /** Sequence `id` has the pages its tokens need, within the page limit, and a 32-bit length. */
  ghost predicate Exportable(s: State, id: nat) {
    id in s.tables ==>
      && s.cfg.blockSize > 0
      && PagesMatch(s, id) && |s.tables[id].blockIds| <= s.cfg.maxBlocksPerSeq
      && s.tables[id].logicalTokens < TWO_31
      && AllBelow(s.tables[id].blockIds, s.cfg.totalBlocks)
  }

  /**
   Every token below an exported length finds the id of its own page: the entry is in the sequence's row,
   not -1, and names a block of the pool.
   */
  lemma EntryIsOwnPage(s: State, ids: seq<nat>, sh: Shape, i: nat, t: nat)
    requires Matches(s, ids, sh) && i < |ids| && Exportable(s, ids[i]) && s.cfg.totalBlocks <= TWO_31
    requires t < ExportLens(s, ids)[i]
    ensures ids[i] in s.tables && t < s.tables[ids[i]].logicalTokens
    ensures var page := PageOf(t, sh.blockSize);
            && page < |s.tables[ids[i]].blockIds| <= sh.maxBlocksPerSeq
            && 0 <= i * sh.maxBlocksPerSeq <= EntryIndex(sh, i, t) < |ExportRows(s, ids)|
            && ExportRows(s, ids)[EntryIndex(sh, i, t)] == s.tables[ids[i]].blockIds[page]
            && s.tables[ids[i]].blockIds[page] < s.cfg.totalBlocks
  {
    CastIsExact(s.tables[ids[i]].logicalTokens);
    var l := s.tables[ids[i]].blockIds;
    PageInTable(t, s.tables[ids[i]].logicalTokens, sh.blockSize);
    var page := PageOf(t, sh.blockSize);
    ExportAt(s, ids, i, page);
    CastIsExact(l[page]);
  }

  lemma PageInTable(t: nat, tokens: nat, blockSize: nat)
    requires blockSize > 0 && t < tokens
    ensures PageOf(t, blockSize) < BlocksFor(tokens, blockSize)
  {
    var q := BlocksFor(tokens, blockSize);
    BlocksForIsCeiling(tokens, blockSize, q);
    assert PageOf(t, blockSize) * blockSize <= t < q * blockSize;
    MulCancelsLess(PageOf(t, blockSize), q, blockSize);
  }

  /** Does the entry of token `t` lie in row `i` of the exported tables? */
  predicate InOwnRow(sh: Shape, i: nat, t: nat)
    requires sh.blockSize > 0
  {
    i * sh.maxBlocksPerSeq <= EntryIndex(sh, i, t) < (i + 1) * sh.maxBlocksPerSeq
  }

  /**
   Admission does not look at the page limit, so a prompt can be longer than its row. All tokens of a
   sequence are looked up in its own row exactly when the sequence keeps to the limit.
   */
  lemma OwnRowIffWithinLimit(sh: Shape, i: nat, tokens: nat)
    requires sh.blockSize > 0
    ensures (forall t: nat :: t < tokens ==> InOwnRow(sh, i, t))
            <==> BlocksFor(tokens, sh.blockSize) <= sh.maxBlocksPerSeq
  {
    var limit := sh.maxBlocksPerSeq;
    Distribute(i, 1, limit);
    BlocksForIsCeiling(tokens, sh.blockSize, limit);
    if BlocksFor(tokens, sh.blockSize) <= limit {
      forall t: nat | t < tokens ensures InOwnRow(sh, i, t) {
        PageInTable(t, tokens, sh.blockSize);
      }
    } else {
      FirstOfPage(limit, sh.blockSize);
      assert !InOwnRow(sh, i, TokensIn(limit, sh.blockSize));
    }
  }

  /**
   The limit is not enforced: a two-page prompt is admitted where one page is allowed, and its second token
   is looked up in the next row.
   */
  lemma AdmissionOverLimit(a: u32, b: u32, sh: Shape)
    requires sh.blockSize == 1 && sh.maxBlocksPerSeq == 1
    ensures var (t, r) := MatchOrAllocatePrefix(InitState(Config(2, 1, 1)), 1, [a, b]);
            && r.Ok? && 1 in t.tables && t.tables[1].logicalTokens == 2 && |t.tables[1].blockIds| == 2
            && EntryIndex(sh, 0, 1) == 1 && !InOwnRow(sh, 0, 1)
  {
    var s := InitState(Config(2, 1, 1));
    assert |Chunks([a, b], 1)| == 2 && Overhang(2, 1) == 0;
    MatchOutcome(s, 1, [a, b]);
    CachedPrefixIsLongest(s.nodes, Chunks([a, b], 1), CachedPrefix(s.nodes, Chunks([a, b], 1)));
  }

  /** The exported tables with caches sized for the pool. */
  ghost predicate Prepared<F>(s: State, ids: seq<nat>, sh: Shape, inp: Inputs<F>) {
    && Matches(s, ids, sh)
    && inp.blockTables == ExportRows(s, ids) && inp.seqLens == ExportLens(s, ids)
    && |inp.q| >= sh.numSeqs * sh.numHeads * sh.headDim
    && Min(|inp.kCache|, |inp.vCache|) >= s.cfg.totalBlocks * sh.blockSize * sh.numHeads * sh.headDim
  }

  lemma ExportedTokenReadable<F>(s: State, ids: seq<nat>, sh: Shape, inp: Inputs<F>, i: nat, t: nat)
    requires Prepared(s, ids, sh, inp) && i < |ids| && Exportable(s, ids[i]) && s.cfg.totalBlocks <= TWO_31
    requires t < inp.seqLens[i]
    ensures TokenReadable(inp, sh, i, t) && EntryBelow(inp, sh, i, t, s.cfg.totalBlocks)
  {
    EntryIsOwnPage(s, ids, sh, i, t);
    var block := inp.blockTables[EntryIndex(sh, i, t)];
    OverhangIsSlot(t, sh.blockSize);
    forall h, d | HeadDim(sh, h, d)
      ensures 0 <= KvOffset(sh, block, Overhang(t, sh.blockSize), h, d) < Min(|inp.kCache|, |inp.vCache|)
    {
      KvOffsetBound(sh, s.cfg.totalBlocks, block, Overhang(t, sh.blockSize), h, d);
    }
  }

  /**
   Exported tables are safe for both programs: everything they read is in range, and when output, caches
   and tables have at most 2^31 cells no 32-bit index of the kernel overflows.
   */
  lemma ExportIsSafe<F>(s: State, ids: seq<nat>, sh: Shape, inp: Inputs<F>)
    requires Prepared(s, ids, sh, inp) && s.cfg.totalBlocks <= TWO_31
    requires forall i :: 0 <= i < |ids| ==> Exportable(s, ids[i])
    ensures Readable(inp, sh)
    ensures && sh.numSeqs * sh.numHeads * sh.headDim <= TWO_31
            && s.cfg.totalBlocks * sh.blockSize * sh.numHeads * sh.headDim <= TWO_31
            && |ids| * s.cfg.maxBlocksPerSeq <= TWO_31
            && sh.numSeqs < TWO_31 && sh.numHeads < TWO_31 && sh.headDim < TWO_31 && sh.blockSize < TWO_31
            ==> Fits32(inp, sh, s.cfg.totalBlocks)
  {
    forall i: nat, t: nat | i < sh.numSeqs && t < inp.seqLens[i]
      ensures TokenReadable(inp, sh, i, t) && EntryBelow(inp, sh, i, t, s.cfg.totalBlocks)
    {
      ExportedTokenReadable(s, ids, sh, inp, i, t);
    }
    forall i | 0 <= i < sh.numSeqs ensures inp.seqLens[i] < TWO_31 {
      if ids[i] in s.tables { CastIsExact(s.tables[ids[i]].logicalTokens); }
    }
  }

  /**
   The same in every state that a manager reaches without rolling a sequence past its pages, whatever the
   results of its calls: what remains to be seen to is that lengths keep to the page limit and to 32 bits.
   */
  lemma ReachableExportIsSafe<F>(cfg: Config, ops: seq<Op>, ids: seq<nat>, sh: Shape, inp: Inputs<F>)
    requires cfg.blockSize > 0 && RunWithinPages(InitState(cfg), ops)
    requires Prepared(Run(InitState(cfg), ops), ids, sh, inp) && cfg.totalBlocks <= TWO_31
    requires var s := Run(InitState(cfg), ops);
             forall i :: 0 <= i < |ids| && ids[i] in s.tables ==>
               && BlocksFor(s.tables[ids[i]].logicalTokens, cfg.blockSize) <= cfg.maxBlocksPerSeq
               && s.tables[ids[i]].logicalTokens < TWO_31
    ensures Readable(inp, sh)
    ensures && sh.numSeqs * sh.numHeads * sh.headDim <= TWO_31
            && cfg.totalBlocks * sh.blockSize * sh.numHeads * sh.headDim <= TWO_31
            && |ids| * cfg.maxBlocksPerSeq <= TWO_31
            && sh.numSeqs < TWO_31 && sh.numHeads < TWO_31 && sh.headDim < TWO_31 && sh.blockSize < TWO_31
            ==> Fits32(inp, sh, cfg.totalBlocks)
  {
    var s := Run(InitState(cfg), ops);
    ReachableShaped(cfg, ops);
    RunKeepsConfig(InitState(cfg), ops);
    forall i | 0 <= i < |ids| ensures Exportable(s, ids[i]) {
      if ids[i] in s.tables { assert PagesMatch(s, ids[i]); }
    }
    ExportIsSafe(s, ids, sh, inp);
  }

  /** The same over runs that name no length over the page limit, which is then kept without looking at the state. */
  lemma ExportWithinLimitIsSafe<F>(cfg: Config, ops: seq<Op>, ids: seq<nat>, sh: Shape, inp: Inputs<F>)
    requires cfg.blockSize > 0 && RunWithinPages(InitState(cfg), ops)
    requires forall i :: 0 <= i < |ops| ==> AsksWithin(cfg, ops[i])
    requires Prepared(Run(InitState(cfg), ops), ids, sh, inp)
    requires cfg.totalBlocks <= TWO_31 && cfg.maxBlocksPerSeq * cfg.blockSize < TWO_31
    ensures Readable(inp, sh)
    ensures && sh.numSeqs * sh.numHeads * sh.headDim <= TWO_31
            && cfg.totalBlocks * sh.blockSize * sh.numHeads * sh.headDim <= TWO_31
            && |ids| * cfg.maxBlocksPerSeq <= TWO_31
            && sh.numSeqs < TWO_31 && sh.numHeads < TWO_31 && sh.headDim < TWO_31 && sh.blockSize < TWO_31
            ==> Fits32(inp, sh, cfg.totalBlocks)
  {
    var s := Run(InitState(cfg), ops);
    RunKeepsConfig(InitState(cfg), ops);
    forall i | 0 <= i < |ids| && ids[i] in s.tables
      ensures BlocksFor(s.tables[ids[i]].logicalTokens, cfg.blockSize) <= cfg.maxBlocksPerSeq
              && s.tables[ids[i]].logicalTokens < TWO_31
    {
      RunsKeepLimit(cfg, ops, ids[i]);
      LimitIsPages(cfg, s.tables[ids[i]].logicalTokens);
    }
    ReachableExportIsSafe(cfg, ops, ids, sh, inp);
  }
}
