/** The CPU reference as nested loops, and the kernel's threads with 32-bit index arithmetic. */
module AttentionKernels {
  import opened Prelude
  import opened Addresses
  import opened PagedAttention

  // ----- The CPU reference -----

  lemma PlaneSnoc(sh: Shape, s: nat, h: nat)
    ensures Plane(sh, s, h + 1) == Plane(sh, s, h) + Row(s, h, sh.headDim)
  {
  }

  lemma RowStep(s: nat, h: nat, d: nat)
    ensures Row(s, h, d + 1) == Row(s, h, d) + [Thread(s, h, d)]
    ensures Init(Row(s, h, d + 1)) == Row(s, h, d) && Last(Row(s, h, d + 1)) == Thread(s, h, d)
  {
  }

  /** One more thread at the end of a run. */
  lemma RunOneMore<F>(ops: Ops<F>, inp: Inputs<F>, sh: Shape, out: seq<F>, threads: seq<Thread>, th: Thread)
    requires Launchable(inp, sh, out) && AllInGrid(sh, threads) && InGrid(sh, th)
    ensures AllInGrid(sh, threads + [th])
    ensures RunThreads(ops, inp, sh, out, threads + [th])
            == Act(ops, inp, sh, RunThreads(ops, inp, sh, out, threads), th)
  {
    assert Init(threads + [th]) == threads;
  }

  lemma IdlePlane<F>(ops: Ops<F>, inp: Inputs<F>, sh: Shape, out: seq<F>, s: nat)
    requires Launchable(inp, sh, out) && s < sh.numSeqs && inp.seqLens[s] == 0
    ensures AllInGrid(sh, Plane(sh, s, sh.numHeads))
    ensures RunThreads(ops, inp, sh, out, Plane(sh, s, sh.numHeads)) == out
  {
    PlaneInGrid(sh, s, sh.numHeads);
    var l := Plane(sh, s, sh.numHeads);
    forall i | 0 <= i < |l| ensures inp.seqLens[l[i].seqIdx] <= 0 {
      PlaneMembers(sh, s, sh.numHeads, l[i]);
    }
    IdleThreads(ops, inp, sh, out, l);
  }

  /**
   The nested loops over sequences, heads and dimensions. They leave what the threads of the grid leave when
   run in this order. Lengths are read as unsigned, so they must not be negative.
   */
  method RunPagedAttentionCpuRef<F>(ops: Ops<F>, inp: Inputs<F>, sh: Shape, out: array<F>)
    requires Launchable(inp, sh, out[..])
    requires forall s :: 0 <= s < sh.numSeqs ==> inp.seqLens[s] >= 0
    modifies out
    ensures AllInGrid(sh, Grid(sh, sh.numSeqs))
    ensures out[..] == RunThreads(ops, inp, sh, old(out[..]), Grid(sh, sh.numSeqs))
  {
    GridInGrid(sh, sh.numSeqs);
    for seqIdx := 0 to sh.numSeqs
      invariant AllInGrid(sh, Grid(sh, seqIdx))
      invariant out[..] == RunThreads(ops, inp, sh, old(out[..]), Grid(sh, seqIdx))
    {
      ghost var before := out[..];
      PlaneInGrid(sh, seqIdx, sh.numHeads);
      RunConcat(ops, inp, sh, old(out[..]), Grid(sh, seqIdx), Plane(sh, seqIdx, sh.numHeads));
      if inp.seqLens[seqIdx] == 0 {
        IdlePlane(ops, inp, sh, before, seqIdx);
      } else {
        RunSequence(ops, inp, sh, out, seqIdx);
      }
    }
  }

  /** The loops over the heads and dimensions of one sequence. */
  method RunSequence<F>(ops: Ops<F>, inp: Inputs<F>, sh: Shape, out: array<F>, seqIdx: nat)
    requires Launchable(inp, sh, out[..]) && seqIdx < sh.numSeqs && inp.seqLens[seqIdx] > 0
    requires AllInGrid(sh, Plane(sh, seqIdx, sh.numHeads))
    modifies out
    ensures out[..] == RunThreads(ops, inp, sh, old(out[..]), Plane(sh, seqIdx, sh.numHeads))
  {
    for headIdx := 0 to sh.numHeads
      invariant AllInGrid(sh, Plane(sh, seqIdx, headIdx))
      invariant out[..] == RunThreads(ops, inp, sh, old(out[..]), Plane(sh, seqIdx, headIdx))
    {
      PlaneInGrid(sh, seqIdx, headIdx + 1);
      PlaneSnoc(sh, seqIdx, headIdx);
      RunConcat(ops, inp, sh, old(out[..]), Plane(sh, seqIdx, headIdx), Row(seqIdx, headIdx, sh.headDim));
      RunHead(ops, inp, sh, out, seqIdx, headIdx);
    }
  }

  method RunHead<F>(ops: Ops<F>, inp: Inputs<F>, sh: Shape, out: array<F>, seqIdx: nat, headIdx: nat)
    requires Launchable(inp, sh, out[..]) && seqIdx < sh.numSeqs && headIdx < sh.numHeads && inp.seqLens[seqIdx] > 0
    modifies out
    ensures AllInGrid(sh, Row(seqIdx, headIdx, sh.headDim))
    ensures out[..] == RunThreads(ops, inp, sh, old(out[..]), Row(seqIdx, headIdx, sh.headDim))
  {
    for dimIdx := 0 to sh.headDim
      invariant AllInGrid(sh, Row(seqIdx, headIdx, dimIdx))
      invariant out[..] == RunThreads(ops, inp, sh, old(out[..]), Row(seqIdx, headIdx, dimIdx))
    {
      ghost var th := Thread(seqIdx, headIdx, dimIdx);
      ghost var before := out[..];
      var value := AttendCell(ops, inp, sh, seqIdx, headIdx, dimIdx);
      OutOffsetBound(sh, seqIdx, headIdx, dimIdx);
      var outOffset := seqIdx * sh.numHeads * sh.headDim + headIdx * sh.headDim + dimIdx;
      out[outOffset] := value;
      assert out[..] == before[CellIndex(sh, th) := value];
      RowStep(seqIdx, headIdx, dimIdx);
      RunOneMore(ops, inp, sh, old(out[..]), Row(seqIdx, headIdx, dimIdx), th);
    }
  }

  /** The token loop of one cell. */
  method AttendCell<F>(ops: Ops<F>, inp: Inputs<F>, sh: Shape, seqIdx: nat, headIdx: nat, dimIdx: nat)
      returns (value: F)
    requires Readable(inp, sh) && InGrid(sh, Thread(seqIdx, headIdx, dimIdx)) && inp.seqLens[seqIdx] > 0
    ensures value == Cell(ops, inp, sh, Thread(seqIdx, headIdx, dimIdx))
  {
    ghost var th := Thread(seqIdx, headIdx, dimIdx);
    OutOffsetBound(sh, seqIdx, headIdx, dimIdx);
    var qOffset := seqIdx * sh.numHeads * sh.headDim + headIdx * sh.headDim + dimIdx;
    var qVal := ops.mul(inp.q[qOffset], ops.invSqrt(sh.headDim));
    var accScore, accValue := ops.zero, ops.zero;
    for tokenIdx := 0 to inp.seqLens[seqIdx]
      invariant (accScore, accValue) == Accumulate(ops, inp, sh, th, tokenIdx)
    {
      assert TokenReadable(inp, sh, seqIdx, tokenIdx);
      var entry := inp.blockTables[seqIdx * sh.maxBlocksPerSeq + PageOf(tokenIdx, sh.blockSize)];
      var kvOffset := KvOffset(sh, entry, Overhang(tokenIdx, sh.blockSize), headIdx, dimIdx);
      accScore := ops.add(accScore, ops.mul(qVal, inp.kCache[kvOffset]));
      accValue := ops.add(accValue, inp.vCache[kvOffset]);
    }
    value := ops.mul(accScore, ops.div(accValue, ops.ofInt(inp.seqLens[seqIdx])));
  }

  // ----- The kernel -----

  /** No 32-bit index overflows: sizes, table entries and lengths fit. */
  ghost predicate Fits32<F>(inp: Inputs<F>, sh: Shape, total: nat) {
    && |inp.seqLens| >= sh.numSeqs
    && sh.numSeqs * sh.numHeads * sh.headDim <= TWO_31
    && total * sh.blockSize * sh.numHeads * sh.headDim <= TWO_31
    && sh.numSeqs < TWO_31 && sh.numHeads < TWO_31 && sh.headDim < TWO_31 && sh.blockSize < TWO_31
    && |inp.blockTables| <= TWO_31
    && (forall s :: 0 <= s < sh.numSeqs ==> inp.seqLens[s] < TWO_31)
    && (forall s, t :: 0 <= s < sh.numSeqs && 0 <= t < inp.seqLens[s] ==> EntryBelow(inp, sh, s, t, total))
  }

  ghost predicate EntryBelow<F>(inp: Inputs<F>, sh: Shape, s: nat, t: nat, total: nat) {
    && sh.blockSize > 0 && 0 <= s * sh.maxBlocksPerSeq <= EntryIndex(sh, s, t) < |inp.blockTables|
    && 0 <= inp.blockTables[EntryIndex(sh, s, t)] < total
  }

  /** The 32-bit index of a table entry is exact. */
  lemma EntryIndexExact<F>(inp: Inputs<F>, sh: Shape, s: nat, t: nat, total: nat)
    requires EntryBelow(inp, sh, s, t, total) && |inp.blockTables| <= TWO_31
    ensures Add32(Mul32(s, sh.maxBlocksPerSeq), PageOf(t, sh.blockSize)) == EntryIndex(sh, s, t)
  {
    CastIsExact(s * sh.maxBlocksPerSeq);
    CastIsExact(EntryIndex(sh, s, t));
  }

  /**
   One kernel thread, every index in 32-bit arithmetic, scale passed in by the host. Outside the grid, or
   for a length of at most zero, it returns at once; otherwise it writes its own cell and reads no output.
   */
  method PagedAttentionV1Kernel<F>(ops: Ops<F>, inp: Inputs<F>, sh: Shape, scale: F, ghost total: nat, out: array<F>,
                                   blockIdxX: nat, threadIdxY: nat, threadIdxX: nat)
    requires Launchable(inp, sh, out[..]) && Fits32(inp, sh, total) && scale == ops.invSqrt(sh.headDim)
    modifies out
    ensures InGrid(sh, Thread(blockIdxX, threadIdxY, threadIdxX)) ==>
              out[..] == Act(ops, inp, sh, old(out[..]), Thread(blockIdxX, threadIdxY, threadIdxX))
    ensures !InGrid(sh, Thread(blockIdxX, threadIdxY, threadIdxX)) ==> out[..] == old(out[..])
  {
    var seqIdx, headIdx, dimIdx := blockIdxX, threadIdxY, threadIdxX;
    if seqIdx >= sh.numSeqs || headIdx >= sh.numHeads || dimIdx >= sh.headDim {
      return;
    }
    var seqLen := inp.seqLens[seqIdx];
    if seqLen <= 0 {
      return;
    }
    OutOffsetBound(sh, seqIdx, headIdx, dimIdx);
    OutOffsetExact(sh, seqIdx, headIdx, dimIdx);
    var qVal := ops.mul(inp.q[OutOffset32(sh, seqIdx, headIdx, dimIdx)], scale);
    var accScore, accValue := GatherTokens(ops, inp, sh, total, seqIdx, headIdx, dimIdx, qVal);
    ghost var before := out[..];
    out[OutOffset32(sh, seqIdx, headIdx, dimIdx)] := ops.mul(accScore, ops.div(accValue, ops.ofInt(seqLen)));
    ghost var th := Thread(seqIdx, headIdx, dimIdx);
    assert out[..] == before[CellIndex(sh, th) := Cell(ops, inp, sh, th)];
  }

  /** The kernel's loop over tokens. */
  method GatherTokens<F>(ops: Ops<F>, inp: Inputs<F>, sh: Shape, ghost total: nat, seqIdx: nat, headIdx: nat,
                         dimIdx: nat, qVal: F)
    returns (accScore: F, accValue: F)
    requires Readable(inp, sh) && Fits32(inp, sh, total) && InGrid(sh, Thread(seqIdx, headIdx, dimIdx))
             && inp.seqLens[seqIdx] > 0
    requires qVal == QueryValue(ops, inp, sh, Thread(seqIdx, headIdx, dimIdx))
    ensures (accScore, accValue) == Accumulate(ops, inp, sh, Thread(seqIdx, headIdx, dimIdx), inp.seqLens[seqIdx])
  {
    ghost var th := Thread(seqIdx, headIdx, dimIdx);
    accScore, accValue := ops.zero, ops.zero;
    var tokenIdx := 0;
    while tokenIdx < inp.seqLens[seqIdx]
      invariant 0 <= tokenIdx <= inp.seqLens[seqIdx]
      invariant (accScore, accValue) == Accumulate(ops, inp, sh, th, tokenIdx)
    {
      assert TokenReadable(inp, sh, seqIdx, tokenIdx) && EntryBelow(inp, sh, seqIdx, tokenIdx, total);
      EntryIndexExact(inp, sh, seqIdx, tokenIdx, total);
      var physicalBlockId := inp.blockTables[Add32(Mul32(seqIdx, sh.maxBlocksPerSeq), PageOf(tokenIdx, sh.blockSize))];
      KvOffsetExact(sh, total, physicalBlockId, Overhang(tokenIdx, sh.blockSize), headIdx, dimIdx);
      var kvOffset := KvOffset32(sh, physicalBlockId, Overhang(tokenIdx, sh.blockSize), headIdx, dimIdx);
      assert HeadDim(sh, headIdx, dimIdx);
      accScore := ops.add(accScore, ops.mul(qVal, inp.kCache[kvOffset]));
      accValue := ops.add(accValue, inp.vCache[kvOffset]);
      CastIsExact(tokenIdx + 1);
      tokenIdx := Add32(tokenIdx, 1);
    }
  }

  /** A launch: the grid's threads run in some order, each thread once or more. */
  method LaunchPagedAttention<F>(ops: Ops<F>, inp: Inputs<F>, sh: Shape, ghost total: nat, out: array<F>,
                                 order: seq<Thread>)
    requires Launchable(inp, sh, out[..]) && Fits32(inp, sh, total) && AllInGrid(sh, order)
    requires forall th :: InGrid(sh, th) ==> th in order
    modifies out
    ensures AllInGrid(sh, Grid(sh, sh.numSeqs))
    ensures out[..] == RunThreads(ops, inp, sh, old(out[..]), Grid(sh, sh.numSeqs))
  {
    for i := 0 to |order|
      invariant AllInGrid(sh, order[..i])
      invariant out[..] == RunThreads(ops, inp, sh, old(out[..]), order[..i])
    {
      assert order[..i + 1] == order[..i] + [order[i]];
      RunOneMore(ops, inp, sh, old(out[..]), order[..i], order[i]);
      PagedAttentionV1Kernel(ops, inp, sh, ops.invSqrt(sh.headDim), total, out, order[i].seqIdx, order[i].headIdx,
                             order[i].dimIdx);
    }
    assert order[..|order|] == order;
    GridInGrid(sh, sh.numSeqs);
    forall th ensures th in order <==> th in Grid(sh, sh.numSeqs) {
      GridMembers(sh, sh.numSeqs, th);
    }
    OrderDoesNotMatter(ops, inp, sh, old(out[..]), order, Grid(sh, sh.numSeqs));
  }

  // ----- The host entry point -----

  datatype LaunchReply = Launched | BufferLengthMismatch | SeqLensTooShort

  /** What the host checks before it launches; it looks at neither the tables nor the caches. */
  function CheckLengths<F>(inp: Inputs<F>, sh: Shape, outLen: nat): LaunchReply {
    var expected := sh.numSeqs * sh.numHeads * sh.headDim;
    if outLen < expected || |inp.q| < expected then BufferLengthMismatch
    else if |inp.seqLens| < sh.numSeqs then SeqLensTooShort
    else Launched
  }

  /** Tables and caches serve every token, which the host does not check. */
  ghost predicate TablesServe<F>(inp: Inputs<F>, sh: Shape, total: nat) {
    && Fits32(inp, sh, total)
    && forall s, t :: 0 <= s < sh.numSeqs && 0 <= t < inp.seqLens[s] ==> TokenReadable(inp, sh, s, t)
  }

  /**
   The checks make the launch safe, given good tables: either an error and no output written, or what the
   nested loops leave.
   */
  method RunPagedAttention<F>(ops: Ops<F>, inp: Inputs<F>, sh: Shape, ghost total: nat, out: array<F>,
                              order: seq<Thread>)
    returns (r: LaunchReply)
    requires CheckLengths(inp, sh, out.Length).Launched? ==> TablesServe(inp, sh, total)
    requires AllInGrid(sh, order) && forall th :: InGrid(sh, th) ==> th in order
    modifies out
    ensures r == CheckLengths(inp, sh, out.Length)
    ensures !r.Launched? ==> out[..] == old(out[..])
    ensures r.Launched? ==>
              && Launchable(inp, sh, old(out[..])) && AllInGrid(sh, Grid(sh, sh.numSeqs))
              && out[..] == RunThreads(ops, inp, sh, old(out[..]), Grid(sh, sh.numSeqs))
  {
    var expectedOutLen := sh.numSeqs * sh.numHeads * sh.headDim;
    if out.Length < expectedOutLen || |inp.q| < expectedOutLen {
      return BufferLengthMismatch;
    }
    if |inp.seqLens| < sh.numSeqs {
      return SeqLensTooShort;
    }
    LaunchPagedAttention(ops, inp, sh, total, out, order);
    r := Launched;
  }
}
