/**
 The paged gather of the attention kernel. Floating-point operations are uninterpreted: both programs
 apply the same ones in the same order, so nothing here depends on rounding.
 */
module PagedAttention {
  import opened Prelude
  import opened Addresses

  datatype Ops<!F> = Ops(zero: F, add: (F, F) -> F, mul: (F, F) -> F, div: (F, F) -> F, ofInt: int -> F,
                         invSqrt: nat -> F)

  datatype Inputs<F> = Inputs(q: seq<F>, kCache: seq<F>, vCache: seq<F>, blockTables: seq<int>, seqLens: seq<int>)

  /** One output cell, and the kernel thread that computes it. */
  datatype Thread = Thread(seqIdx: nat, headIdx: nat, dimIdx: nat)

  predicate InGrid(sh: Shape, th: Thread) {
    th.seqIdx < sh.numSeqs && th.headIdx < sh.numHeads && th.dimIdx < sh.headDim
  }

  // ----- What may be read -----

  function EntryIndex(sh: Shape, s: int, t: nat): int
    requires sh.blockSize > 0
  {
    s * sh.maxBlocksPerSeq + PageOf(t, sh.blockSize)
  }

  /** Token `t` of sequence `s` is mapped to a block whose cells are in the caches. */
  ghost predicate TokenReadable<F>(inp: Inputs<F>, sh: Shape, s: nat, t: nat) {
    && sh.blockSize > 0
    && 0 <= EntryIndex(sh, s, t) < |inp.blockTables|
    && inp.blockTables[EntryIndex(sh, s, t)] >= 0
    && forall h, d :: HeadDim(sh, h, d) ==>
         0 <= KvOffset(sh, inp.blockTables[EntryIndex(sh, s, t)], Overhang(t, sh.blockSize), h, d)
           < Min(|inp.kCache|, |inp.vCache|)
  }

  /** Everything the loops read is there. */
  ghost predicate Readable<F>(inp: Inputs<F>, sh: Shape) {
    && |inp.seqLens| >= sh.numSeqs
    && |inp.q| >= sh.numSeqs * sh.numHeads * sh.headDim
    && forall s, t :: 0 <= s < sh.numSeqs && 0 <= t < inp.seqLens[s] ==> TokenReadable(inp, sh, s, t)
  }

  // ----- One cell -----

  function KeyCell<F>(inp: Inputs<F>, sh: Shape, th: Thread, t: nat): int
    requires TokenReadable(inp, sh, th.seqIdx, t)
  {
    KvOffset(sh, inp.blockTables[EntryIndex(sh, th.seqIdx, t)], Overhang(t, sh.blockSize), th.headIdx, th.dimIdx)
  }

  function QueryValue<F>(ops: Ops<F>, inp: Inputs<F>, sh: Shape, th: Thread): F
    requires InGrid(sh, th) && Readable(inp, sh)
  {
    OutOffsetBound(sh, th.seqIdx, th.headIdx, th.dimIdx);
    ops.mul(inp.q[OutOffset(sh, th.seqIdx, th.headIdx, th.dimIdx)], ops.invSqrt(sh.headDim))
  }

  /** The two accumulators after the first `t` tokens. */
  function Accumulate<F>(ops: Ops<F>, inp: Inputs<F>, sh: Shape, th: Thread, t: nat): (F, F)
    requires InGrid(sh, th) && Readable(inp, sh) && t <= inp.seqLens[th.seqIdx]
  {
    if t == 0 then (ops.zero, ops.zero)
    else
      assert TokenReadable(inp, sh, th.seqIdx, t - 1);
      var (score, value) := Accumulate(ops, inp, sh, th, t - 1);
      var at := KeyCell(inp, sh, th, t - 1);
      (ops.add(score, ops.mul(QueryValue(ops, inp, sh, th), inp.kCache[at])), ops.add(value, inp.vCache[at]))
  }

  /** The value a thread of a non-empty sequence stores. */
  function Cell<F>(ops: Ops<F>, inp: Inputs<F>, sh: Shape, th: Thread): F
    requires InGrid(sh, th) && Readable(inp, sh) && inp.seqLens[th.seqIdx] > 0
  {
    var (score, value) := Accumulate(ops, inp, sh, th, inp.seqLens[th.seqIdx]);
    ops.mul(score, ops.div(value, ops.ofInt(inp.seqLens[th.seqIdx])))
  }

  // ----- Threads -----

  ghost predicate Launchable<F>(inp: Inputs<F>, sh: Shape, out: seq<F>) {
    Readable(inp, sh) && |out| >= sh.numSeqs * sh.numHeads * sh.headDim
  }

  function CellIndex(sh: Shape, th: Thread): (i: nat)
    requires InGrid(sh, th)
    ensures i < sh.numSeqs * sh.numHeads * sh.headDim
  {
    OutOffsetBound(sh, th.seqIdx, th.headIdx, th.dimIdx);
    OutOffset(sh, th.seqIdx, th.headIdx, th.dimIdx)
  }

  /** What one thread does to the output. */
  function Act<F>(ops: Ops<F>, inp: Inputs<F>, sh: Shape, out: seq<F>, th: Thread): (r: seq<F>)
    requires Launchable(inp, sh, out) && InGrid(sh, th)
    ensures |r| == |out|
  {
    if inp.seqLens[th.seqIdx] <= 0 then out else out[CellIndex(sh, th) := Cell(ops, inp, sh, th)]
  }

  predicate AllInGrid(sh: Shape, threads: seq<Thread>) {
    forall i :: 0 <= i < |threads| ==> InGrid(sh, threads[i])
  }

  /** Threads one after another. */
  function RunThreads<F>(ops: Ops<F>, inp: Inputs<F>, sh: Shape, out: seq<F>, threads: seq<Thread>): (r: seq<F>)
    requires Launchable(inp, sh, out) && AllInGrid(sh, threads)
    ensures |r| == |out|
  {
    if threads == [] then out
    else Act(ops, inp, sh, RunThreads(ops, inp, sh, out, Init(threads)), Last(threads))
  }

  /** Distinct threads have distinct cells. */
  lemma CellIndexInjective(sh: Shape, a: Thread, b: Thread)
    requires InGrid(sh, a) && InGrid(sh, b) && CellIndex(sh, a) == CellIndex(sh, b)
    ensures a == b
  {
    OutOffsetInjective(sh, a.seqIdx, a.headIdx, a.dimIdx, b.seqIdx, b.headIdx, b.dimIdx);
  }

  /** A cell holds its thread's value if that thread ran, whatever else ran, and its old value otherwise. */
  lemma {:induction false} CellAfterRun<F>(ops: Ops<F>, inp: Inputs<F>, sh: Shape, out: seq<F>, threads: seq<Thread>,
                                           th: Thread)
    requires Launchable(inp, sh, out) && AllInGrid(sh, threads) && InGrid(sh, th)
    ensures RunThreads(ops, inp, sh, out, threads)[CellIndex(sh, th)]
            == if th in threads && inp.seqLens[th.seqIdx] > 0 then Cell(ops, inp, sh, th) else out[CellIndex(sh, th)]
  {
    if threads == [] {
    } else {
      CellAfterRun(ops, inp, sh, out, Init(threads), th);
      InitLast(threads);
      if Last(threads) != th && CellIndex(sh, Last(threads)) == CellIndex(sh, th) {
        CellIndexInjective(sh, Last(threads), th);
      }
    }
  }

  /** Cells past the output proper are never written. */
  lemma {:induction false} RestAfterRun<F>(ops: Ops<F>, inp: Inputs<F>, sh: Shape, out: seq<F>, threads: seq<Thread>,
                                           i: nat)
    requires Launchable(inp, sh, out) && AllInGrid(sh, threads) && sh.numSeqs * sh.numHeads * sh.headDim <= i < |out|
    ensures RunThreads(ops, inp, sh, out, threads)[i] == out[i]
  {
    if threads == [] {
    } else {
      RestAfterRun(ops, inp, sh, out, Init(threads), i);
    }
  }

  /** Every cell of the output proper belongs to a thread. */
  lemma CellHasThread(sh: Shape, i: nat) returns (th: Thread)
    requires i < sh.numSeqs * sh.numHeads * sh.headDim
    ensures InGrid(sh, th) && CellIndex(sh, th) == i
  {
    var s, h, d := OutOffsetOnto(sh, i);
    th := Thread(s, h, d);
  }

  /**
   Any thread order gives the same output: two runs of the same threads, in any order and even with
   repetitions, leave the same cells.
   */
  lemma OrderDoesNotMatter<F>(ops: Ops<F>, inp: Inputs<F>, sh: Shape, out: seq<F>, a: seq<Thread>, b: seq<Thread>)
    requires Launchable(inp, sh, out) && AllInGrid(sh, a) && AllInGrid(sh, b)
    requires forall th :: th in a <==> th in b
    ensures RunThreads(ops, inp, sh, out, a) == RunThreads(ops, inp, sh, out, b)
  {
    var x, y := RunThreads(ops, inp, sh, out, a), RunThreads(ops, inp, sh, out, b);
    forall i | 0 <= i < |out| ensures x[i] == y[i] {
      if i < sh.numSeqs * sh.numHeads * sh.headDim {
        var th := CellHasThread(sh, i);
        CellAfterRun(ops, inp, sh, out, a, th);
        CellAfterRun(ops, inp, sh, out, b, th);
      } else {
        RestAfterRun(ops, inp, sh, out, a, i);
        RestAfterRun(ops, inp, sh, out, b, i);
      }
    }
  }

  // ----- The launch grid, in the order of the nested loops -----

  function Row(s: nat, h: nat, d: nat): seq<Thread> {
    seq(d, i requires 0 <= i < d => Thread(s, h, i))
  }

  function Plane(sh: Shape, s: nat, h: nat): seq<Thread> {
    if h == 0 then [] else Plane(sh, s, h - 1) + Row(s, h - 1, sh.headDim)
  }

  function Grid(sh: Shape, s: nat): seq<Thread> {
    if s == 0 then [] else Grid(sh, s - 1) + Plane(sh, s - 1, sh.numHeads)
  }

  lemma {:induction false} PlaneMembers(sh: Shape, s: nat, h: nat, th: Thread)
    ensures th in Plane(sh, s, h) <==> th.seqIdx == s && th.headIdx < h && th.dimIdx < sh.headDim
  {
    if h == 0 {
    } else {
      PlaneMembers(sh, s, h - 1, th);
      if th.seqIdx == s && th.headIdx == h - 1 && th.dimIdx < sh.headDim {
        assert Row(s, h - 1, sh.headDim)[th.dimIdx] == th;
      }
    }
  }

  /** The grid holds exactly the threads with indices in range. */
  lemma {:induction false} GridMembers(sh: Shape, s: nat, th: Thread)
    ensures th in Grid(sh, s) <==> th.seqIdx < s && th.headIdx < sh.numHeads && th.dimIdx < sh.headDim
  {
    if s == 0 {
    } else {
      var before, last := Grid(sh, s - 1), Plane(sh, s - 1, sh.numHeads);
      GridMembers(sh, s - 1, th);
      PlaneMembers(sh, s - 1, sh.numHeads, th);
      assert th in before + last <==> th in before || th in last;
    }
  }

  lemma {:induction false} PlaneInGrid(sh: Shape, s: nat, h: nat)
    requires s < sh.numSeqs && h <= sh.numHeads
    ensures AllInGrid(sh, Plane(sh, s, h))
  {
    if h == 0 {
    } else {
      PlaneInGrid(sh, s, h - 1);
    }
  }

  lemma {:induction false} GridInGrid(sh: Shape, s: nat)
    requires s <= sh.numSeqs
    ensures AllInGrid(sh, Grid(sh, s))
  {
    if s == 0 {
    } else {
      GridInGrid(sh, s - 1);
      PlaneInGrid(sh, s - 1, sh.numHeads);
    }
  }

  lemma {:induction false} RunConcat<F>(ops: Ops<F>, inp: Inputs<F>, sh: Shape, out: seq<F>, a: seq<Thread>,
                                        b: seq<Thread>)
    requires Launchable(inp, sh, out) && AllInGrid(sh, a) && AllInGrid(sh, b)
    ensures AllInGrid(sh, a + b)
    ensures RunThreads(ops, inp, sh, out, a + b) == RunThreads(ops, inp, sh, RunThreads(ops, inp, sh, out, a), b)
  {
    if b == [] {
      assert a + b == a;
    } else {
      RunConcat(ops, inp, sh, out, a, Init(b));
      assert Init(a + b) == a + Init(b);
    }
  }

  /** Threads of an empty sequence do nothing. */
  lemma {:induction false} IdleThreads<F>(ops: Ops<F>, inp: Inputs<F>, sh: Shape, out: seq<F>, threads: seq<Thread>)
    requires Launchable(inp, sh, out) && AllInGrid(sh, threads)
    requires forall i :: 0 <= i < |threads| ==> inp.seqLens[threads[i].seqIdx] <= 0
    ensures RunThreads(ops, inp, sh, out, threads) == out
  {
    if threads == [] {
    } else {
      IdleThreads(ops, inp, sh, out, Init(threads));
    }
  }

  // ----- Paged equals contiguous -----

  /** Per sequence, keys and values laid out contiguously over tokens. */
  datatype Logical<F> = Logical(keys: seq<seq<F>>, values: seq<seq<F>>)

  /**
   The caches, laid out [block][slot][head][dimension], hold the logical arrays: token `t` of sequence `s` lies
   in the block that entry s * maxBlocksPerSeq + t / blockSize names, at slot t % blockSize.
   */
  ghost predicate Holds<F>(inp: Inputs<F>, sh: Shape, log: Logical<F>) {
    && Readable(inp, sh) && |log.keys| >= sh.numSeqs && |log.values| >= sh.numSeqs
    && forall th, t :: InGrid(sh, th) && 0 <= t < inp.seqLens[th.seqIdx] ==> CellHolds(inp, sh, log, th, t)
  }

  ghost predicate CellHolds<F>(inp: Inputs<F>, sh: Shape, log: Logical<F>, th: Thread, t: nat)
    requires InGrid(sh, th) && |log.keys| >= sh.numSeqs && |log.values| >= sh.numSeqs
  {
    && InLogical(sh, log.keys[th.seqIdx], log.values[th.seqIdx], th.headIdx, th.dimIdx, t)
    && sh.blockSize > 0
    && var e := th.seqIdx * sh.maxBlocksPerSeq + t / sh.blockSize;
    && 0 <= e < |inp.blockTables|
    && var at := CacheCell(sh, inp.blockTables[e], t % sh.blockSize, th.headIdx, th.dimIdx);
       var c := TokenCell(sh, t, th.headIdx, th.dimIdx);
    && 0 <= at < Min(|inp.kCache|, |inp.vCache|)
    && inp.kCache[at] == log.keys[th.seqIdx][c] && inp.vCache[at] == log.values[th.seqIdx][c]
  }

  /** Token `t` of one head and dimension lies in the contiguous arrays. */
  predicate InLogical<F>(sh: Shape, keys: seq<F>, values: seq<F>, h: int, d: int, t: int) {
    0 <= TokenCell(sh, t, h, d) < Min(|keys|, |values|)
  }

  /** The same loop over the contiguous arrays. */
  function AccumulateContiguous<F>(ops: Ops<F>, qv: F, sh: Shape, keys: seq<F>, values: seq<F>, h: nat, d: nat,
                                   t: nat): (F, F)
    requires forall i :: 0 <= i < t ==> InLogical(sh, keys, values, h, d, i)
  {
    if t == 0 then (ops.zero, ops.zero)
    else
      var (score, value) := AccumulateContiguous(ops, qv, sh, keys, values, h, d, t - 1);
      var at := TokenCell(sh, t - 1, h, d);
      assert InLogical(sh, keys, values, h, d, t - 1);
      (ops.add(score, ops.mul(qv, keys[at])), ops.add(value, values[at]))
  }

  lemma {:induction false} AccumulatorsAgree<F>(ops: Ops<F>, inp: Inputs<F>, sh: Shape, log: Logical<F>, th: Thread,
                                                qv: F, t: nat)
    requires Holds(inp, sh, log) && InGrid(sh, th) && t <= inp.seqLens[th.seqIdx]
    requires qv == QueryValue(ops, inp, sh, th)
    ensures forall i :: 0 <= i < t ==>
              InLogical(sh, log.keys[th.seqIdx], log.values[th.seqIdx], th.headIdx, th.dimIdx, i)
    ensures Accumulate(ops, inp, sh, th, t)
            == AccumulateContiguous(ops, qv, sh, log.keys[th.seqIdx], log.values[th.seqIdx], th.headIdx, th.dimIdx, t)
  {
    forall i | 0 <= i < t ensures InLogical(sh, log.keys[th.seqIdx], log.values[th.seqIdx], th.headIdx, th.dimIdx, i) {
      assert CellHolds(inp, sh, log, th, i);
    }
    if t == 0 {
    } else {
      AccumulatorsAgree(ops, inp, sh, log, th, qv, t - 1);
      assert CellHolds(inp, sh, log, th, t - 1);
      assert TokenReadable(inp, sh, th.seqIdx, t - 1);
      KvOffsetDigits(sh, inp.blockTables[EntryIndex(sh, th.seqIdx, t - 1)], Overhang(t - 1, sh.blockSize),
                     th.headIdx, th.dimIdx);
    }
  }

  /** The attention value computed over the contiguous arrays. */
  function ContiguousCell<F>(ops: Ops<F>, qv: F, sh: Shape, keys: seq<F>, values: seq<F>, h: nat, d: nat, len: nat): F
    requires forall i :: 0 <= i < len ==> InLogical(sh, keys, values, h, d, i)
  {
    var (score, value) := AccumulateContiguous(ops, qv, sh, keys, values, h, d, len);
    ops.mul(score, ops.div(value, ops.ofInt(len)))
  }

  /**
   The paged gather computes what the same loop over the contiguous arrays computes, from the query at
   [sequence][head][dimension] times the scale.
   */
  lemma PagedEqualsContiguous<F>(ops: Ops<F>, inp: Inputs<F>, sh: Shape, log: Logical<F>, th: Thread)
    requires Holds(inp, sh, log) && InGrid(sh, th) && inp.seqLens[th.seqIdx] > 0
    ensures forall i :: 0 <= i < inp.seqLens[th.seqIdx] ==>
              InLogical(sh, log.keys[th.seqIdx], log.values[th.seqIdx], th.headIdx, th.dimIdx, i)
    ensures 0 <= VectorCell(sh, th.seqIdx, th.headIdx, th.dimIdx) < |inp.q|
    ensures Cell(ops, inp, sh, th)
            == ContiguousCell(ops, ops.mul(inp.q[VectorCell(sh, th.seqIdx, th.headIdx, th.dimIdx)],
                                           ops.invSqrt(sh.headDim)),
                              sh, log.keys[th.seqIdx], log.values[th.seqIdx], th.headIdx, th.dimIdx,
                              inp.seqLens[th.seqIdx])
  {
    OutOffsetBound(sh, th.seqIdx, th.headIdx, th.dimIdx);
    OutOffsetDigits(sh, th.seqIdx, th.headIdx, th.dimIdx);
    AccumulatorsAgree(ops, inp, sh, log, th, QueryValue(ops, inp, sh, th), inp.seqLens[th.seqIdx]);
  }

  /**
   The whole output: when every thread of the grid has run, in whatever order, the cell of each head and
   dimension of a non-empty sequence holds the contiguous attention value, and all other cells their old value.
   */
  lemma OutputIsContiguous<F>(ops: Ops<F>, inp: Inputs<F>, sh: Shape, log: Logical<F>, out: seq<F>,
                              threads: seq<Thread>, s: nat, h: nat, d: nat)
    requires Holds(inp, sh, log) && Launchable(inp, sh, out) && AllInGrid(sh, threads)
    requires (forall th :: InGrid(sh, th) ==> th in threads) && InGrid(sh, Thread(s, h, d))
    ensures 0 <= VectorCell(sh, s, h, d) < Min(|out|, |inp.q|)
    ensures forall i :: 0 <= i < inp.seqLens[s] ==> InLogical(sh, log.keys[s], log.values[s], h, d, i)
    ensures RunThreads(ops, inp, sh, out, threads)[VectorCell(sh, s, h, d)]
            == if inp.seqLens[s] > 0 then
                 ContiguousCell(ops, ops.mul(inp.q[VectorCell(sh, s, h, d)], ops.invSqrt(sh.headDim)), sh,
                                log.keys[s], log.values[s], h, d, inp.seqLens[s])
               else out[VectorCell(sh, s, h, d)]
  {
    var th := Thread(s, h, d);
    OutOffsetBound(sh, s, h, d);
    OutOffsetDigits(sh, s, h, d);
    CellAfterRun(ops, inp, sh, out, threads, th);
    if inp.seqLens[s] > 0 { PagedEqualsContiguous(ops, inp, sh, log, th); }
  }

  /**
   Where the blocks lie does not matter: two placements of the same logical arrays, with the same queries
   and lengths, give the same output for any threads.
   */
  lemma {:induction false} PlacementDoesNotMatter<F>(ops: Ops<F>, a: Inputs<F>, b: Inputs<F>, sh: Shape,
                                                     log: Logical<F>, out: seq<F>, threads: seq<Thread>)
    requires Holds(a, sh, log) && Holds(b, sh, log) && a.q == b.q && a.seqLens == b.seqLens
    requires Launchable(a, sh, out) && Launchable(b, sh, out) && AllInGrid(sh, threads)
    ensures RunThreads(ops, a, sh, out, threads) == RunThreads(ops, b, sh, out, threads)
  {
    if threads == [] {
    } else {
      PlacementDoesNotMatter(ops, a, b, sh, log, out, Init(threads));
      var th := Last(threads);
      if a.seqLens[th.seqIdx] > 0 {
        PagedEqualsContiguous(ops, a, sh, log, th);
        PagedEqualsContiguous(ops, b, sh, log, th);
      }
    }
  }

  // ----- Renaming blocks -----

  /** A renaming of the first |r| blocks: block x moves to block r[x], and no two to the same one. */
  predicate Renaming(r: seq<nat>) {
    Distinct(r) && AllBelow(r, |r|)
  }

  /** The tables with every entry renamed. */
  function RenameTables(tables: seq<int>, r: seq<nat>): seq<int> {
    seq(|tables|, i requires 0 <= i < |tables| => if 0 <= tables[i] < |r| then r[tables[i]] else tables[i])
  }

  function IndexOf(r: seq<nat>, b: nat): (x: nat)
    requires b in r
    ensures x < |r| && r[x] == b
  {
    if r[0] == b then 0 else 1 + IndexOf(r[1..], b)
  }

  /** Where the moved cache gets cell `j` from. */
  function Source(sh: Shape, r: seq<nat>, j: nat): int {
    if BlockCells(sh) == 0 || PageOf(j, BlockCells(sh)) !in r then j
    else IndexOf(r, PageOf(j, BlockCells(sh))) * BlockCells(sh) + Overhang(j, BlockCells(sh))
  }

  /** The cache with the cells of each block moved to its new place. */
  function MoveCells<F>(cache: seq<F>, sh: Shape, r: seq<nat>): seq<F> {
    seq(|cache|, j requires 0 <= j < |cache| => if 0 <= Source(sh, r, j) < |cache| then cache[Source(sh, r, j)]
        else cache[j])
  }

  function Rename<F>(inp: Inputs<F>, sh: Shape, r: seq<nat>): Inputs<F> {
    inp.(blockTables := RenameTables(inp.blockTables, r), kCache := MoveCells(inp.kCache, sh, r),
         vCache := MoveCells(inp.vCache, sh, r))
  }

  /** Both caches hold the cells of `total` blocks, and the tables name no others for any token. */
  ghost predicate WithinBlocks<F>(inp: Inputs<F>, sh: Shape, total: nat) {
    && Readable(inp, sh)
    && total * BlockCells(sh) <= |inp.kCache| && total * BlockCells(sh) <= |inp.vCache|
    && forall s, t :: 0 <= s < sh.numSeqs && 0 <= t < inp.seqLens[s] ==>
         TokenReadable(inp, sh, s, t) && inp.blockTables[EntryIndex(sh, s, t)] < total
  }

  /** A moved cell comes from its block's old place. */
  lemma SourceIs(sh: Shape, r: seq<nat>, x: nat, inner: nat)
    requires Renaming(r) && x < |r| && inner < BlockCells(sh)
    ensures 0 <= r[x] * BlockCells(sh) + inner < |r| * BlockCells(sh)
            && 0 <= x * BlockCells(sh) + inner < |r| * BlockCells(sh)
    ensures Source(sh, r, r[x] * BlockCells(sh) + inner) == x * BlockCells(sh) + inner
  {
    var n := BlockCells(sh);
    var j := r[x] * n + inner;
    DigitBound(r[x], |r|, inner, n);
    DigitBound(x, |r|, inner, n);
    PageDigits(j, n);
    DigitUnique(PageOf(j, n), Overhang(j, n), r[x], inner, n);
    assert r[x] in r;
  }

  lemma PageDigits(j: nat, n: nat)
    requires n > 0
    ensures j == PageOf(j, n) * n + Overhang(j, n) && Overhang(j, n) < n
  {
  }

  lemma MovedCell<F>(cache: seq<F>, sh: Shape, r: seq<nat>, x: nat, slot: int, h: int, d: int)
    requires Renaming(r) && x < |r| && 0 <= slot < sh.blockSize && HeadDim(sh, h, d) && |r| * BlockCells(sh) <= |cache|
    ensures 0 <= KvOffset(sh, x, slot, h, d) < |cache| && 0 <= KvOffset(sh, r[x], slot, h, d) < |cache|
    ensures MoveCells(cache, sh, r)[KvOffset(sh, r[x], slot, h, d)] == cache[KvOffset(sh, x, slot, h, d)]
  {
    InnerOffset(sh, x, slot, h, d);
    InnerOffset(sh, r[x], slot, h, d);
    SourceIs(sh, r, x, KvOffset(sh, 0, slot, h, d));
  }

  /** What a token reads is moved along with its entry. */
  lemma RenamedToken<F>(inp: Inputs<F>, sh: Shape, r: seq<nat>, s: nat, t: nat)
    requires Renaming(r) && WithinBlocks(inp, sh, |r|) && s < sh.numSeqs && t < inp.seqLens[s]
    ensures TokenReadable(inp, sh, s, t) && TokenReadable(Rename(inp, sh, r), sh, s, t)
    ensures forall h: nat, d: nat :: HeadDim(sh, h, d) ==>
              var from, to := inp.blockTables[EntryIndex(sh, s, t)],
                Rename(inp, sh, r).blockTables[EntryIndex(sh, s, t)];
              var at, at' := KvOffset(sh, from, Overhang(t, sh.blockSize), h, d),
                             KvOffset(sh, to, Overhang(t, sh.blockSize), h, d);
              Rename(inp, sh, r).kCache[at'] == inp.kCache[at] && Rename(inp, sh, r).vCache[at'] == inp.vCache[at]
  {
    var e := EntryIndex(sh, s, t);
    var x := inp.blockTables[e];
    assert TokenReadable(inp, sh, s, t) && RenameTables(inp.blockTables, r)[e] == r[x];
    OverhangIsSlot(t, sh.blockSize);
    forall h, d | HeadDim(sh, h, d)
      ensures && 0 <= KvOffset(sh, r[x], Overhang(t, sh.blockSize), h, d) < Min(|inp.kCache|, |inp.vCache|)
              && MoveCells(inp.kCache, sh, r)[KvOffset(sh, r[x], Overhang(t, sh.blockSize), h, d)]
                 == inp.kCache[KvOffset(sh, x, Overhang(t, sh.blockSize), h, d)]
              && MoveCells(inp.vCache, sh, r)[KvOffset(sh, r[x], Overhang(t, sh.blockSize), h, d)]
                 == inp.vCache[KvOffset(sh, x, Overhang(t, sh.blockSize), h, d)]
    {
      MovedCell(inp.kCache, sh, r, x, Overhang(t, sh.blockSize), h, d);
      MovedCell(inp.vCache, sh, r, x, Overhang(t, sh.blockSize), h, d);
    }
  }

  lemma OverhangIsSlot(t: nat, blockSize: nat)
    requires blockSize > 0
    ensures 0 <= Overhang(t, blockSize) < blockSize
  {
  }

  lemma RenamedReadable<F>(inp: Inputs<F>, sh: Shape, r: seq<nat>)
    requires Renaming(r) && WithinBlocks(inp, sh, |r|)
    ensures Readable(Rename(inp, sh, r), sh)
  {
    forall s: nat, t: nat | s < sh.numSeqs && t < inp.seqLens[s] ensures TokenReadable(Rename(inp, sh, r), sh, s, t) {
      RenamedToken(inp, sh, r, s, t);
    }
  }

  lemma {:induction false} RenamedAccumulate<F>(ops: Ops<F>, inp: Inputs<F>, sh: Shape, r: seq<nat>, th: Thread, t: nat)
    requires Renaming(r) && WithinBlocks(inp, sh, |r|) && InGrid(sh, th) && t <= inp.seqLens[th.seqIdx]
    requires Readable(Rename(inp, sh, r), sh)
    ensures Accumulate(ops, Rename(inp, sh, r), sh, th, t) == Accumulate(ops, inp, sh, th, t)
  {
    if t == 0 {
    } else {
      RenamedAccumulate(ops, inp, sh, r, th, t - 1);
      RenamedToken(inp, sh, r, th.seqIdx, t - 1);
      assert HeadDim(sh, th.headIdx, th.dimIdx);
      assert Thread(th.seqIdx, th.headIdx, th.dimIdx) == th;
      assert QueryValue(ops, Rename(inp, sh, r), sh, th) == QueryValue(ops, inp, sh, th);
    }
  }

  /**
   Renaming the physical blocks, table entries and cache cells together, changes no output: neither of any
   threads nor of the whole grid.
   */
  lemma {:induction false} RenamingDoesNotMatter<F>(ops: Ops<F>, inp: Inputs<F>, sh: Shape, r: seq<nat>, out: seq<F>,
                                                    threads: seq<Thread>)
    requires Renaming(r) && WithinBlocks(inp, sh, |r|) && Launchable(inp, sh, out) && AllInGrid(sh, threads)
    ensures Launchable(Rename(inp, sh, r), sh, out)
    ensures RunThreads(ops, Rename(inp, sh, r), sh, out, threads) == RunThreads(ops, inp, sh, out, threads)
  {
    RenamedReadable(inp, sh, r);
    if threads == [] {
    } else {
      RenamingDoesNotMatter(ops, inp, sh, r, out, Init(threads));
      var th := Last(threads);
      if inp.seqLens[th.seqIdx] > 0 { RenamedAccumulate(ops, inp, sh, r, th, inp.seqLens[th.seqIdx]); }
    }
  }
}
