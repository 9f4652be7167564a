/** Flat offsets, launch indices and 32-bit arithmetic. */
module Addresses {
  import opened Prelude

  datatype Shape = Shape(maxBlocksPerSeq: nat, numSeqs: nat, numHeads: nat, headDim: nat, blockSize: nat)

  // ----- Multiplication, kept to a few facts -----

  lemma Distribute(a: int, b: int, n: int)
    ensures (a + b) * n == a * n + b * n
  {
  }

  lemma MulMonotone(a: int, b: int, n: int)
    requires a <= b && 0 <= n
    ensures a * n <= b * n
  {
  }

  lemma MulNonNegative(a: int, b: int)
    requires 0 <= a && 0 <= b
    ensures 0 <= a * b
  {
  }

  /** A number written with a digit below `n` stays below `m * n`. */
  lemma DigitBound(a: int, m: int, b: int, n: int)
    requires 0 <= a < m && 0 <= b < n
    ensures 0 <= a * n <= a * n + b < m * n
  {
    MulNonNegative(a, n);
    Distribute(a, 1, n);
    MulMonotone(a + 1, m, n);
  }

  /** Its leading part and its digit are determined. */
  lemma DigitUnique(a: int, b: int, c: int, d: int, n: int)
    requires 0 <= b < n && 0 <= d < n && a * n + b == c * n + d
    ensures a == c && b == d
  {
    if a < c {
      Distribute(a, 1, n);
      MulMonotone(a + 1, c, n);
    } else if c < a {
      Distribute(c, 1, n);
      MulMonotone(c + 1, a, n);
    }
  }

  // ----- Offsets, as both programs compute them -----

  function OutOffset(sh: Shape, s: int, h: int, d: int): int {
    s * sh.numHeads * sh.headDim + h * sh.headDim + d
  }

  function KvOffset(sh: Shape, block: int, slot: int, h: int, d: int): int {
    block * sh.blockSize * sh.numHeads * sh.headDim + slot * sh.numHeads * sh.headDim + h * sh.headDim + d
  }

  /** Cells of one block in a cache. */
  function BlockCells(sh: Shape): nat {
    sh.blockSize * sh.numHeads * sh.headDim
  }

  // ----- The layouts these offsets are to follow: row-major, last index fastest -----

  /** Cell of an array [sequence][head][dimension]. */
  function VectorCell(sh: Shape, s: int, h: int, d: int): int {
    (s * sh.numHeads + h) * sh.headDim + d
  }

  /** Cell of an array [block][slot][head][dimension]. */
  function CacheCell(sh: Shape, block: int, slot: int, h: int, d: int): int {
    ((block * sh.blockSize + slot) * sh.numHeads + h) * sh.headDim + d
  }

  /** Cell of an array [token][head][dimension]. */
  function TokenCell(sh: Shape, t: int, h: int, d: int): int {
    (t * sh.numHeads + h) * sh.headDim + d
  }

  predicate HeadDim(sh: Shape, h: int, d: int) {
    0 <= h < sh.numHeads && 0 <= d < sh.headDim
  }

  lemma OutOffsetDigits(sh: Shape, s: int, h: int, d: int)
    ensures OutOffset(sh, s, h, d) == VectorCell(sh, s, h, d)
  {
    Distribute(s * sh.numHeads, h, sh.headDim);
  }

  lemma KvOffsetDigits(sh: Shape, block: int, slot: int, h: int, d: int)
    ensures KvOffset(sh, block, slot, h, d) == CacheCell(sh, block, slot, h, d)
  {
    Distribute(block * sh.blockSize, slot, sh.numHeads);
    Distribute(block * sh.blockSize * sh.numHeads + slot * sh.numHeads, h, sh.headDim);
    Distribute(block * sh.blockSize * sh.numHeads, slot * sh.numHeads, sh.headDim);
  }

  /** Output offsets stay inside the output and hit distinct cells. */
  lemma OutOffsetBound(sh: Shape, s: int, h: int, d: int)
    requires 0 <= s < sh.numSeqs && HeadDim(sh, h, d)
    ensures 0 <= OutOffset(sh, s, h, d) < sh.numSeqs * sh.numHeads * sh.headDim
  {
    OutOffsetDigits(sh, s, h, d);
    DigitBound(s, sh.numSeqs, h, sh.numHeads);
    DigitBound(s * sh.numHeads + h, sh.numSeqs * sh.numHeads, d, sh.headDim);
  }

  lemma OutOffsetInjective(sh: Shape, s: int, h: int, d: int, s': int, h': int, d': int)
    requires HeadDim(sh, h, d) && HeadDim(sh, h', d') && OutOffset(sh, s, h, d) == OutOffset(sh, s', h', d')
    ensures s == s' && h == h' && d == d'
  {
    OutOffsetDigits(sh, s, h, d);
    OutOffsetDigits(sh, s', h', d');
    DigitUnique(s * sh.numHeads + h, d, s' * sh.numHeads + h', d', sh.headDim);
    DigitUnique(s, h, s', h', sh.numHeads);
  }

  /** Every output cell is some thread's: the launch grid maps onto the cells. */
  lemma OutOffsetOnto(sh: Shape, i: int) returns (s: int, h: int, d: int)
    requires 0 <= i < sh.numSeqs * sh.numHeads * sh.headDim
    ensures 0 <= s < sh.numSeqs && HeadDim(sh, h, d) && OutOffset(sh, s, h, d) == i
  {
    d := i % sh.headDim;
    var r := i / sh.headDim;
    assert i == r * sh.headDim + d;
    MulCancelsLess(r, sh.numSeqs * sh.numHeads, sh.headDim);
    h := r % sh.numHeads;
    s := r / sh.numHeads;
    assert r == s * sh.numHeads + h;
    MulCancelsLess(s, sh.numSeqs, sh.numHeads);
    OutOffsetDigits(sh, s, h, d);
  }

  /** Cache offsets of an in-range block stay inside the cache. */
  lemma KvOffsetBound(sh: Shape, total: int, block: int, slot: int, h: int, d: int)
    requires 0 <= block < total && 0 <= slot < sh.blockSize && HeadDim(sh, h, d)
    ensures 0 <= KvOffset(sh, block, slot, h, d) < total * sh.blockSize * sh.numHeads * sh.headDim
  {
    KvOffsetDigits(sh, block, slot, h, d);
    DigitBound(block, total, slot, sh.blockSize);
    DigitBound(block * sh.blockSize + slot, total * sh.blockSize, h, sh.numHeads);
    DigitBound((block * sh.blockSize + slot) * sh.numHeads + h, total * sh.blockSize * sh.numHeads, d, sh.headDim);
  }

  /** A cell's place within its block. */
  lemma InnerOffset(sh: Shape, block: int, slot: int, h: int, d: int)
    requires 0 <= slot < sh.blockSize && HeadDim(sh, h, d)
    ensures KvOffset(sh, block, slot, h, d) == block * BlockCells(sh) + KvOffset(sh, 0, slot, h, d)
    ensures 0 <= KvOffset(sh, 0, slot, h, d) < BlockCells(sh)
  {
    KvOffsetBound(sh, 1, 0, slot, h, d);
    MulAssociates(block, sh.blockSize, sh.numHeads, sh.headDim);
  }

  lemma MulAssociates(a: int, b: int, c: int, d: int)
    ensures a * b * c * d == a * (b * c * d)
  {
    assert a * b * c == a * (b * c);
    assert a * (b * c) * d == a * ((b * c) * d);
  }

  /** Distinct (block, slot, head, dim) have distinct cache cells. */
  lemma KvOffsetInjective(sh: Shape, b: int, t: int, h: int, d: int, b': int, t': int, h': int, d': int)
    requires 0 <= t < sh.blockSize && 0 <= t' < sh.blockSize && HeadDim(sh, h, d) && HeadDim(sh, h', d')
    requires KvOffset(sh, b, t, h, d) == KvOffset(sh, b', t', h', d')
    ensures b == b' && t == t' && h == h' && d == d'
  {
    KvOffsetDigits(sh, b, t, h, d);
    KvOffsetDigits(sh, b', t', h', d');
    DigitUnique((b * sh.blockSize + t) * sh.numHeads + h, d, (b' * sh.blockSize + t') * sh.numHeads + h', d',
                sh.headDim);
    DigitUnique(b * sh.blockSize + t, h, b' * sh.blockSize + t', h', sh.numHeads);
    DigitUnique(b, t, b', t', sh.blockSize);
  }

  // ----- 32-bit arithmetic -----

  const TWO_31 := 0x8000_0000
  const TWO_32 := 0x1_0000_0000

  /** The value of an integer cast to `i32`. */
  function AsI32(x: int): int {
    (x + TWO_31) % TWO_32 - TWO_31
  }

  predicate FitsI32(x: int) {
    -TWO_31 <= x < TWO_31
  }

  lemma CastIsExact(x: int)
    ensures AsI32(x) == x <==> FitsI32(x)
  {
  }

  /** Out of range a cast wraps around: it changes the value by a multiple of 2^32, into the range. */
  lemma CastWraps(x: int)
    ensures FitsI32(AsI32(x)) && (x - AsI32(x)) % TWO_32 == 0
  {
  }

  function Mul32(a: int, b: int): int { AsI32(a * b) }

  function Add32(a: int, b: int): int { AsI32(a + b) }

  /** The kernel's output offset, every operation in 32 bits. */
  function OutOffset32(sh: Shape, s: int, h: int, d: int): int {
    Add32(Add32(Mul32(Mul32(s, sh.numHeads), sh.headDim), Mul32(h, sh.headDim)), d)
  }

  /** The kernel's cache offset, every operation in 32 bits. */
  function KvOffset32(sh: Shape, block: int, slot: int, h: int, d: int): int {
    Add32(Add32(Add32(Mul32(Mul32(Mul32(block, sh.blockSize), sh.numHeads), sh.headDim),
                      Mul32(Mul32(slot, sh.numHeads), sh.headDim)),
                Mul32(h, sh.headDim)),
          d)
  }

  lemma GrowsByFactor(a: int, n: int)
    requires 0 <= a && 1 <= n
    ensures a <= a * n
  {
    MulMonotone(1, n, a);
  }

  /** No step overflows when the output has at most 2^31 cells. */
  lemma OutOffsetExact(sh: Shape, s: int, h: int, d: int)
    requires 0 <= s < sh.numSeqs && HeadDim(sh, h, d) && sh.numSeqs * sh.numHeads * sh.headDim <= TWO_31
    ensures OutOffset32(sh, s, h, d) == OutOffset(sh, s, h, d)
  {
    OutOffsetBound(sh, s, h, d);
    var H, D := sh.numHeads, sh.headDim;
    MulNonNegative(s, H);
    MulNonNegative(s * H, D);
    MulNonNegative(h, D);
    GrowsByFactor(s * H, D);
    CastIsExact(s * H);
    CastIsExact(s * H * D);
    CastIsExact(h * D);
    CastIsExact(s * H * D + h * D);
    CastIsExact(s * H * D + h * D + d);
  }

  /** No step overflows when the cache has at most 2^31 cells. */
  lemma KvOffsetExact(sh: Shape, total: int, block: int, slot: int, h: int, d: int)
    requires 0 <= block < total && 0 <= slot < sh.blockSize && HeadDim(sh, h, d)
    requires total * sh.blockSize * sh.numHeads * sh.headDim <= TWO_31
    ensures KvOffset32(sh, block, slot, h, d) == KvOffset(sh, block, slot, h, d)
  {
    KvOffsetBound(sh, total, block, slot, h, d);
    var B, H, D := sh.blockSize, sh.numHeads, sh.headDim;
    MulNonNegative(block, B);
    MulNonNegative(block * B, H);
    MulNonNegative(block * B * H, D);
    MulNonNegative(slot, H);
    MulNonNegative(slot * H, D);
    MulNonNegative(h, D);
    GrowsByFactor(block * B, H);
    GrowsByFactor(block * B * H, D);
    GrowsByFactor(slot * H, D);
    ExactSum(block * B, block * B * H, block * B * H * D, slot * H, slot * H * D, h * D, d);
  }

  lemma ExactSum(a: int, b: int, c: int, e: int, f: int, g: int, d: int)
    requires 0 <= a <= b <= c && 0 <= e <= f && 0 <= g && 0 <= d && c + f + g + d < TWO_31
    ensures AsI32(a) == a && AsI32(b) == b && AsI32(c) == c && AsI32(e) == e && AsI32(f) == f && AsI32(g) == g
    ensures AsI32(c + f) == c + f && AsI32(c + f + g) == c + f + g && AsI32(c + f + g + d) == c + f + g + d
  {
    CastIsExact(a);
    CastIsExact(b);
    CastIsExact(c);
    CastIsExact(e);
    CastIsExact(f);
    CastIsExact(g);
    CastIsExact(c + f);
    CastIsExact(c + f + g);
    CastIsExact(c + f + g + d);
  }
}
