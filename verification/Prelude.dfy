/** Small shared vocabulary: options, results, token type, sequences and page arithmetic. */
module Prelude {

  datatype Option<+T> = None | Some(value: T) {
    function GetOr(default: T): T {
      if None? then default else value
    }
  }

  /** The tokens of a prompt: `u32` in the program. */
  newtype u32 = x: int | 0 <= x < 0x1_0000_0000

  function Last<T>(s: seq<T>): T
    requires |s| > 0
  {
    s[|s| - 1]
  }

  function Init<T>(s: seq<T>): seq<T>
    requires |s| > 0
  {
    s[..|s| - 1]
  }

  lemma InitLast<T>(s: seq<T>)
    requires |s| > 0
    ensures Init(s) + [Last(s)] == s
  {
  }

  function Min(a: int, b: int): int {
    if a < b then a else b
  }

  function Reverse<T>(s: seq<T>): (r: seq<T>)
    ensures |r| == |s|
    ensures forall i :: 0 <= i < |s| ==> r[i] == s[|s| - 1 - i]
  {
    seq(|s|, i requires 0 <= i < |s| => s[|s| - 1 - i])
  }

  lemma {:induction false} ReverseMultiset<T>(s: seq<T>)
    ensures multiset(Reverse(s)) == multiset(s)
  {
    if s == [] {
      assert Reverse(s) == [];
    } else {
      ReverseMultiset(Init(s));
      assert Reverse(s) == [Last(s)] + Reverse(Init(s));
      InitLast(s);
    }
  }

  predicate Distinct<T(==)>(s: seq<T>) {
    forall i, j :: 0 <= i < j < |s| ==> s[i] != s[j]
  }

  predicate AllBelow(s: seq<nat>, bound: nat) {
    forall i :: 0 <= i < |s| ==> s[i] < bound
  }

  /** Blocks needed for `tokens` tokens, written as the program writes it. */
  function BlocksFor(tokens: nat, blockSize: nat): nat
    requires blockSize > 0
  {
    if tokens == 0 then 0 else (tokens + blockSize - 1) / blockSize
  }

  /** The page of a token position. */
  function PageOf(pos: nat, blockSize: nat): nat
    requires blockSize > 0
  {
    pos / blockSize
  }

  /** How many tokens lie in a partly filled last page; 0 on a page boundary. */
  function Overhang(tokens: nat, blockSize: nat): nat
    requires blockSize > 0
  {
    tokens % blockSize
  }

  /** Tokens in so many full pages. */
  function TokensIn(pages: nat, blockSize: nat): nat {
    pages * blockSize
  }

  lemma OnePageMore(pages: nat, blockSize: nat)
    ensures TokensIn(pages + 1, blockSize) == TokensIn(pages, blockSize) + blockSize
  {
  }

  /** A full page lies within the tokens. */
  lemma FullPageInRange(tokens: nat, blockSize: nat, i: nat)
    requires blockSize > 0 && i < PageOf(tokens, blockSize)
    ensures 0 <= i * blockSize <= i * blockSize + blockSize <= tokens
  {
    assert (i + 1) * blockSize <= PageOf(tokens, blockSize) * blockSize;
  }

  /** A block count is the least one that offers room for the tokens. */
  lemma BlocksForIsCeiling(tokens: nat, blockSize: nat, n: nat)
    requires blockSize > 0
    ensures BlocksFor(tokens, blockSize) <= n <==> tokens <= n * blockSize
  {
    if tokens > 0 {
      var q := (tokens + blockSize - 1) / blockSize;
      assert q * blockSize <= tokens + blockSize - 1 < q * blockSize + blockSize;
      if q <= n {
        assert q * blockSize <= n * blockSize;
      } else {
        assert (n + 1) * blockSize <= q * blockSize;
      }
    }
  }

  /** Ceiling against floor: equal on a block boundary, one apart elsewhere. */
  lemma BlocksForFloor(tokens: nat, blockSize: nat)
    requires blockSize > 0
    ensures BlocksFor(tokens, blockSize)
            == PageOf(tokens, blockSize) + (if Overhang(tokens, blockSize) == 0 then 0 else 1)
  {
    var n := tokens / blockSize;
    assert tokens == n * blockSize + tokens % blockSize;
    BlocksForIsCeiling(tokens, blockSize, n);
    BlocksForIsCeiling(tokens, blockSize, n + 1);
    assert (n + 1) * blockSize == n * blockSize + blockSize;
    if n > 0 {
      BlocksForIsCeiling(tokens, blockSize, n - 1);
      assert (n - 1) * blockSize == n * blockSize - blockSize;
    }
  }

  lemma BlocksForMonotone(a: nat, b: nat, blockSize: nat)
    requires blockSize > 0 && a <= b
    ensures BlocksFor(a, blockSize) <= BlocksFor(b, blockSize)
  {
    BlocksForIsCeiling(b, blockSize, BlocksFor(b, blockSize));
    BlocksForIsCeiling(a, blockSize, BlocksFor(b, blockSize));
  }

  /** The first position of a page. */
  lemma FirstOfPage(page: nat, blockSize: nat)
    requires blockSize > 0
    ensures PageOf(TokensIn(page, blockSize), blockSize) == page
  {
    var q := page * blockSize / blockSize;
    assert q * blockSize <= page * blockSize < (q + 1) * blockSize;
    MulCancelsLess(page, q + 1, blockSize);
    MulCancelsLess(q, page + 1, blockSize);
  }

  /** A position is at or past the start of a page exactly when its own page is that one or a later one. */
  lemma PageStarts(pos: nat, page: nat, blockSize: nat)
    requires blockSize > 0
    ensures TokensIn(page, blockSize) <= pos <==> page <= PageOf(pos, blockSize)
  {
    var q := pos / blockSize;
    assert q * blockSize <= pos < (q + 1) * blockSize;
    if page <= q {
      assert page * blockSize <= q * blockSize;
    } else {
      assert (q + 1) * blockSize <= page * blockSize;
    }
  }

  lemma MulCancelsLess(a: int, b: int, d: nat)
    requires a * d < b * d
    ensures a < b
  {
    assert (b - a) * d > 0;
  }

  lemma FloorMonotone(a: nat, b: nat, d: nat)
    requires d > 0 && a <= b
    ensures PageOf(a, d) <= PageOf(b, d)
  {
    var x, y := a / d, b / d;
    assert x * d <= b < y * d + d == (y + 1) * d;
    MulCancelsLess(x, y + 1, d);
  }
}
