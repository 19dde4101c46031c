/** The block arithmetic of the NZB check, and the geometry it stands for.

    A PAR2 source file is cut into slices of `blockSize` bytes, numbered again from
    zero in every file. Byte `b` lies in slice `b / blockSize`. The check never sees
    the bytes; it only has counts. The lemmas below relate the two. */
module Slices {
  import opened Arithmetic

  const INT32_MAX: int := 0x7FFF_FFFF
  const INT64_MAX: int := 0x7FFF_FFFF_FFFF_FFFF

  function SaturatedAdd(left: int, right: int): int {
    if right > 0 && left > INT64_MAX - right then INT64_MAX else left + right
  }

  /** What a chain of saturated additions of non-negative terms settles on. */
  function Saturate(n: int): int {
    if n > INT64_MAX then INT64_MAX else n
  }

  function BoundedBlockCount(blocks: int): int {
    if blocks > INT32_MAX then INT32_MAX else blocks
  }

  function MaxBlocksTouched(bytes: int, blockSize: int): (n: int)
    ensures 0 <= n
    ensures bytes > 0 ==> n >= 1
  {
    if bytes > 0 then SaturatedAdd(CeilDiv(bytes - 1, blockSize), 1) else 0
  }

  // ---- Sums, saturated or not ----

  function Sum(ns: seq<int>): int {
    if ns == [] then 0 else Sum(ns[..|ns| - 1]) + ns[|ns| - 1]
  }

  lemma SumPrefix(ns: seq<int>, i: nat)
    requires i < |ns|
    ensures Sum(ns[..i + 1]) == Sum(ns[..i]) + ns[i]
  {
    assert ns[..i + 1][..i] == ns[..i];
  }

  lemma SumAppend(ns: seq<int>, n: int)
    ensures Sum(ns + [n]) == Sum(ns) + n
  {
    assert (ns + [n])[..|ns|] == ns;
  }

  /** Sums compare as their terms do. */
  lemma {:induction false} SumMonotone(small: seq<int>, big: seq<int>)
    requires |small| == |big|
    requires forall i | 0 <= i < |small| :: small[i] <= big[i]
    ensures Sum(small) <= Sum(big)
  {
    if small != [] {
      SumMonotone(small[..|small| - 1], big[..|big| - 1]);
    }
  }

  lemma {:induction false} SumNonNegative(ns: seq<int>)
    requires forall i | 0 <= i < |ns| :: ns[i] >= 0
    ensures Sum(ns) >= 0
    ensures forall i | 0 <= i < |ns| :: ns[i] <= Sum(ns)
  {
    if ns != [] {
      SumNonNegative(ns[..|ns| - 1]);
      assert forall i | 0 <= i < |ns| - 1 :: ns[i] == ns[..|ns| - 1][i];
    }
  }

  /** Saturated addition of non-negative numbers is the saturation of the true sum,
      so the order and grouping of the additions do not matter. */
  lemma SaturatedAddIsSaturatedSum(sum: int, n: int)
    requires sum >= 0 && n >= 0
    ensures SaturatedAdd(Saturate(sum), n) == Saturate(sum + n)
    ensures SaturatedAdd(Saturate(sum), Saturate(n)) == Saturate(sum + n)
  {
  }

  // ---- Rounding up ----

  /** The quotient rounded up is the least number of blocks that holds the bytes. */
  lemma CeilDivIsLeast(bytes: int, blockSize: int, blocks: int)
    requires blockSize > 0 && blocks >= 0
    ensures bytes <= blocks * blockSize <==> CeilDiv(bytes, blockSize) <= blocks
  {
    var q := CeilDiv(bytes, blockSize);
    MulOrder(q, blocks, blockSize);
    MulOrder(blocks, q - 1, blockSize);
    if bytes <= 0 {
      MulOrder(0, blocks, blockSize);
    }
  }

  lemma CeilDivMonotone(a: int, b: int, blockSize: int)
    requires a <= b
    ensures CeilDiv(a, blockSize) <= CeilDiv(b, blockSize)
  {
    if blockSize > 0 {
      var q := CeilDiv(b, blockSize);
      CeilDivIsLeast(b, blockSize, q);
      CeilDivIsLeast(a, blockSize, q);
    }
  }

  lemma CeilDivNoMoreThanBytes(bytes: int, blockSize: int)
    ensures CeilDiv(bytes, blockSize) <= Max(0, bytes)
  {
    if blockSize > 0 && bytes > 0 {
      MulOrder(1, blockSize, bytes);
      CeilDivIsLeast(bytes, blockSize, bytes);
    }
  }

  // ---- Bytes and the slices they lie in ----

  function Interval(start: int, length: nat): (bytes: set<int>)
    ensures |bytes| == length
    ensures forall b :: b in bytes <==> start <= b < start + length
  {
    if length == 0 then {} else Interval(start, length - 1) + {start + length - 1}
  }

  /** The slices that hold at least one of these bytes. */
  function Touched(bytes: set<int>, blockSize: int): set<int>
    requires blockSize > 0
  {
    set b | b in bytes :: b / blockSize
  }

  lemma SubsetSize<T>(small: set<T>, big: set<T>)
    requires small <= big
    ensures |small| <= |big|
  {
    assert big == small + (big - small);
  }

  lemma UnionSize<T>(a: set<T>, b: set<T>)
    ensures |a + b| <= |a| + |b|
  {
    assert a + b == a + (b - a);
    SubsetSize(b - a, b);
  }

  /** The slice of a byte is the quotient. */
  lemma SliceOf(b: int, blockSize: int, k: int)
    requires blockSize > 0
    ensures b / blockSize == k <==> k * blockSize <= b < k * blockSize + blockSize
  {
    var q := b / blockSize;
    assert q * blockSize <= b < q * blockSize + blockSize;
    assert (q + 1) * blockSize == q * blockSize + blockSize;
    assert (k + 1) * blockSize == k * blockSize + blockSize;
    MulOrder(q + 1, k, blockSize);
    MulOrder(k + 1, q, blockSize);
  }

  lemma DivMonotone(a: int, b: int, blockSize: int)
    requires a <= b && blockSize > 0
    ensures a / blockSize <= b / blockSize
  {
    var p, q := a / blockSize, b / blockSize;
    SliceOf(a, blockSize, p);
    SliceOf(b, blockSize, q);
    assert (q + 1) * blockSize == q * blockSize + blockSize;
    MulOrder(q + 1, p, blockSize);
  }

  lemma TouchedUnion(a: set<int>, b: set<int>, blockSize: int)
    requires blockSize > 0
    ensures Touched(a + b, blockSize) == Touched(a, blockSize) + Touched(b, blockSize)
  {
  }

  lemma Member<T>(bytes: set<T>) returns (b: T)
    requires bytes != {}
    ensures b in bytes
  {
    b :| b in bytes;
  }

  /** The bytes of one slice are at most `blockSize` many. */
  lemma OneSlice(bytes: set<int>, blockSize: int, k: int)
    requires blockSize > 0
    requires forall b | b in bytes :: b / blockSize == k
    ensures |bytes| <= blockSize
  {
    forall b | b in bytes ensures b in Interval(k * blockSize, blockSize) {
      SliceOf(b, blockSize, k);
    }
    SubsetSize(bytes, Interval(k * blockSize, blockSize));
  }

  /** Pigeonhole: n bytes cannot fit in fewer than n / blockSize slices. */
  lemma {:induction false} BytesFitTheirSlices(bytes: set<int>, blockSize: int)
    requires blockSize > 0
    ensures |bytes| <= |Touched(bytes, blockSize)| * blockSize
    ensures CeilDiv(|bytes|, blockSize) <= |Touched(bytes, blockSize)|
    decreases |bytes|
  {
    var n := |Touched(bytes, blockSize)|;
    if bytes != {} {
      var b := Member(bytes);
      var k := b / blockSize;
      var inside := set x | x in bytes && x / blockSize == k;
      var outside := bytes - inside;
      assert b in inside && bytes == inside + outside;
      BytesFitTheirSlices(outside, blockSize);
      OneSlice(inside, blockSize, k);
      assert Touched(inside, blockSize) == {k};
      TouchedUnion(inside, outside, blockSize);
      assert k !in Touched(outside, blockSize);
      assert n == 1 + |Touched(outside, blockSize)|;
      MulSum(n - 1, 1, 0, blockSize);
    }
    CeilDivIsLeast(|bytes|, blockSize, n);
  }

  /** Two bytes at most `q * blockSize` apart lie at most q slices apart. */
  lemma SliceDistance(a: int, b: int, blockSize: int, q: nat)
    requires blockSize > 0 && a <= b <= a + q * blockSize
    ensures a / blockSize <= b / blockSize <= a / blockSize + q
  {
    var first, last := a / blockSize, b / blockSize;
    DivMonotone(a, b, blockSize);
    SliceOf(a, blockSize, first);
    SliceOf(b, blockSize, last);
    MulSum(first, 1, q, blockSize);
    MulOrder(last, first + 1 + q, blockSize);
  }

  /** An article of `length` bytes, wherever it starts, touches at most
      `MaxBlocksTouched(length)` slices ... */
  lemma IntervalTouchesAtMost(start: int, length: nat, blockSize: int)
    requires blockSize > 0 && 0 < length <= INT64_MAX
    ensures |Touched(Interval(start, length), blockSize)| <= MaxBlocksTouched(length, blockSize)
  {
    var q := CeilDiv(length - 1, blockSize);
    CeilDivNoMoreThanBytes(length - 1, blockSize);
    forall k | k in Touched(Interval(start, length), blockSize)
      ensures k in Interval(start / blockSize, q + 1)
    {
      var b :| b in Interval(start, length) && b / blockSize == k;
      SliceDistance(start, b, blockSize, q);
    }
    SubsetSize(Touched(Interval(start, length), blockSize), Interval(start / blockSize, q + 1));
  }

  /** ... and the bound is reached: the last byte of a slice is the worst start. */
  lemma MaxBlocksTouchedIsReached(length: nat, blockSize: int)
    requires blockSize > 0 && 0 < length <= INT64_MAX
    ensures |Touched(Interval(blockSize - 1, length), blockSize)| == MaxBlocksTouched(length, blockSize)
  {
    hide CeilDiv;
    IntervalTouchesAtMost(blockSize - 1, length, blockSize);
    WorstRunTouchesAll(length, blockSize);
    CeilDivNoMoreThanBytes(length - 1, blockSize);
  }

  lemma WorstRunTouchesAll(length: nat, blockSize: int)
    requires blockSize > 0 && length > 0
    ensures CeilDiv(length - 1, blockSize) + 1 <= |Touched(Interval(blockSize - 1, length), blockSize)|
  {
    var slices := Interval(0, CeilDiv(length - 1, blockSize) + 1);
    var touched := Touched(Interval(blockSize - 1, length), blockSize);
    forall k ensures k in slices ==> k in touched {
      if k in slices {
        WorstRunTouches(length, blockSize, k);
      }
    }
    SubsetSize(slices, touched);
  }

  lemma WorstRunTouches(length: nat, blockSize: int, k: int)
    requires blockSize > 0 && length > 0 && 0 <= k <= CeilDiv(length - 1, blockSize)
    ensures k in Touched(Interval(blockSize - 1, length), blockSize)
  {
    var b := if k == 0 then blockSize - 1 else k * blockSize;
    SliceOf(b, blockSize, k);
    CeilDivIsLeast(length - 1, blockSize, Max(0, k - 1));
    MulSum(k, -1, 0, blockSize);
    MulOrder(1, k, blockSize);
    assert b in Interval(blockSize - 1, length);
  }

  /** Bytes of a file of `size` bytes touch no more slices than the file has. */
  lemma TouchedWithinFile(bytes: set<int>, size: nat, blockSize: int)
    requires blockSize > 0 && bytes <= Interval(0, size)
    ensures |Touched(bytes, blockSize)| <= CeilDiv(size, blockSize)
  {
    var q := CeilDiv(size, blockSize);
    forall k | k in Touched(bytes, blockSize) ensures k in Interval(0, q) {
      var b :| b in bytes && b / blockSize == k;
      assert b in Interval(0, size);
      SliceOf(b, blockSize, k);
      CeilDivIsLeast(size, blockSize, q);
      MulOrder(k, q, blockSize);
      DivMonotone(0, b, blockSize);
    }
    SubsetSize(Touched(bytes, blockSize), Interval(0, q));
  }
}
