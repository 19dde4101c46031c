/** The figures a check reports beside its verdict stay within what it has proved. */
module Estimates {
  import opened Arithmetic
  import opened Slices
  import opened NzbFacts
  import opened CheckState
  import opened Accounting
  import opened Recovery

  lemma ShareIsPart(blocks: int, confirmed: int, expected: int)
    requires 0 <= blocks && 0 <= confirmed <= expected && expected > 0
    ensures (blocks * confirmed) / expected <= blocks
  {
    var q := (blocks * confirmed) / expected;
    assert q * expected <= blocks * confirmed;
    Products(blocks, confirmed, expected);
    MulOrder(q, blocks, expected);
  }

  lemma Products(a: int, b: int, c: int)
    requires a >= 0 && b <= c
    ensures a * b <= a * c
  {
    if a > 0 {
      MulOrder(b, c, a);
    }
  }

  lemma VolumeIsBetween(e: FileEntry, answered: set<ArticleId>, gone: set<ArticleId>)
    ensures var v := VolumeFacts(e, answered, gone);
            (if v.IsIntact() then v.blocks else 0) <= UsableBlocks(v) <= (if v.AnythingLeft() then v.blocks else 0)
  {
    var v := VolumeFacts(e, answered, gone);
    CountBelow(Accepted(e.segments), answered);
    CountBelow(Accepted(e.segments), gone);
    var confirmed := Min(v.expected, v.checked - v.missingListed);
    if v.expected > 0 && confirmed > 0 {
      ShareIsPart(v.blocks, confirmed, v.expected);
    }
  }

  /** The likely number of usable blocks never leaves the proved range. */
  lemma LikelyIsBetween(
    volumes: seq<Par2Volume>, entries: seq<FileEntry>, answered: set<ArticleId>, gone: set<ArticleId>)
    requires VolumesAgree(volumes, entries, answered, gone)
    ensures Sum(GuaranteedBlocks(volumes)) <= Sum(LikelyBlocks(volumes)) <= Sum(BestBlocks(volumes))
  {
    hide UsableBlocks, VolumeFacts;
    forall i | 0 <= i < |volumes|
      ensures GuaranteedBlocks(volumes)[i] <= LikelyBlocks(volumes)[i] <= BestBlocks(volumes)[i]
    {
      VolumeIsBetween(entries[i], answered, gone);
    }
    SumMonotone(GuaranteedBlocks(volumes), LikelyBlocks(volumes));
    SumMonotone(LikelyBlocks(volumes), BestBlocks(volumes));
  }

  lemma FileFits(f: NzbDataFile, blockSize: int)
    requires blockSize > 0
    ensures HasExtent(f) ==> FileHigh(f, blockSize) <= CeilDiv(f.size, blockSize)
    ensures !HasExtent(f) ==> FileHigh(f, blockSize) == 0
  {
    if HasExtent(f) {
      CeilDivMonotone(MinLostBytes(f), f.size, blockSize);
      CeilDivMonotone(1, f.size, blockSize);
    }
  }

  /** A bounded damage is at least one slice and never more than the post has. */
  lemma DamageFitsInPost(files: seq<NzbDataFile>, blockSize: int, missing: int)
    requires missing > 0 && blockSize > 0 && UpperBounded(files, missing)
    ensures 1 <= DamageHigh(files, blockSize, missing) <= Saturate(Sum(SliceCounts(files, blockSize)))
    ensures TotalDataBlocks(files, blockSize, true) > 0
  {
    hide FileLow, FileHigh, HasExtent;
    forall i | 0 <= i < |files|
      ensures Lows(files, blockSize)[i] <= Highs(files, blockSize)[i] <= SliceCounts(files, blockSize)[i]
    {
      assert files[i] in files;
      FileFits(files[i], blockSize);
      LowBelowHigh(files[i], blockSize);
    }
    SumMonotone(Lows(files, blockSize), Highs(files, blockSize));
    SumMonotone(Highs(files, blockSize), SliceCounts(files, blockSize));
    var i := PositiveTerm(Losses(files));
    LowBelowHigh(files[i], blockSize);
    SumNonNegative(Lows(files, blockSize));
  }

  lemma LowBelowHigh(f: NzbDataFile, blockSize: int)
    ensures f.missing > 0 ==> FileLow(f, blockSize) >= 1
    ensures f.missing > 0 && HasExtent(f) ==> FileLow(f, blockSize) <= FileHigh(f, blockSize)
    ensures f.missing <= 0 ==> FileLow(f, blockSize) == 0 == FileHigh(f, blockSize)
    ensures CeilDiv(f.size, blockSize) >= 0
  {
  }

  /** The share of a damaged volume is what the articles confirmed to be there are worth,
      rounded down, less one packet for each article missing from it. */
  lemma LikelyIsShare(e: FileEntry, answered: set<ArticleId>, gone: set<ArticleId>)
    requires e.isVolume && e.expected > 0 && gone <= answered && Distinct(Accepted(e.segments))
    ensures var v, u := VolumeFacts(e, answered, gone), UsableBlocks(VolumeFacts(e, answered, gone));
            var confirmed := Min(e.expected, Tally(One, Accepted(e.segments), answered - gone));
            && (v.IsIntact() ==> u == e.blocks)
            && (!v.IsIntact() && u > 0 ==>
                  (u + v.missing) * e.expected <= e.blocks * confirmed < (u + v.missing) * e.expected + e.expected)
            && (!v.IsIntact() && u == 0 ==> e.blocks * confirmed < v.missing * e.expected + e.expected)
            && u >= 0
  {
    var v := VolumeFacts(e, answered, gone);
    TallySplit(One, Accepted(e.segments), answered, gone);
    var confirmed := Min(e.expected, Tally(One, Accepted(e.segments), answered - gone));
    assert confirmed == Min(v.expected, v.checked - v.missingListed);
    CountBelow(Accepted(e.segments), gone);
    assert v.missing >= 0 && confirmed >= 0;
    hide Tally, Accepted, Distinct;
    ShareIs(e.blocks, confirmed, e.expected, v.missing);
  }

  lemma ShareIs(blocks: nat, confirmed: nat, expected: nat, missing: nat)
    requires expected > 0
    ensures var u := if blocks == 0 || confirmed == 0 then 0 else Max(0, (blocks * confirmed) / expected - missing);
            if u > 0 then (u + missing) * expected <= blocks * confirmed < (u + missing) * expected + expected
            else blocks * confirmed < missing * expected + expected
  {
    var share := (blocks * confirmed) / expected;
    QuotientIs(blocks * confirmed, expected);
    MulOrder(share, missing, expected);
    MulOrder(0, missing + 1, expected);
    MulSum(missing, 1, 0, expected);
  }

  lemma QuotientIs(a: int, b: int)
    requires b > 0
    ensures (a / b) * b <= a < (a / b) * b + b
  {
  }

  /** A file has as many source slices as its bytes touch. */
  lemma AllBytesTouch(size: nat, blockSize: int)
    requires blockSize > 0
    ensures |Touched(Interval(0, size), blockSize)| == CeilDiv(size, blockSize)
  {
    TouchedWithinFile(Interval(0, size), size, blockSize);
    BytesFitTheirSlices(Interval(0, size), blockSize);
  }

  /** The slices that all the bytes of these files touch, each file on its own. */
  function TouchedInAll(files: seq<NzbDataFile>, blockSize: int): seq<int>
    requires blockSize > 0
  {
    seq(|files|, i requires 0 <= i < |files| => |Touched(Interval(0, Max(0, files[i].size)), blockSize)|)
  }

  /** The slices of the post are those its bytes lie in, counted file by file. */
  lemma PostHasItsSlices(files: seq<NzbDataFile>, blockSize: int)
    requires blockSize > 0
    ensures var slices := Sum(TouchedInAll(files, blockSize));
            TotalDataBlocks(files, blockSize, true) == if slices > 0 then Min(slices, INT64_MAX) else -1
    ensures TotalDataBlocks(files, blockSize, false) == -1
  {
    forall i | 0 <= i < |files|
      ensures SliceCounts(files, blockSize)[i] == TouchedInAll(files, blockSize)[i]
    {
      AllBytesTouch(Max(0, files[i].size), blockSize);
    }
    assert SliceCounts(files, blockSize) == TouchedInAll(files, blockSize);
  }
}
