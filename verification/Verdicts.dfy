/** What each answer of a check means, read off the document and the replies alone: which
    files are harmed, what can be repaired with what is certainly or possibly left. */
module Verdicts {
  import opened Arithmetic
  import opened Slices
  import opened NzbFacts
  import opened CheckState
  import opened Accounting
  import opened Recovery

  // ---- The PAR2 files ----

  function Blocks(e: FileEntry): int { if e.isVolume then e.blocks else 0 }

  /** Every part it announces is listed, was asked about, and is there. */
  predicate Unharmed(e: FileEntry, answered: set<ArticleId>, gone: set<ArticleId>) {
    e.expected > 0 && Absent(e) == 0 && EntryIds(e) <= answered && EntryIds(e) !! gone
  }

  /** Some part is not listed, or is known to be gone. */
  predicate Harmed(e: FileEntry, gone: set<ArticleId>) { Absent(e) > 0 || !(EntryIds(e) !! gone) }

  /** The blocks that are certainly left, and those that may be. */
  function Safe(entries: seq<FileEntry>, answered: set<ArticleId>, gone: set<ArticleId>): seq<int> {
    seq(|entries|, i requires 0 <= i < |entries| => if Unharmed(entries[i], answered, gone) then Blocks(entries[i]) else 0)
  }

  function Possible(entries: seq<FileEntry>, gone: set<ArticleId>): seq<int> {
    seq(|entries|, i requires 0 <= i < |entries| => if EntryIds(entries[i]) <= gone then 0 else Blocks(entries[i]))
  }

  lemma VolumeMeans(e: FileEntry, answered: set<ArticleId>, gone: set<ArticleId>)
    ensures var v := VolumeFacts(e, answered, gone);
            && (v.IsIntact() <==> Unharmed(e, answered, gone)) && (v.AnythingLeft() <==> !(EntryIds(e) <= gone))
            && v.blocks == Blocks(e) && v.isVolume == e.isVolume
  {
    var segments := Accepted(e.segments);
    CountBelow(segments, answered);
    CountBelow(segments, gone);
    assert EntryIds(e) <= answered <==> forall s | s in segments :: s.id in answered;
    assert EntryIds(e) <= gone <==> forall s | s in segments :: s.id in gone;
    assert EntryIds(e) !! gone <==> forall s | s in segments :: s.id !in gone;
  }

  lemma VolumesMean(
    volumes: seq<Par2Volume>, entries: seq<FileEntry>, answered: set<ArticleId>, gone: set<ArticleId>)
    requires VolumesAgree(volumes, entries, answered, gone)
    ensures GuaranteedBlocks(volumes) == Safe(entries, answered, gone)
    ensures BestBlocks(volumes) == Possible(entries, gone)
    ensures |volumes| == |entries| && forall i | 0 <= i < |entries| :: AllBlocks(volumes)[i] == Blocks(entries[i])
    ensures HasIntactIndex(volumes) <==> IndexIsThere(entries, answered, gone)
    ensures Sum(Safe(entries, answered, gone)) <= Sum(Possible(entries, gone))
  {
    hide VolumeFacts, Unharmed, EntryIds;
    forall i | 0 <= i < |entries|
      ensures GuaranteedBlocks(volumes)[i] == Safe(entries, answered, gone)[i]
      ensures BestBlocks(volumes)[i] == Possible(entries, gone)[i]
      ensures AllBlocks(volumes)[i] == Blocks(entries[i])
      ensures !volumes[i].isVolume && volumes[i].IsIntact() <==> !entries[i].isVolume && Unharmed(entries[i], answered, gone)
      ensures Safe(entries, answered, gone)[i] <= Possible(entries, gone)[i]
    {
      VolumeMeans(entries[i], answered, gone);
      UnharmedIsLeft(entries[i], answered, gone);
    }
    SumMonotone(Safe(entries, answered, gone), Possible(entries, gone));
    forall v | v in volumes && !v.isVolume && v.IsIntact() ensures IndexIsThere(entries, answered, gone) {
      var i :| 0 <= i < |volumes| && volumes[i] == v;
      assert entries[i] in entries;
    }
    forall e | e in entries && !e.isVolume && Unharmed(e, answered, gone) ensures HasIntactIndex(volumes) {
      var i :| 0 <= i < |entries| && entries[i] == e;
      assert volumes[i] in volumes;
    }
  }

  lemma UnharmedIsLeft(e: FileEntry, answered: set<ArticleId>, gone: set<ArticleId>)
    ensures Unharmed(e, answered, gone) ==> !(EntryIds(e) <= gone)
  {
    if Unharmed(e, answered, gone) {
      assert Accepted(e.segments)[0].id in EntryIds(e);
    }
  }

  /** A base file, which by convention carries what a repair cannot do without, is there. */
  predicate IndexIsThere(entries: seq<FileEntry>, answered: set<ArticleId>, gone: set<ArticleId>) {
    exists e :: e in entries && !e.isVolume && Unharmed(e, answered, gone)
  }

  // ---- The data files ----

  predicate Measurable(e: FileEntry) { e.size > 0 && e.expected > 0 }

  /** The bytes that cannot fit in the articles not known to be gone. */
  function Unplaced(e: FileEntry, gone: set<ArticleId>): int {
    var segments := Accepted(e.segments);
    if BoundsConsistent(e) && PresentSized(e, gone) then
      e.size - Max(0, Saturate(Total(Encoded, segments)) - Saturate(Tally(Encoded, segments, gone)))
    else
      1
  }

  /** The losses are all of known size. */
  predicate LossesSized(e: FileEntry, gone: set<ArticleId>) {
    && BoundsConsistent(e) && Absent(e) == 0
    && forall s | s in Accepted(e.segments) && s.id in gone :: s.bytes > 0
  }

  /** The fewest slices the losses of a file damage, and the most. */
  function Fewest(e: FileEntry, gone: set<ArticleId>, blockSize: int): int {
    if !Harmed(e, gone) then 0
    else if Measurable(e) then Max(1, CeilDiv(Unplaced(e, gone), blockSize))
    else 1
  }

  function Most(e: FileEntry, gone: set<ArticleId>, blockSize: int): int {
    if !Harmed(e, gone) || !Measurable(e) then 0
    else
      var slices := CeilDiv(e.size, blockSize);
      var touched := Saturate(Tally(Spread(blockSize), Accepted(e.segments), gone));
      Max(Fewest(e, gone, blockSize), if LossesSized(e, gone) then Min(slices, touched) else slices)
  }

  function Fewests(entries: seq<FileEntry>, gone: set<ArticleId>, blockSize: int): seq<int> {
    seq(|entries|, i requires 0 <= i < |entries| => Fewest(entries[i], gone, blockSize))
  }

  function Mosts(entries: seq<FileEntry>, gone: set<ArticleId>, blockSize: int): seq<int> {
    seq(|entries|, i requires 0 <= i < |entries| => Most(entries[i], gone, blockSize))
  }

  lemma HarmMeans(e: FileEntry, gone: set<ArticleId>)
    ensures 0 <= MissingParts(e, gone) && (MissingParts(e, gone) > 0 <==> Harmed(e, gone))
  {
    CountBelow(Accepted(e.segments), gone);
  }

  lemma LossesAreSized(f: NzbDataFile, e: FileEntry, gone: set<ArticleId>, blockSize: int)
    requires FileAgrees(f, e, gone, blockSize)
    ensures f.boundsConsistent && EveryLossSized(f) <==> LossesSized(e, gone)
  {
    SizedBelow(Accepted(e.segments), gone);
  }

  /** The bounds the check has for a file are those the document gives. */
  lemma FileMeans(f: NzbDataFile, e: FileEntry, gone: set<ArticleId>, blockSize: int)
    requires FileAgrees(f, e, gone, blockSize) && Distinct(Accepted(e.segments)) && blockSize > 0
    ensures 0 <= f.missing && (f.missing > 0 <==> Harmed(e, gone)) && (HasExtent(f) <==> Measurable(e))
    ensures FileLow(f, blockSize) == Fewest(e, gone, blockSize)
    ensures FileHigh(f, blockSize) == Most(e, gone, blockSize)
  {
    hide Accepted, Distinct, BoundsConsistent, PresentSized, Harmed, LossesSized, EveryLossSized;
    HarmMeans(e, gone);
    FloorFacts(f, e, gone, blockSize);
    FloorIsUsedIff(f, e, gone, blockSize);
    LossesAreSized(f, e, gone, blockSize);
    CountBelow(Accepted(e.segments), gone);
    CeilDivNeverMore(Unplaced(e, gone), blockSize);
  }

  lemma CeilDivNeverMore(n: int, blockSize: int)
    requires blockSize > 0
    ensures Max(1, CeilDiv(Max(1, n), blockSize)) == Max(1, CeilDiv(n, blockSize))
  {
    CeilDivIsLeast(1, blockSize, 1);
    CeilDivIsLeast(n, blockSize, 1);
  }

  lemma FilesMean(files: seq<NzbDataFile>, entries: seq<FileEntry>, gone: set<ArticleId>, blockSize: int)
    requires FilesAgree(files, entries, gone, blockSize) && DistinctEntries(entries) && blockSize > 0
    ensures Lows(files, blockSize) == Fewests(entries, gone, blockSize)
    ensures Highs(files, blockSize) == Mosts(entries, gone, blockSize)
    ensures (forall f | f in files && f.missing > 0 :: HasExtent(f))
       <==> (forall e | e in entries && Harmed(e, gone) :: Measurable(e))
  {
    hide FileAgrees, Distinct, Harmed, HasExtent, Measurable, Fewest, Most, FileLow, FileHigh, EntryIds;
    forall i | 0 <= i < |entries|
      ensures FileLow(files[i], blockSize) == Fewest(entries[i], gone, blockSize)
      ensures FileHigh(files[i], blockSize) == Most(entries[i], gone, blockSize)
      ensures (files[i].missing > 0 <==> Harmed(entries[i], gone)) && (HasExtent(files[i]) <==> Measurable(entries[i]))
    {
      FileMeans(files[i], entries[i], gone, blockSize);
    }
  }

  // ---- The verdict ----

  predicate DataIsLost(l: Listing, gone: set<ArticleId>) { exists e :: e in l.data && Harmed(e, gone) }

  /** Counts are compared as the ints they are reported as. */
  function AsInt(n: int): int { Min(n, INT32_MAX) }

  /** The worst that the losses can have damaged fits in the blocks that are certainly
      left. */
  predicate Covered(l: Listing, s: Settings, answered: set<ArticleId>, gone: set<ArticleId>) {
    && s.blockSizeMeasured && s.blockSize > 0
    && (forall e | e in l.data && Harmed(e, gone) :: Measurable(e))
    && AsInt(Sum(Mosts(l.data, gone, s.blockSize))) <= AsInt(Sum(Safe(l.volumes, answered, gone)))
  }

  /** The least they must have damaged exceeds the blocks that may be left. */
  predicate Exceeded(l: Listing, s: Settings, gone: set<ArticleId>) {
    && s.blockSizeMeasured && s.blockSize > 0 && Sum(Possible(l.volumes, gone)) > 0
    && AsInt(Sum(Fewests(l.data, gone, s.blockSize))) > AsInt(Sum(Possible(l.volumes, gone)))
  }

  /** The answer, outcome by outcome. */
  ghost predicate AnswerIs(v: CheckState.Recovery, l: Listing, s: Settings, answered: set<ArticleId>, gone: set<ArticleId>) {
    && (v.NotNeeded? <==> !DataIsLost(l, gone))
    && (v.NoPar2AtAll? <==> DataIsLost(l, gone) && l.volumes == [])
    && (v.NoRecoveryBlocks? <==>
          DataIsLost(l, gone) && l.volumes != [] && forall e | e in l.volumes :: Blocks(e) == 0)
    && (v.NoUsableBlocks? <==>
          && DataIsLost(l, gone) && (exists e :: e in l.volumes && Blocks(e) > 0)
          && forall e | e in l.volumes && Blocks(e) > 0 :: EntryIds(e) <= gone)
    && (v.ProbablyRecoverable? <==>
          DataIsLost(l, gone) && Covered(l, s, answered, gone) && IndexIsThere(l.volumes, answered, gone))
    && (v.Impossible? <==> DataIsLost(l, gone) && Exceeded(l, s, gone))
  }

  lemma LossIsCounted(l: Listing, files: seq<NzbDataFile>, gone: set<ArticleId>, blockSize: int)
    requires FilesAgree(files, l.data, gone, blockSize)
    ensures Sum(Losses(files)) >= 0 && (Sum(Losses(files)) > 0 <==> DataIsLost(l, gone))
  {
    hide FileAgrees, Harmed;
    forall i | 0 <= i < |files|
      ensures 0 <= files[i].missing && (files[i].missing > 0 <==> Harmed(l.data[i], gone))
    {
      FloorFacts(files[i], l.data[i], gone, blockSize);
      HarmMeans(l.data[i], gone);
    }
    SumNonNegative(Losses(files));
    if Sum(Losses(files)) > 0 {
      var i := PositiveTerm(Losses(files));
      assert l.data[i] in l.data;
    }
    forall e | e in l.data && Harmed(e, gone) ensures Sum(Losses(files)) > 0 {
      var i :| 0 <= i < |l.data| && l.data[i] == e;
      assert Losses(files)[i] > 0;
    }
  }

  lemma SumIsPositiveIff(ns: seq<int>)
    requires forall i | 0 <= i < |ns| :: ns[i] >= 0
    ensures Sum(ns) >= 0 && (Sum(ns) > 0 <==> exists n :: n in ns && n > 0)
  {
    SumNonNegative(ns);
    if Sum(ns) > 0 {
      var i := PositiveTerm(ns);
      assert ns[i] in ns;
    }
  }

  lemma BlocksAreLeftIff(entries: seq<FileEntry>, all: seq<int>, gone: set<ArticleId>)
    requires |all| == |entries| && forall i | 0 <= i < |entries| :: all[i] == Blocks(entries[i])
    ensures Sum(all) > 0 <==> exists e :: e in entries && Blocks(e) > 0
    ensures Sum(Possible(entries, gone)) >= 0
    ensures Sum(Possible(entries, gone)) > 0 <==> exists e :: e in entries && Blocks(e) > 0 && !(EntryIds(e) <= gone)
  {
    hide EntryIds;
    var possible := Possible(entries, gone);
    SumIsPositiveIff(all);
    SumIsPositiveIff(possible);
    forall e | e in entries && Blocks(e) > 0 ensures Sum(all) > 0 && (!(EntryIds(e) <= gone) ==> Sum(possible) > 0) {
      var i :| 0 <= i < |entries| && entries[i] == e;
      assert all[i] in all && possible[i] in possible;
    }
    if n :| n in all && n > 0 {
      var i :| 0 <= i < |all| && all[i] == n;
      assert entries[i] in entries;
    }
    if n :| n in possible && n > 0 {
      var i :| 0 <= i < |possible| && possible[i] == n;
      assert entries[i] in entries;
    }
  }

  /** The verdict from sums alone. */
  lemma VerdictOfSums(c: Check, lows: int, highs: int, safe: int, possible: int, all: int)
    requires lows == Sum(Lows(c.files, c.settings.blockSize)) && highs == Sum(Highs(c.files, c.settings.blockSize))
    requires safe == Sum(GuaranteedBlocks(c.volumes)) && possible == Sum(BestBlocks(c.volumes))
    requires all == Sum(AllBlocks(c.volumes)) && 0 <= safe <= possible <= all
    requires c.counts.missingData == Sum(Losses(c.files))
    requires c.counts.missingData > 0 && c.settings.blockSize > 0 ==> lows >= 1
    requires c.counts.missingData > 0 && c.settings.blockSize > 0 && UpperBounded(c.files, c.counts.missingData) ==> lows <= highs
    ensures var v, s := Verdict(c), c.settings;
            var lost := c.counts.missingData > 0;
            && (v.NotNeeded? <==> !lost)
            && (v.NoPar2AtAll? <==> lost && c.volumes == [])
            && (v.NoRecoveryBlocks? <==> lost && c.volumes != [] && all <= 0)
            && (v.NoUsableBlocks? <==> lost && c.volumes != [] && all > 0 && possible <= 0)
            && (v.ProbablyRecoverable? <==>
                  && lost && c.volumes != [] && s.blockSizeMeasured && s.blockSize > 0
                  && UpperBounded(c.files, c.counts.missingData) && AsInt(highs) <= AsInt(safe) && HasIntactIndex(c.volumes))
            && (v.Impossible? <==>
                  && lost && c.volumes != [] && possible > 0 && s.blockSizeMeasured && s.blockSize > 0
                  && AsInt(lows) > AsInt(possible))
  {
    hide Sum, Lows, Highs, GuaranteedBlocks, BestBlocks, AllBlocks, Losses, UpperBounded, HasIntactIndex;
  }

  lemma SumsAreOrdered(
    l: Listing, c: Check, answered: set<ArticleId>, gone: set<ArticleId>)
    requires VolumesAgree(c.volumes, l.volumes, answered, gone)
    ensures 0 <= Sum(GuaranteedBlocks(c.volumes)) <= Sum(BestBlocks(c.volumes)) <= Sum(AllBlocks(c.volumes))
  {
    hide VolumeFacts;
    VolumesMean(c.volumes, l.volumes, answered, gone);
    SumNonNegative(GuaranteedBlocks(c.volumes));
    SumMonotone(BestBlocks(c.volumes), AllBlocks(c.volumes));
  }

  lemma DamageIsOrdered(l: Listing, gone: set<ArticleId>, blockSize: int)
    requires blockSize > 0 && DataIsLost(l, gone)
    ensures Sum(Fewests(l.data, gone, blockSize)) >= 1
    ensures (forall e | e in l.data && Harmed(e, gone) :: Measurable(e)) ==>
              Sum(Fewests(l.data, gone, blockSize)) <= Sum(Mosts(l.data, gone, blockSize))
  {
    hide Harmed, Unplaced, LossesSized;
    var fewests, mosts := Fewests(l.data, gone, blockSize), Mosts(l.data, gone, blockSize);
    var e :| e in l.data && Harmed(e, gone);
    var i :| 0 <= i < |l.data| && l.data[i] == e;
    SumNonNegative(fewests);
    assert fewests[i] >= 1;
    if forall e | e in l.data && Harmed(e, gone) :: Measurable(e) {
      forall k | 0 <= k < |l.data| ensures fewests[k] <= mosts[k] {
        assert l.data[k] in l.data;
      }
      SumMonotone(fewests, mosts);
    }
  }

  /** Whatever the check has counted, its verdict is the answer that the document and the
      replies call for. */
  lemma VerdictIs(l: Listing, c: Check, answered: set<ArticleId>, gone: set<ArticleId>)
    requires DistinctIds(l) && Accounts(l, c, answered, gone)
    ensures AnswerIs(Verdict(c), l, c.settings, answered, gone)
  {
    hide DistinctIds, FilesAgree, VolumesAgree, IndexAgrees, Verdict, Harmed, Fewests, Mosts, Safe, Possible;
    hide DataIsLost, IndexIsThere, HasIntactIndex, EntryIds, Blocks, Sum, AllBlocks, GuaranteedBlocks, BestBlocks, HasExtent;
    hide Measurable, Losses, Lows, Highs;
    var blockSize := c.settings.blockSize;
    assert DistinctEntries(l.data) by { DataIsDistinct(l); }
    LossIsCounted(l, c.files, gone, blockSize);
    VolumesMean(c.volumes, l.volumes, answered, gone);
    SumsAreOrdered(l, c, answered, gone);
    BlocksAreLeftIff(l.volumes, AllBlocks(c.volumes), gone);
    BlocksAreNatural(l.volumes);
    if blockSize > 0 {
      FilesMean(c.files, l.data, gone, blockSize);
      if c.counts.missingData > 0 {
        DamageIsOrdered(l, gone, blockSize);
      }
    }
    VerdictOfSums(c, Sum(Lows(c.files, blockSize)), Sum(Highs(c.files, blockSize)),
                  Sum(GuaranteedBlocks(c.volumes)), Sum(BestBlocks(c.volumes)), Sum(AllBlocks(c.volumes)));
  }

  /** The ranges a check reports: of the slices damaged, open above when a harmed file is of
      unknown extent or the slice size is unknown, and of the blocks left. */
  lemma RangesAre(l: Listing, c: Check, answered: set<ArticleId>, gone: set<ArticleId>)
    requires DistinctIds(l) && Accounts(l, c, answered, gone)
    ensures var blockSize := c.settings.blockSize;
            DamagedRange(c.files, blockSize, c.counts.missingData)
            == if !DataIsLost(l, gone) then BlockRange(0, 0)
               else if blockSize <= 0 then BlockRange(1, -1)
               else BlockRange(AsInt(Sum(Fewests(l.data, gone, blockSize))),
                               if forall e | e in l.data && Harmed(e, gone) :: Measurable(e)
                               then AsInt(Sum(Mosts(l.data, gone, blockSize))) else -1)
    ensures UsableRange(c.volumes)
         == BlockRange(AsInt(Sum(Safe(l.volumes, answered, gone))), AsInt(Sum(Possible(l.volumes, gone))))
    ensures TotalRecovery(c.volumes) == AsInt(Sum(AllBlocks(c.volumes)))
  {
    hide DistinctIds, FilesAgree, VolumesAgree, IndexAgrees, Harmed, Fewests, Mosts, Safe, Possible;
    hide DataIsLost, EntryIds, Blocks, Sum, AllBlocks, GuaranteedBlocks, BestBlocks, HasExtent;
    hide Measurable, Losses, Lows, Highs;
    var blockSize := c.settings.blockSize;
    assert DistinctEntries(l.data) by { DataIsDistinct(l); }
    LossIsCounted(l, c.files, gone, blockSize);
    VolumesMean(c.volumes, l.volumes, answered, gone);
    SumsAreOrdered(l, c, answered, gone);
    if blockSize > 0 {
      FilesMean(c.files, l.data, gone, blockSize);
      if c.counts.missingData > 0 {
        DamageIsOrdered(l, gone, blockSize);
      }
    }
  }

  lemma DataIsDistinct(l: Listing)
    requires DistinctIds(l)
    ensures DistinctEntries(l.data)
  {
  }

  lemma BlocksAreNatural(entries: seq<FileEntry>)
    ensures forall e | e in entries :: Blocks(e) >= 0
  {
  }

  /** No larger number of blocks would be certain: if nothing but what the server confirmed
      is there, exactly these packets may be all that survives. */
  lemma SafeIsReached(entries: seq<FileEntry>, answered: set<ArticleId>, gone: set<ArticleId>, lost: set<ArticleId>)
    requires gone <= lost && forall e, id | e in entries && id in EntryIds(e) :: id in lost <==> id in gone || id !in answered
    ensures forall i | 0 <= i < |entries| :: Survives(Safe(entries, answered, gone)[i], entries[i], lost)
  {
    hide EntryIds;
    forall i | 0 <= i < |entries| ensures Survives(Safe(entries, answered, gone)[i], entries[i], lost) {
      var e := entries[i];
      assert e in entries;
      UnharmedIsLeft(e, answered, gone);
    }
  }

  /** A file listed whole, with a size for every article, is taken at its word if and only
      if its articles together can hold it; any other file is. */
  lemma TakenAtItsWordIff(e: FileEntry)
    ensures BoundsConsistent(e) <==>
              || e.expected == 0 || Absent(e) > 0 || (exists s :: s in Accepted(e.segments) && s.bytes <= 0)
              || e.size <= Min(INT64_MAX, AllBytes(Accepted(e.segments)))
  {
    var segments := Accepted(e.segments);
    CountBelow(segments, IdSet(segments));
    SizedBelow(segments, IdSet(segments));
    TotalIsAllBytes(segments, IdSet(segments));
  }

  /** Their sizes as announced, added up. */
  function AllBytes(segments: seq<Segment>): int {
    if segments == [] then 0 else AllBytes(segments[..|segments| - 1]) + Max(0, segments[|segments| - 1].bytes)
  }

  lemma {:induction false} TotalIsAllBytes(segments: seq<Segment>, ids: set<ArticleId>)
    requires forall s | s in segments :: s.id in ids
    ensures Tally(Encoded, segments, ids) == AllBytes(segments)
  {
    if segments != [] {
      var init, last := segments[..|segments| - 1], segments[|segments| - 1];
      assert segments == init + [last];
      TotalIsAllBytes(init, ids);
    }
  }

  /** The loss of an article of no file is counted, as a slice at least and with no bound:
      it rules the favourable verdict out. */
  lemma UnknownLossHasNoBound(c: Check, id: ArticleId)
    requires OwnersInRange(c) && id !in c.index.owner && c.counts.missingData == Sum(Losses(c.files)) >= 0
    ensures var d := CountMissing(c, id);
            && d.counts.missing == c.counts.missing + 1 && d.counts.missingData == c.counts.missingData + 1
            && d.counts.missingPar2 == c.counts.missingPar2 && d.files == c.files && d.volumes == c.volumes
            && DamagedRange(d.files, d.settings.blockSize, d.counts.missingData).high == -1
            && DamagedRange(d.files, d.settings.blockSize, d.counts.missingData).low >= 1
            && Verdict(d) != ProbablyRecoverable && Verdict(d) != NotNeeded
  {
    hide OwnersInRange, Sum;
  }
}
