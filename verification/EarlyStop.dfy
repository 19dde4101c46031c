/** Stopping early never changes the answer.

    What is lost only ever grows, and the verdict depends on nothing else that moves
    against it: more losses raise the least damage and lower the best-case recovery
    blocks. A post found beyond repair therefore stays so whatever the remaining
    articles answer, and a full check of the same server reports the same status. */
module EarlyStop {
  import opened Arithmetic
  import opened Slices
  import opened NzbFacts
  import opened CheckState
  import opened Accounting

  /** Losing more never turns an unsized article back into a sized one. */
  lemma SizedGrowsSlower(segments: seq<Segment>, a: set<ArticleId>, b: set<ArticleId>)
    requires a <= b
    ensures Tally(Sized, segments, b) - Tally(Sized, segments, a)
         <= Tally(One, segments, b) - Tally(One, segments, a)
  {
    TallySplit(One, segments, b, a);
    TallySplit(Sized, segments, b, a);
    SizedBelow(segments, b - a);
  }

  lemma UnansweredSized(segments: seq<Segment>, gone: set<ArticleId>)
    ensures Total(Sized, segments) - Tally(Sized, segments, gone) <= |segments| - Tally(One, segments, gone)
    ensures Tally(One, segments, gone) <= |segments|
  {
    var all := IdSet(segments);
    TallySame(One, segments, gone, gone * all);
    TallySame(Sized, segments, gone, gone * all);
    SizedGrowsSlower(segments, gone * all, all);
    CountBelow(segments, all);
    CountBelow(segments, gone);
  }

  /** The byte floor of a file rises with its losses, saturated sums included. */
  lemma FloorGrows(
    f: NzbDataFile, g: NzbDataFile, e: FileEntry, gone: set<ArticleId>, more: set<ArticleId>, blockSize: int)
    requires FileAgrees(f, e, gone, blockSize) && FileAgrees(g, e, more, blockSize) && gone <= more
    ensures MinLostBytes(f) <= MinLostBytes(g)
    ensures f.missing <= g.missing
  {
    var segments := Accepted(e.segments);
    TallyMonotone(One, segments, gone, more);
    TallyMonotone(Encoded, segments, gone, more);
    SizedGrowsSlower(segments, gone, more);
    UnansweredSized(segments, gone);
    UnansweredSized(segments, more);
  }

  lemma FileLowGrows(
    f: NzbDataFile, g: NzbDataFile, e: FileEntry, gone: set<ArticleId>, more: set<ArticleId>, blockSize: int)
    requires FileAgrees(f, e, gone, blockSize) && FileAgrees(g, e, more, blockSize) && gone <= more
    ensures FileLow(f, blockSize) <= FileLow(g, blockSize)
  {
    hide MinLostBytes;
    FloorGrows(f, g, e, gone, more, blockSize);
    CeilDivMonotone(MinLostBytes(f), MinLostBytes(g), blockSize);
  }

  lemma LowsGrow(
    files: seq<NzbDataFile>, later: seq<NzbDataFile>, entries: seq<FileEntry>,
    gone: set<ArticleId>, more: set<ArticleId>, blockSize: int)
    requires FilesAgree(files, entries, gone, blockSize) && FilesAgree(later, entries, more, blockSize)
    requires gone <= more
    ensures Sum(Lows(files, blockSize)) <= Sum(Lows(later, blockSize))
    ensures Sum(Losses(files)) <= Sum(Losses(later))
  {
    forall i | 0 <= i < |files|
      ensures Lows(files, blockSize)[i] <= Lows(later, blockSize)[i]
      ensures Losses(files)[i] <= Losses(later)[i]
    {
      FileLowGrows(files[i], later[i], entries[i], gone, more, blockSize);
      FloorGrows(files[i], later[i], entries[i], gone, more, blockSize);
    }
    SumMonotone(Lows(files, blockSize), Lows(later, blockSize));
    SumMonotone(Losses(files), Losses(later));
  }

  lemma BlocksShrink(
    volumes: seq<Par2Volume>, later: seq<Par2Volume>, entries: seq<FileEntry>,
    answered: set<ArticleId>, answered': set<ArticleId>, gone: set<ArticleId>, more: set<ArticleId>)
    requires VolumesAgree(volumes, entries, answered, gone) && VolumesAgree(later, entries, answered', more)
    requires gone <= more
    ensures Sum(BestBlocks(later)) <= Sum(BestBlocks(volumes))
    ensures Sum(GuaranteedBlocks(later)) <= Sum(BestBlocks(later))
    ensures AllBlocks(later) == AllBlocks(volumes) && |later| == |volumes|
  {
    forall i | 0 <= i < |volumes|
      ensures BestBlocks(later)[i] <= BestBlocks(volumes)[i]
      ensures GuaranteedBlocks(later)[i] <= BestBlocks(later)[i]
      ensures AllBlocks(later)[i] == AllBlocks(volumes)[i]
    {
      VolumeShrinks(entries[i], answered, answered', gone, more);
    }
    SumMonotone(BestBlocks(later), BestBlocks(volumes));
    SumMonotone(GuaranteedBlocks(later), BestBlocks(later));
  }

  lemma VolumeShrinks(
    e: FileEntry, answered: set<ArticleId>, answered': set<ArticleId>, gone: set<ArticleId>, more: set<ArticleId>)
    requires gone <= more
    ensures var v, w := VolumeFacts(e, answered, gone), VolumeFacts(e, answered', more);
            && w.blocks == v.blocks >= 0
            && (w.AnythingLeft() ==> v.AnythingLeft())
            && (w.IsIntact() ==> w.AnythingLeft())
  {
    TallyMonotone(One, Accepted(e.segments), gone, more);
  }

  /** Beyond repair, in terms of the sums alone. */
  lemma BeyondRepairMeans(c: Check)
    requires c.counts.missingData == Sum(Losses(c.files))
    requires Sum(GuaranteedBlocks(c.volumes)) <= Sum(BestBlocks(c.volumes))
    ensures BeyondRepair(Verdict(c)) <==>
            && c.counts.missingData > 0
            && (|| c.volumes == [] || TotalRecovery(c.volumes) <= 0 || Sum(BestBlocks(c.volumes)) <= 0
                || (&& c.settings.blockSizeMeasured
                    && c.settings.blockSize > 0
                    && BoundedBlockCount(Max(1, Saturate(Sum(Lows(c.files, c.settings.blockSize)))))
                       > BoundedBlockCount(Sum(BestBlocks(c.volumes)))))
  {
    hide Sum, TotalRecovery, GuaranteedBlocks, BestBlocks, Losses, Lows, Highs, HasIntactIndex;
  }

  lemma SaturateMonotone(a: int, b: int)
    requires a <= b
    ensures BoundedBlockCount(Max(1, Saturate(a))) <= BoundedBlockCount(Max(1, Saturate(b)))
  {
  }

  /** A post found beyond repair stays beyond repair under every further loss, whatever
      was answered since. */
  lemma VerdictIsFinal(
    l: Listing, c: Check, later: Check, answered: set<ArticleId>, answered': set<ArticleId>,
    gone: set<ArticleId>, more: set<ArticleId>)
    requires Accounts(l, c, answered, gone) && Accounts(l, later, answered', more)
    requires gone <= more && c.settings == later.settings
    requires BeyondRepair(Verdict(c))
    ensures BeyondRepair(Verdict(later))
  {
    hide Verdict, FilesAgree, VolumesAgree, IndexAgrees, Sum, Lows, Losses, Highs;
    hide AllBlocks, BestBlocks, GuaranteedBlocks, BoundedBlockCount, BeyondRepair;
    var blockSize := c.settings.blockSize;
    BlocksShrink(c.volumes, c.volumes, l.volumes, answered, answered, gone, gone);
    BlocksShrink(c.volumes, later.volumes, l.volumes, answered, answered', gone, more);
    LowsGrow(c.files, later.files, l.data, gone, more, blockSize);
    BeyondRepairMeans(c);
    BeyondRepairMeans(later);
    SaturateMonotone(Sum(Lows(c.files, blockSize)), Sum(Lows(later.files, blockSize)));
    BoundedMonotone(Sum(BestBlocks(later.volumes)), Sum(BestBlocks(c.volumes)));
  }

  lemma BoundedMonotone(a: int, b: int)
    requires a <= b
    ensures BoundedBlockCount(a) <= BoundedBlockCount(b)
  {
  }

  /** The early stop is only set on a verdict beyond repair, when the PAR2 articles are all
      answered and the user did not ask for everything. */
  ghost predicate StopsOnProof(c: Check) {
    c.earlyStop ==> StopIsDue(c)
  }

  predicate StopIsDue(c: Check) { c.par2PhaseDone && !c.settings.checkFull && BeyondRepair(Verdict(c)) }

  /** Weighing it again sets it exactly then. */
  lemma ReevaluationStopsOnProof(c: Check)
    requires StopsOnProof(c)
    ensures Reevaluated(c).earlyStop <==> StopIsDue(c)
    ensures Reevaluated(c).earlyStop <==> StopIsDue(Reevaluated(c))
  {
    VerdictIgnoresStop(c);
    if BeyondRepair(Verdict(c)) {
      DataIsMissing(c);
    }
    hide Verdict;
  }

  lemma VerdictIgnoresStop(c: Check)
    ensures Verdict(c.(earlyStop := true)) == Verdict(c)
  {
  }

  /** A run that stopped early and any run over the same post that asked about every
      article and found at least the same ones missing end with the same status. */
  lemma StoppingKeepsTheAnswer(
    l: Listing, stopped: Check, full: Check, answered: set<ArticleId>, answered': set<ArticleId>,
    gone: set<ArticleId>, more: set<ArticleId>)
    requires Accounts(l, stopped, answered, gone) && Accounts(l, full, answered', more)
    requires gone <= more && stopped.settings.(checkFull := true) == full.settings.(checkFull := true)
    requires stopped.earlyStop && StopsOnProof(stopped) && !stopped.unusable
    requires full.counts.checked == full.counts.listed && !full.unusable
    ensures Status(stopped) == Status(full) == Unrecoverable
  {
    VerdictIgnoresMode(full, stopped.settings.checkFull);
    hide Verdict, FilesAgree, VolumesAgree, IndexAgrees, Sum, Losses, VolumeLosses, VolumeAnswers;
    var other := full.(settings := full.settings.(checkFull := stopped.settings.checkFull));
    VerdictIsFinal(l, stopped, other, answered, answered', gone, more);
    MissingDataIsMissing(l, stopped, answered, gone);
    MissingDataIsMissing(l, full, answered', more);
    DataIsMissing(stopped);
    DataIsMissing(full);
  }

  lemma VerdictIgnoresMode(c: Check, checkFull: bool)
    ensures Verdict(c.(settings := c.settings.(checkFull := checkFull))) == Verdict(c)
  {
  }

  lemma DataIsMissing(c: Check)
    requires BeyondRepair(Verdict(c))
    ensures c.counts.missingData > 0
  {
  }

  lemma MissingDataIsMissing(l: Listing, c: Check, answered: set<ArticleId>, gone: set<ArticleId>)
    requires Accounts(l, c, answered, gone)
    ensures c.counts.missing >= c.counts.missingData >= 0
  {
    SumNonNegative(VolumeLosses(c.volumes));
    SumNonNegative(Losses(c.files));
  }
}
