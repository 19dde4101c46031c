/** The check object itself: its fields, and the methods that loop over and update them
    (src/NzbCheck.h, src/NzbCheck.cpp), each proved against the value it stands for. */
module NzbChecking {
  import opened Options
  import opened Arithmetic
  import opened Slices
  import opened NzbFacts
  import opened CheckState

  lemma SumStep(ns: seq<int>, i: nat)
    requires i < |ns| && forall k | 0 <= k < |ns| :: ns[k] >= 0
    ensures Sum(ns[..i + 1]) == Sum(ns[..i]) + ns[i]
    ensures Sum(ns[..i]) >= 0
    ensures SaturatedAdd(Saturate(Sum(ns[..i])), ns[i]) == Saturate(Sum(ns[..i + 1]))
    ensures SaturatedAdd(Saturate(Sum(ns[..i])), Saturate(ns[i])) == Saturate(Sum(ns[..i + 1]))
  {
    SumPrefix(ns, i);
    SumNonNegative(ns[..i]);
  }

  lemma SmallNeverCut(n: int)
    requires n <= INT64_MAX
    ensures Saturate(n) == n
  {
  }

  lemma SumWhole(ns: seq<int>)
    ensures Sum(ns[..|ns|]) == Sum(ns)
  {
    assert ns[..|ns|] == ns;
  }

  lemma UsableIsNatural(volumes: seq<Par2Volume>)
    ensures forall i | 0 <= i < |volumes| :: LikelyBlocks(volumes)[i] >= 0
  {
  }

  /** Every size kept for a lost article is a positive number. */
  predicate SizesPositive(f: NzbDataFile) {
    forall i | 0 <= i < |f.missingBytesUpper| :: f.missingBytesUpper[i] > 0
  }

  method MissingBytes(f: NzbDataFile) returns (bytes: int)
    requires SizesPositive(f)
    ensures bytes == Saturate(Sum(f.missingBytesUpper))
  {
    bytes := 0;
    for i := 0 to |f.missingBytesUpper|
      invariant bytes == Saturate(Sum(f.missingBytesUpper[..i]))
    {
      SumStep(f.missingBytesUpper, i);
      bytes := SaturatedAdd(bytes, f.missingBytesUpper[i]);
    }
    SumWhole(f.missingBytesUpper);
  }

  method ScatteredBlocks(f: NzbDataFile, blockSize: int) returns (scattered: int)
    ensures scattered == Saturate(Sum(TouchedBounds(f.missingBytesUpper, blockSize)))
  {
    ghost var bounds := TouchedBounds(f.missingBytesUpper, blockSize);
    scattered := 0;
    for i := 0 to |f.missingBytesUpper|
      invariant scattered == Saturate(Sum(bounds[..i]))
    {
      SumStep(bounds, i);
      scattered := SaturatedAdd(scattered, MaxBlocksTouched(f.missingBytesUpper[i], blockSize));
    }
    SumWhole(bounds);
  }

  /** The least and most slices that the losses of one file damage. */
  method FileDamage(f: NzbDataFile, blockSize: int) returns (fileMin: int, fileMax: int)
    requires f.missing > 0 && HasExtent(f) && SizesPositive(f)
    ensures fileMin == FileLow(f, blockSize) && Max(fileMin, fileMax) == FileHigh(f, blockSize)
  {
    var missingListedBytesUpper := MissingBytes(f);
    var minBytes := 1;
    var possiblePresent := f.listed - f.missingListed;
    var possiblePresentWithBytes := f.listedWithBytes - f.missingListedWithBytes;
    if f.boundsConsistent && possiblePresent >= 0 && possiblePresentWithBytes == possiblePresent {
      var possiblePresentBytes :=
        if f.listedBytesUpper >= missingListedBytesUpper then f.listedBytesUpper - missingListedBytesUpper else 0;
      if possiblePresentBytes < f.size {
        minBytes := f.size - possiblePresentBytes;
      }
    }
    fileMin := Max(1, CeilDiv(minBytes, blockSize));
    var fileBlocks := CeilDiv(f.size, blockSize);
    fileMax := fileBlocks;
    if f.boundsConsistent && f.missingListed == f.missing && f.missingListedWithBytes == f.missingListed {
      var scattered := ScatteredBlocks(f, blockSize);
      fileMax := Min(fileBlocks, scattered);
    }
  }

  method DamageOf(file: NzbDataFile, blockSize: int) returns (low: int, high: int, lost: int, bounded: bool)
    requires SizesPositive(file)
    ensures low == FileLow(file, blockSize) && high == FileHigh(file, blockSize)
    ensures lost == Max(0, file.missing) && (bounded <==> file.missing > 0 ==> HasExtent(file))
  {
    if file.missing <= 0 {
      return 0, 0, 0, true;
    }
    if file.size <= 0 || file.expected <= 0 {
      return 1, 0, file.missing, false;
    }
    var fileMin, fileMax := FileDamage(file, blockSize);
    return fileMin, Max(fileMin, fileMax), file.missing, true;
  }

  predicate Bounded(files: seq<NzbDataFile>) {
    forall f | f in files && f.missing > 0 :: HasExtent(f)
  }

  lemma BoundedStep(files: seq<NzbDataFile>, i: nat)
    requires i < |files|
    ensures Bounded(files[..i + 1]) <==> Bounded(files[..i]) && (files[i].missing > 0 ==> HasExtent(files[i]))
  {
  }

  lemma EmptyIsBounded()
    ensures Bounded([])
  {
  }

  /** The loop over the data files: both sums, the losses met, and whether each had an extent. */
  method SumDamage(files: seq<NzbDataFile>, blockSize: int)
    returns (damagedMin: int, damagedMax: int, attributed: int, upperBounded: bool)
    requires forall f | f in files :: SizesPositive(f)
    ensures damagedMin == Saturate(Sum(Lows(files, blockSize)))
    ensures damagedMax == Saturate(Sum(Highs(files, blockSize)))
    ensures attributed == Sum(Losses(files))
    ensures upperBounded <==> Bounded(files)
  {
    hide Bounded, Lows, Highs, Losses;
    hide FileLow, FileHigh, HasExtent, SizesPositive, Saturate, SaturatedAdd;
    assert Bounded(files[..0]) by { EmptyIsBounded(); }
    assert Saturate(Sum([])) == 0 by { assert Sum([]) == 0; SmallNeverCut(0); }
    ghost var lows, highs, losses := Lows(files, blockSize), Highs(files, blockSize), Losses(files);
    damagedMin, damagedMax, attributed, upperBounded := 0, 0, 0, true;
    for i := 0 to |files|
      invariant damagedMin == Saturate(Sum(lows[..i])) && damagedMax == Saturate(Sum(highs[..i]))
      invariant attributed == Sum(losses[..i])
      invariant upperBounded <==> Bounded(files[..i])
    {
      var file := files[i];
      SumStep(lows, i);
      SumStep(highs, i);
      SumPrefix(losses, i);
      BoundedStep(files, i);
      var low, high, lost, bounded := DamageOf(file, blockSize);
      damagedMin := SaturatedAdd(damagedMin, low);
      damagedMax := SaturatedAdd(damagedMax, high);
      attributed := attributed + lost;
      upperBounded := upperBounded && bounded;
    }
    SumWhole(lows);
    SumWhole(highs);
    SumWhole(losses);
    assert files[..|files|] == files;
  }

  class NzbCheck {
    var par2Queue: seq<ArticleId>
    var dataQueue: seq<ArticleId>
    var articleOwner: map<ArticleId, Owner>
    var dataArticleBytesUpper: map<ArticleId, int>
    var par2Volumes: seq<Par2Volume>
    var dataFiles: seq<NzbDataFile>
    var nbListedArticles: int
    var nbMissingArticles: int
    var nbCheckedArticles: int
    var nbPar2Articles: int
    var nbPar2Answered: int
    var nbMissingPar2Articles: int
    var nbMissingDataArticles: int
    var par2PhaseDone: bool
    var earlyStop: bool
    var unusable: bool
    const settings: Settings

    function View(): Check
      reads this
    {
      Check(par2Queue, dataQueue, Index(articleOwner, dataArticleBytesUpper), par2Volumes, dataFiles,
            Counts(nbListedArticles, nbMissingArticles, nbCheckedArticles, nbPar2Articles, nbPar2Answered,
                   nbMissingPar2Articles, nbMissingDataArticles),
            settings, par2PhaseDone, earlyStop, unusable)
    }

    /** Owners index the two lists, blocks are counts, and kept sizes are sizes. */
    ghost predicate Valid()
      reads this
    {
      && OwnersInRange(View())
      && (forall v | v in par2Volumes :: v.blocks >= 0)
      && (forall f | f in dataFiles :: SizesPositive(f))
    }

    constructor (settings: Settings)
      ensures Valid() && View() == Unread(settings)
    {
      par2Queue, dataQueue, articleOwner, dataArticleBytesUpper := [], [], map[], map[];
      par2Volumes, dataFiles := [], [];
      nbListedArticles, nbMissingArticles, nbCheckedArticles := 0, 0, 0;
      nbPar2Articles, nbPar2Answered, nbMissingPar2Articles, nbMissingDataArticles := 0, 0, 0, 0;
      par2PhaseDone, earlyStop, unusable := false, false, false;
      this.settings := settings;
    }

    // ---- Reading the NZB ----

    method OpenFile(e: FileEntry)
      requires Valid()
      modifies this`par2Volumes, this`dataFiles
      ensures Valid() && View() == CheckState.OpenFile(old(View()), e)
    {
      if e.isPar2 {
        var volume := Par2Volume(0, false, e.expected, 0, 0, 0, 0);
        if e.isVolume {
          volume := volume.(blocks := e.blocks, isVolume := true);
        }
        par2Volumes := par2Volumes + [volume];
      } else {
        dataFiles := dataFiles + [NzbDataFile(e.expected, 0, 0, 0, 0, 0, e.size, 0, [], true)];
      }
    }

    method ReadPar2Segment(s: Segment)
      requires Valid() && par2Volumes != [] && IsValidMessageId(s.id)
      modifies this`par2Queue, this`articleOwner, this`nbPar2Articles
      ensures Valid() && View() == CheckState.ReadSegment(old(View()), true, s)
    {
      par2Queue := par2Queue + [s.id];
      articleOwner := articleOwner[s.id := Volume(|par2Volumes| - 1)];
      nbPar2Articles := nbPar2Articles + 1;
    }

    method ReadDataSegment(s: Segment)
      requires Valid() && dataFiles != [] && IsValidMessageId(s.id)
      modifies this`dataQueue, this`articleOwner, this`dataFiles, this`dataArticleBytesUpper
      ensures Valid() && View() == CheckState.ReadSegment(old(View()), false, s)
    {
      hide IsValidMessageId;
      var i := |dataFiles| - 1;
      dataQueue := dataQueue + [s.id];
      articleOwner := articleOwner[s.id := DataFile(i)];
      if s.bytes > 0 {
        var file := dataFiles[i];
        assert file in dataFiles;
        dataFiles := dataFiles[i := file.(listedWithBytes := file.listedWithBytes + 1,
                                          listedBytesUpper := SaturatedAdd(file.listedBytesUpper, s.bytes))];
        dataArticleBytesUpper := dataArticleBytesUpper[s.id := s.bytes];
      }
    }

    /** The file being read is the last of its list. */
    predicate Reading(e: FileEntry)
      reads this
    {
      if e.isPar2 then par2Volumes != [] && par2Volumes[|par2Volumes| - 1].expected == e.expected
      else dataFiles != [] && dataFiles[|dataFiles| - 1].expected == e.expected
    }

    method CloseFile(e: FileEntry, nbArticles: nat)
      requires Valid() && Reading(e)
      modifies this`par2Volumes, this`dataFiles
      modifies this`nbMissingArticles, this`nbMissingPar2Articles, this`nbMissingDataArticles
      ensures Valid() && View() == CheckState.CloseFile(old(View()), e, nbArticles)
    {
      var absent := if nbArticles < e.expected then e.expected - nbArticles else 0;
      nbMissingArticles := nbMissingArticles + absent;
      if e.isPar2 {
        nbMissingPar2Articles := nbMissingPar2Articles + absent;
        CloseVolume(nbArticles, absent);
      } else {
        nbMissingDataArticles := nbMissingDataArticles + absent;
        CloseDataFile(nbArticles, absent);
      }
    }

    method CloseVolume(nbArticles: nat, absent: nat)
      requires Valid() && par2Volumes != []
      modifies this`par2Volumes
      ensures var i := |old(par2Volumes)| - 1;
              par2Volumes == old(par2Volumes)[i := old(par2Volumes)[i].(
                listed := nbArticles, missing := old(par2Volumes)[i].missing + absent)]
      ensures Valid()
    {
      var i := |par2Volumes| - 1;
      var volume := par2Volumes[i];
      assert volume in par2Volumes;
      par2Volumes := par2Volumes[i := volume.(listed := nbArticles, missing := volume.missing + absent)];
    }

    method CloseDataFile(nbArticles: nat, absent: nat)
      requires Valid() && dataFiles != []
      requires absent == Max(0, dataFiles[|dataFiles| - 1].expected - nbArticles)
      modifies this`dataFiles
      ensures var i := |old(dataFiles)| - 1;
              dataFiles == old(dataFiles)[i := FileClosing(old(dataFiles)[i], nbArticles)]
      ensures Valid()
    {
      var i := |dataFiles| - 1;
      var file := dataFiles[i];
      assert file in dataFiles;
      file := file.(listed := nbArticles);
      if file.expected > 0 && nbArticles >= file.expected
        && file.listedWithBytes == nbArticles && file.listedBytesUpper < file.size
      {
        file := file.(boundsConsistent := false);
      }
      dataFiles := dataFiles[i := file.(missing := file.missing + absent)];
    }

    method ReadFile(e: FileEntry)
      requires Valid()
      modifies this
      ensures Valid() && View() == CheckState.ReadFile(old(View()), e)
    {
      OpenFile(e);
      ghost var start := View();
      var nbArticles := 0;
      for i := 0 to |e.segments|
        invariant Valid() && Reading(e)
        invariant View() == ReadSegments(start, e.isPar2, e.segments[..i])
        invariant nbArticles == |Accepted(e.segments[..i])|
      {
        var s := e.segments[i];
        assert e.segments[..i + 1][..i] == e.segments[..i];
        if !IsValidMessageId(s.id) {
          continue;
        }
        nbArticles := nbArticles + 1;
        if e.isPar2 {
          ReadPar2Segment(s);
        } else {
          ReadDataSegment(s);
        }
      }
      assert e.segments[..|e.segments|] == e.segments;
      CloseFile(e, nbArticles);
    }

    method ParseNzb(doc: NzbDocument) returns (nbListed: int)
      requires Valid() && View() == Unread(settings)
      modifies this
      ensures Valid() && View() == Parsed(doc, settings) && nbListed == View().counts.listed
    {
      for i := 0 to |doc|
        invariant Valid() && View() == ReadFiles(Unread(settings), doc[..i])
      {
        assert doc[..i + 1][..i] == doc[..i];
        ReadFile(doc[i]);
      }
      assert doc[..|doc|] == doc;
      nbListedArticles := |par2Queue| + |dataQueue|;
      nbListed := nbListedArticles;
    }

    // ---- What the check concludes ----

    method TotalRecoveryBlocks() returns (blocks: int)
      requires Valid()
      ensures blocks == TotalRecovery(par2Volumes)
    {
      ghost var all := AllBlocks(par2Volumes);
      blocks := 0;
      for i := 0 to |par2Volumes|
        invariant blocks == Saturate(Sum(all[..i]))
      {
        assert par2Volumes[i] in par2Volumes;
        SumStep(all, i);
        blocks := SaturatedAdd(blocks, par2Volumes[i].blocks);
      }
      SumWhole(all);
      blocks := BoundedBlockCount(blocks);
    }

    method UsableBlockRange() returns (range: BlockRange)
      ensures range == UsableRange(par2Volumes)
    {
      ghost var guaranteed, best := GuaranteedBlocks(par2Volumes), BestBlocks(par2Volumes);
      var low, high := 0, 0;
      for i := 0 to |par2Volumes|
        invariant low == Sum(guaranteed[..i]) && high == Sum(best[..i])
      {
        SumPrefix(guaranteed, i);
        SumPrefix(best, i);
        var volume := par2Volumes[i];
        if volume.IsIntact() {
          low := low + volume.blocks;
        }
        high := high + if volume.AnythingLeft() then volume.blocks else 0;
      }
      SumWhole(guaranteed);
      SumWhole(best);
      range := BlockRange(BoundedBlockCount(low), BoundedBlockCount(Max(low, high)));
    }

    method LikelyUsableBlocks() returns (blocks: int)
      ensures blocks == BoundedBlockCount(Saturate(Sum(LikelyBlocks(par2Volumes))))
    {
      ghost var likely := LikelyBlocks(par2Volumes);
      blocks := 0;
      for i := 0 to |par2Volumes|
        invariant blocks == Saturate(Sum(likely[..i]))
      {
        UsableIsNatural(par2Volumes);
        SumStep(likely, i);
        blocks := SaturatedAdd(blocks, UsableBlocks(par2Volumes[i]));
      }
      SumWhole(likely);
      blocks := BoundedBlockCount(blocks);
    }

    method TotalDataBlocks(dataSizeIsComplete: bool) returns (blocks: int)
      ensures blocks == CheckState.TotalDataBlocks(dataFiles, settings.blockSize, dataSizeIsComplete)
    {
      if !dataSizeIsComplete || settings.blockSize <= 0 {
        return -1;
      }
      ghost var counts := SliceCounts(dataFiles, settings.blockSize);
      blocks := 0;
      for i := 0 to |dataFiles|
        invariant blocks == Saturate(Sum(counts[..i]))
      {
        SumStep(counts, i);
        blocks := SaturatedAdd(blocks, CeilDiv(dataFiles[i].size, settings.blockSize));
      }
      SumWhole(counts);
      SumNonNegative(counts);
      return if blocks > 0 then blocks else -1;
    }

    method HasIntactPar2Index() returns (intact: bool)
      ensures intact == HasIntactIndex(par2Volumes)
    {
      for i := 0 to |par2Volumes|
        invariant !HasIntactIndex(par2Volumes[..i])
      {
        var volume := par2Volumes[i];
        if !volume.isVolume && volume.IsIntact() {
          assert volume in par2Volumes;
          return true;
        }
        assert par2Volumes[..i + 1] == par2Volumes[..i] + [volume];
      }
      assert par2Volumes[..|par2Volumes|] == par2Volumes;
      intact := false;
    }

    method DamagedBlockRange() returns (range: BlockRange)
      requires Valid()
      ensures range == DamagedRange(dataFiles, settings.blockSize, nbMissingDataArticles)
    {
      if nbMissingDataArticles <= 0 {
        return BlockRange(0, 0);
      }
      if settings.blockSize <= 0 {
        return BlockRange(1, -1);
      }
      var damagedMin, damagedMax, attributed, upperBounded := SumDamage(dataFiles, settings.blockSize);
      SumNonNegative(Lows(dataFiles, settings.blockSize));
      if attributed < nbMissingDataArticles {
        damagedMin := SaturatedAdd(damagedMin, 1);
        upperBounded := false;
      }
      damagedMin := Max(damagedMin, 1);
      assert upperBounded <==> UpperBounded(dataFiles, nbMissingDataArticles);
      if !upperBounded {
        return BlockRange(BoundedBlockCount(damagedMin), -1);
      }
      damagedMax := Max(damagedMin, damagedMax);
      range := BlockRange(BoundedBlockCount(damagedMin), BoundedBlockCount(damagedMax));
    }

    method RecoveryVerdict() returns (verdict: Recovery)
      requires Valid()
      ensures verdict == Verdict(View())
    {
      if nbMissingDataArticles <= 0 {
        return NotNeeded;
      }
      if par2Volumes == [] {
        return NoPar2AtAll;
      }
      var total := TotalRecoveryBlocks();
      if total <= 0 {
        return NoRecoveryBlocks;
      }
      var usable := UsableBlockRange();
      if usable.high <= 0 {
        return NoUsableBlocks;
      }
      if !settings.blockSizeMeasured {
        return LayoutDependent;
      }
      var damaged := DamagedBlockRange();
      if damaged.high >= 0 && damaged.high <= usable.low {
        var intact := HasIntactPar2Index();
        return if intact then ProbablyRecoverable else LayoutDependent;
      }
      return if damaged.low > usable.high then Impossible else LayoutDependent;
    }

    method CheckStatus() returns (status: CheckStatus)
      requires Valid()
      ensures status == Status(View())
    {
      if unusable {
        return Inconclusive;
      }
      if !earlyStop && nbListedArticles > 0 && nbCheckedArticles < nbListedArticles {
        return Inconclusive;
      }
      if nbMissingArticles == 0 {
        return Complete;
      }
      var verdict := RecoveryVerdict();
      return if BeyondRepair(verdict) then Unrecoverable else Missing;
    }

    // ---- What one answer changes ----

    method ReevaluateEarlyStop()
      requires Valid()
      modifies this`earlyStop
      ensures Valid() && View() == Reevaluated(old(View()))
    {
      if earlyStop || settings.checkFull || !par2PhaseDone || nbMissingDataArticles <= 0 {
        return;
      }
      var verdict := RecoveryVerdict();
      if BeyondRepair(verdict) {
        earlyStop := true;
      }
    }

    method CountLoss(article: ArticleId)
      requires Valid()
      modifies this
      ensures Valid() && View() == CountMissing(old(View()), article)
    {
      hide VolumeLosing, FileLosing, SizesPositive;
      assert article in articleOwner ==> InRange(articleOwner[article], par2Volumes, dataFiles);
      hide InRange;
      nbMissingArticles := nbMissingArticles + 1;
      if article !in articleOwner {
        nbMissingDataArticles := nbMissingDataArticles + 1;
        return;
      }
      match articleOwner[article]
      case Volume(i) =>
        nbMissingPar2Articles := nbMissingPar2Articles + 1;
        LoseFromVolume(i);
      case DataFile(i) =>
        nbMissingDataArticles := nbMissingDataArticles + 1;
        LoseFromFile(i, if article in dataArticleBytesUpper then dataArticleBytesUpper[article] else 0);
    }

    method LoseFromVolume(i: nat)
      requires Valid() && i < |par2Volumes|
      modifies this`par2Volumes
      ensures Valid() && par2Volumes == old(par2Volumes)[i := VolumeLosing(old(par2Volumes)[i])]
    {
      var volume := par2Volumes[i];
      assert volume in par2Volumes;
      par2Volumes := par2Volumes[i := volume.(missing := volume.missing + 1, missingListed := volume.missingListed + 1)];
    }

    method LoseFromFile(i: nat, bytesUpper: int)
      requires Valid() && i < |dataFiles|
      modifies this`dataFiles
      ensures Valid() && dataFiles == old(dataFiles)[i := FileLosing(old(dataFiles)[i], bytesUpper)]
    {
      var file := dataFiles[i];
      assert file in dataFiles;
      file := file.(missing := file.missing + 1, missingListed := file.missingListed + 1);
      if bytesUpper > 0 {
        file := file.(missingListedWithBytes := file.missingListedWithBytes + 1,
                      missingBytesUpper := file.missingBytesUpper + [bytesUpper]);
      }
      dataFiles := dataFiles[i := file];
    }

    method MissingArticle(article: ArticleId)
      requires Valid()
      modifies this
      ensures OwnersInRange(old(View()))
      ensures Valid() && View() == CheckState.MissingArticle(old(View()), article)
    {
      CountLoss(article);
      ReevaluateEarlyStop();
    }

    method ArticleChecked(article: ArticleId)
      requires Valid()
      modifies this`nbCheckedArticles, this`nbPar2Answered, this`par2Volumes
      ensures OwnersInRange(old(View()))
      ensures Valid() && View() == CheckState.ArticleChecked(old(View()), article)
    {
      nbCheckedArticles := nbCheckedArticles + 1;
      if article in articleOwner && articleOwner[article].Volume? {
        var i := articleOwner[article].index;
        assert InRange(articleOwner[article], par2Volumes, dataFiles);
        nbPar2Answered := nbPar2Answered + 1;
        assert par2Volumes[i] in par2Volumes;
        par2Volumes := par2Volumes[i := par2Volumes[i].(checked := par2Volumes[i].checked + 1)];
      }
    }

    // ---- Handing articles out ----

    method GetNextArticle() returns (article: Option<ArticleId>)
      requires Valid()
      modifies this`par2Queue, this`dataQueue, this`par2PhaseDone, this`earlyStop
      ensures Valid() && (View(), article) == NextArticle(old(View()))
    {
      if earlyStop {
        return None;
      }
      if par2Queue != [] {
        article := Some(par2Queue[|par2Queue| - 1]);
        par2Queue := par2Queue[..|par2Queue| - 1];
        return;
      }
      if nbPar2Answered >= nbPar2Articles && !par2PhaseDone {
        par2PhaseDone := true;
        ReevaluateEarlyStop();
        if earlyStop {
          return None;
        }
      }
      if !par2PhaseDone {
        return None;
      }
      if dataQueue != [] {
        article := Some(dataQueue[|dataQueue| - 1]);
        dataQueue := dataQueue[..|dataQueue| - 1];
        return;
      }
      return None;
    }

    method RequeueArticle(article: ArticleId)
      requires Valid()
      modifies this`par2Queue, this`dataQueue
      ensures Valid() && View() == Requeued(old(View()), article)
    {
      if article in articleOwner && articleOwner[article].Volume? {
        par2Queue := par2Queue + [article];
      } else {
        dataQueue := dataQueue + [article];
      }
    }
  }
}
