/** The state of one NZB check and every operation that changes it (src/NzbCheck.h,
    src/NzbCheck.cpp).

    `Check` is the value of that state. The functions over it say what each operation
    does; class `NzbCheck` is the object that does it, in place and with loops, and is
    proved against them. */
module CheckState {
  import opened Options
  import opened Arithmetic
  import opened Slices
  import opened NzbFacts

  datatype Owner = Volume(index: nat) | DataFile(index: nat)

  datatype Recovery =
    | NotNeeded | ProbablyRecoverable | LayoutDependent
    | Impossible | NoPar2AtAll | NoRecoveryBlocks | NoUsableBlocks

  datatype CheckStatus = Complete | Missing | Unrecoverable | Inconclusive

  /** A range of block counts; `high` is -1 when nothing bounds it from above. */
  datatype BlockRange = BlockRange(low: int, high: int)

  /** How many articles were listed, lost, answered; and the PAR2 and data shares. */
  datatype Counts = Counts(
    listed: int, missing: int, checked: int,
    par2Articles: int, par2Answered: int, missingPar2: int, missingData: int)

  /** Which file each article belongs to, and its encoded size when the NZB gives one. */
  datatype Index = Index(owner: map<ArticleId, Owner>, bytesUpper: map<ArticleId, int>)

  datatype Settings = Settings(blockSize: int, blockSizeMeasured: bool, checkFull: bool)

  datatype Check = Check(
    par2Queue: seq<ArticleId>, dataQueue: seq<ArticleId>, index: Index,
    volumes: seq<Par2Volume>, files: seq<NzbDataFile>, counts: Counts, settings: Settings,
    par2PhaseDone: bool, earlyStop: bool, unusable: bool)

  // ---- Recovery blocks left ----

  function AllBlocks(volumes: seq<Par2Volume>): (ns: seq<int>)
    ensures |ns| == |volumes| && forall i | 0 <= i < |ns| :: ns[i] == volumes[i].blocks
  {
    seq(|volumes|, i requires 0 <= i < |volumes| => volumes[i].blocks)
  }

  function GuaranteedBlocks(volumes: seq<Par2Volume>): (ns: seq<int>)
    ensures |ns| == |volumes|
    ensures forall i | 0 <= i < |ns| :: ns[i] == if volumes[i].IsIntact() then volumes[i].blocks else 0
  {
    seq(|volumes|, i requires 0 <= i < |volumes| => if volumes[i].IsIntact() then volumes[i].blocks else 0)
  }

  function BestBlocks(volumes: seq<Par2Volume>): (ns: seq<int>)
    ensures |ns| == |volumes|
    ensures forall i | 0 <= i < |ns| :: ns[i] == if volumes[i].AnythingLeft() then volumes[i].blocks else 0
  {
    seq(|volumes|, i requires 0 <= i < |volumes| => if volumes[i].AnythingLeft() then volumes[i].blocks else 0)
  }

  function TotalRecovery(volumes: seq<Par2Volume>): int {
    BoundedBlockCount(Saturate(Sum(AllBlocks(volumes))))
  }

  function UsableRange(volumes: seq<Par2Volume>): BlockRange {
    var low, high := Sum(GuaranteedBlocks(volumes)), Sum(BestBlocks(volumes));
    BlockRange(BoundedBlockCount(low), BoundedBlockCount(Max(low, high)))
  }

  predicate HasIntactIndex(volumes: seq<Par2Volume>) {
    exists v | v in volumes :: !v.isVolume && v.IsIntact()
  }

  /** An estimate, not a bound: the packets of a volume thinned out in proportion to the
      articles it still has, and one more taken off for each that is gone. */
  function UsableBlocks(v: Par2Volume): int {
    if v.blocks <= 0 || v.expected <= 0 then 0
    else if v.IsIntact() then v.blocks
    else
      var confirmed := Min(v.expected, v.checked - v.missingListed);
      if confirmed <= 0 then 0 else Max(0, (v.blocks * confirmed) / v.expected - v.missing)
  }

  function LikelyBlocks(volumes: seq<Par2Volume>): (ns: seq<int>)
    ensures |ns| == |volumes| && forall i | 0 <= i < |ns| :: ns[i] == UsableBlocks(volumes[i])
  {
    seq(|volumes|, i requires 0 <= i < |volumes| => UsableBlocks(volumes[i]))
  }

  // ---- Source slices damaged ----

  /** The bytes of the file that cannot fit in the articles that may still be present. */
  function MinLostBytes(f: NzbDataFile): int {
    var missingUpper := Saturate(Sum(f.missingBytesUpper));
    var possiblePresent := f.listed - f.missingListed;
    var possiblePresentWithBytes := f.listedWithBytes - f.missingListedWithBytes;
    if f.boundsConsistent && possiblePresent >= 0 && possiblePresentWithBytes == possiblePresent then
      var presentBytes := if f.listedBytesUpper >= missingUpper then f.listedBytesUpper - missingUpper else 0;
      if presentBytes < f.size then f.size - presentBytes else 1
    else
      1
  }

  predicate HasExtent(f: NzbDataFile) {
    f.size > 0 && f.expected > 0
  }

  predicate EveryLossSized(f: NzbDataFile) {
    f.missingListed == f.missing && f.missingListedWithBytes == f.missingListed
  }

  /** The fewest slices the losses of this file can damage. */
  function FileLow(f: NzbDataFile, blockSize: int): (n: int)
    ensures 0 <= n && (f.missing > 0 ==> 1 <= n)
  {
    if f.missing <= 0 then 0
    else if !HasExtent(f) then 1
    else Max(1, CeilDiv(MinLostBytes(f), blockSize))
  }

  /** The most they can damage, for a file whose extent is known. */
  function FileHigh(f: NzbDataFile, blockSize: int): (n: int)
    ensures HasExtent(f) ==> FileLow(f, blockSize) <= n
    ensures 0 <= n
  {
    if f.missing <= 0 || !HasExtent(f) then 0
    else
      var fileBlocks := CeilDiv(f.size, blockSize);
      var scattered := Saturate(Sum(TouchedBounds(f.missingBytesUpper, blockSize)));
      var most := if f.boundsConsistent && EveryLossSized(f) then Min(fileBlocks, scattered) else fileBlocks;
      Max(FileLow(f, blockSize), most)
  }

  function Lows(files: seq<NzbDataFile>, blockSize: int): (ns: seq<int>)
    ensures |ns| == |files| && forall i | 0 <= i < |ns| :: ns[i] == FileLow(files[i], blockSize)
  {
    seq(|files|, i requires 0 <= i < |files| => FileLow(files[i], blockSize))
  }

  function Highs(files: seq<NzbDataFile>, blockSize: int): (ns: seq<int>)
    ensures |ns| == |files| && forall i | 0 <= i < |ns| :: ns[i] == FileHigh(files[i], blockSize)
  {
    seq(|files|, i requires 0 <= i < |files| => FileHigh(files[i], blockSize))
  }

  function Losses(files: seq<NzbDataFile>): (ns: seq<int>)
    ensures |ns| == |files| && forall i | 0 <= i < |ns| :: ns[i] == Max(0, files[i].missing)
  {
    seq(|files|, i requires 0 <= i < |files| => Max(0, files[i].missing))
  }

  /** Every loss sits in a file of known extent. */
  predicate UpperBounded(files: seq<NzbDataFile>, missing: int) {
    && Sum(Losses(files)) >= missing
    && forall f | f in files && f.missing > 0 :: HasExtent(f)
  }

  /** The two ends before they are cut to an int. */
  function DamageLow(files: seq<NzbDataFile>, blockSize: int, missing: int): int {
    Max(1, Saturate(Sum(Lows(files, blockSize)) + if Sum(Losses(files)) < missing then 1 else 0))
  }

  function DamageHigh(files: seq<NzbDataFile>, blockSize: int, missing: int): int {
    Max(DamageLow(files, blockSize, missing), Saturate(Sum(Highs(files, blockSize))))
  }

  function DamagedRange(files: seq<NzbDataFile>, blockSize: int, missing: int): BlockRange {
    if missing <= 0 then BlockRange(0, 0)
    else if blockSize <= 0 then BlockRange(1, -1)
    else
      BlockRange(
        BoundedBlockCount(DamageLow(files, blockSize, missing)),
        if UpperBounded(files, missing) then BoundedBlockCount(DamageHigh(files, blockSize, missing)) else -1)
  }

  /** The source slices of every file. */
  function SliceCounts(files: seq<NzbDataFile>, blockSize: int): (ns: seq<int>)
    ensures |ns| == |files| && forall i | 0 <= i < |ns| :: ns[i] == CeilDiv(files[i].size, blockSize)
  {
    seq(|files|, i requires 0 <= i < |files| => CeilDiv(files[i].size, blockSize))
  }

  /** The slices of the post, or -1 when not every file announced its size. */
  function TotalDataBlocks(files: seq<NzbDataFile>, blockSize: int, complete: bool): int {
    if !complete || blockSize <= 0 then -1
    else if Sum(SliceCounts(files, blockSize)) > 0 then Saturate(Sum(SliceCounts(files, blockSize))) else -1
  }

  // ---- The verdict ----

  function Verdict(c: Check): Recovery {
    if c.counts.missingData <= 0 then NotNeeded
    else if c.volumes == [] then NoPar2AtAll
    else if TotalRecovery(c.volumes) <= 0 then NoRecoveryBlocks
    else
      var usable := UsableRange(c.volumes);
      if usable.high <= 0 then NoUsableBlocks
      else if !c.settings.blockSizeMeasured then LayoutDependent
      else
        var damaged := DamagedRange(c.files, c.settings.blockSize, c.counts.missingData);
        if 0 <= damaged.high <= usable.low then
          if HasIntactIndex(c.volumes) then ProbablyRecoverable else LayoutDependent
        else if damaged.low > usable.high then Impossible
        else LayoutDependent
  }

  predicate BeyondRepair(r: Recovery) {
    r.NoPar2AtAll? || r.NoRecoveryBlocks? || r.NoUsableBlocks? || r.Impossible?
  }

  function Status(c: Check): CheckStatus {
    if c.unusable then Inconclusive
    else if !c.earlyStop && c.counts.listed > 0 && c.counts.checked < c.counts.listed then Inconclusive
    else if c.counts.missing == 0 then Complete
    else if BeyondRepair(Verdict(c)) then Unrecoverable
    else Missing
  }

  // ---- Operations of a run ----

  predicate SameFiles(c: Check, d: Check) {
    d.index == c.index && |d.volumes| == |c.volumes| && |d.files| == |c.files| && d.settings == c.settings
  }

  function Reevaluated(c: Check): (r: Check)
    ensures r.(earlyStop := c.earlyStop) == c
  {
    if c.earlyStop || c.settings.checkFull || !c.par2PhaseDone || c.counts.missingData <= 0 then c
    else if BeyondRepair(Verdict(c)) then c.(earlyStop := true)
    else c
  }

  function OwnerOf(c: Check, article: ArticleId): Option<Owner> {
    if article in c.index.owner then Some(c.index.owner[article]) else None
  }

  function BytesUpperOf(c: Check, article: ArticleId): int {
    if article in c.index.bytesUpper then c.index.bytesUpper[article] else 0
  }

  predicate InRange(o: Owner, volumes: seq<Par2Volume>, files: seq<NzbDataFile>) {
    match o
    case Volume(i) => i < |volumes|
    case DataFile(i) => i < |files|
  }

  predicate OwnersInRange(c: Check) {
    forall a | a in c.index.owner :: InRange(c.index.owner[a], c.volumes, c.files)
  }

  function VolumeLosing(v: Par2Volume): Par2Volume {
    v.(missing := v.missing + 1, missingListed := v.missingListed + 1)
  }

  function FileLosing(f: NzbDataFile, bytes: int): NzbDataFile {
    var f := f.(missing := f.missing + 1, missingListed := f.missingListed + 1);
    if bytes <= 0 then f else
      f.(missingListedWithBytes := f.missingListedWithBytes + 1,
         missingBytesUpper := f.missingBytesUpper + [bytes])
  }

  function VolumeAnswering(v: Par2Volume): Par2Volume {
    v.(checked := v.checked + 1)
  }

  function CountsLosing(n: Counts, par2: bool): Counts {
    n.(missing := n.missing + 1,
       missingPar2 := n.missingPar2 + if par2 then 1 else 0,
       missingData := n.missingData + if par2 then 0 else 1)
  }

  function CountsAnswering(n: Counts, par2: bool): Counts {
    n.(checked := n.checked + 1, par2Answered := n.par2Answered + if par2 then 1 else 0)
  }

  /** The losses an article adds, before the early stop is weighed again. An article of
      no file of this NZB is a data loss, attributed to nothing. */
  function CountMissing(c: Check, article: ArticleId): (r: Check)
    requires OwnersInRange(c)
    ensures SameFiles(c, r)
  {
    match OwnerOf(c, article)
    case None => c.(counts := CountsLosing(c.counts, false))
    case Some(Volume(i)) =>
      c.(counts := CountsLosing(c.counts, true), volumes := c.volumes[i := VolumeLosing(c.volumes[i])])
    case Some(DataFile(i)) =>
      c.(counts := CountsLosing(c.counts, false),
         files := c.files[i := FileLosing(c.files[i], BytesUpperOf(c, article))])
  }

  function MissingArticle(c: Check, article: ArticleId): (r: Check)
    requires OwnersInRange(c)
    ensures SameFiles(c, r)
  {
    Reevaluated(CountMissing(c, article))
  }

  function ArticleChecked(c: Check, article: ArticleId): (r: Check)
    requires OwnersInRange(c)
    ensures SameFiles(c, r)
  {
    match OwnerOf(c, article)
    case Some(Volume(i)) =>
      c.(counts := CountsAnswering(c.counts, true), volumes := c.volumes[i := VolumeAnswering(c.volumes[i])])
    case _ => c.(counts := CountsAnswering(c.counts, false))
  }

  function PhaseClosed(c: Check): Check {
    if c.counts.par2Answered >= c.counts.par2Articles && !c.par2PhaseDone
    then Reevaluated(c.(par2PhaseDone := true)) else c
  }

  /** Both queues are stacks: the next article is the last one. */
  function NextArticle(c: Check): (r: (Check, Option<ArticleId>))
    ensures SameFiles(c, r.0)
  {
    if c.earlyStop then (c, None)
    else if c.par2Queue != [] then
      (c.(par2Queue := c.par2Queue[..|c.par2Queue| - 1]), Some(c.par2Queue[|c.par2Queue| - 1]))
    else
      var c := PhaseClosed(c);
      if c.earlyStop || !c.par2PhaseDone || c.dataQueue == [] then (c, None)
      else (c.(dataQueue := c.dataQueue[..|c.dataQueue| - 1]), Some(c.dataQueue[|c.dataQueue| - 1]))
  }

  function Requeued(c: Check, article: ArticleId): (r: Check)
    ensures SameFiles(c, r)
  {
    match OwnerOf(c, article)
    case Some(Volume(_)) => c.(par2Queue := c.par2Queue + [article])
    case _ => c.(dataQueue := c.dataQueue + [article])
  }

  predicate HasArticlesLeft(c: Check) {
    !c.earlyStop && (c.par2Queue != [] || c.dataQueue != [])
  }

  predicate WaitingForPar2(c: Check) {
    !c.earlyStop && !c.par2PhaseDone && c.dataQueue != []
  }

  // ---- Reading the document ----

  function Unread(settings: Settings): Check {
    Check([], [], Index(map[], map[]), [], [], Counts(0, 0, 0, 0, 0, 0, 0), settings, false, false, false)
  }

  function OpenFile(c: Check, e: FileEntry): Check {
    if e.isPar2 then
      c.(volumes := c.volumes + [Par2Volume(if e.isVolume then e.blocks else 0, e.isVolume, e.expected, 0, 0, 0, 0)])
    else
      c.(files := c.files + [NzbDataFile(e.expected, 0, 0, 0, 0, 0, e.size, 0, [], true)])
  }

  function FileSizing(f: NzbDataFile, bytes: int): NzbDataFile {
    if bytes <= 0 then f else
      f.(listedWithBytes := f.listedWithBytes + 1, listedBytesUpper := SaturatedAdd(f.listedBytesUpper, bytes))
  }

  function Indexed(index: Index, o: Owner, s: Segment): Index {
    Index(index.owner[s.id := o],
          if o.DataFile? && s.bytes > 0 then index.bytesUpper[s.id := s.bytes] else index.bytesUpper)
  }

  /** One <segment> of the file being read, which is the last of its list. */
  function ReadSegment(c: Check, isPar2: bool, s: Segment): Check
    requires if isPar2 then c.volumes != [] else c.files != []
  {
    if !IsValidMessageId(s.id) then c
    else if isPar2 then
      c.(par2Queue := c.par2Queue + [s.id],
         index := Indexed(c.index, Volume(|c.volumes| - 1), s),
         counts := c.counts.(par2Articles := c.counts.par2Articles + 1))
    else
      var i := |c.files| - 1;
      c.(dataQueue := c.dataQueue + [s.id],
         index := Indexed(c.index, DataFile(i), s),
         files := c.files[i := FileSizing(c.files[i], s.bytes)])
  }

  function ReadSegments(c: Check, isPar2: bool, segments: seq<Segment>): (r: Check)
    requires if isPar2 then c.volumes != [] else c.files != []
    ensures |r.volumes| == |c.volumes| && |r.files| == |c.files|
  {
    if segments == [] then c else
      ReadSegment(ReadSegments(c, isPar2, segments[..|segments| - 1]), isPar2, segments[|segments| - 1])
  }

  function VolumeClosing(v: Par2Volume, nbArticles: int): Par2Volume {
    v.(listed := nbArticles, missing := v.missing + Max(0, v.expected - nbArticles))
  }

  function FileClosing(f: NzbDataFile, nbArticles: int): NzbDataFile {
    var contradictory :=
      f.expected > 0 && nbArticles >= f.expected && f.listedWithBytes == nbArticles && f.listedBytesUpper < f.size;
    f.(listed := nbArticles, boundsConsistent := f.boundsConsistent && !contradictory,
       missing := f.missing + Max(0, f.expected - nbArticles))
  }

  /** The end of a file element: parts its subject announced and no segment stands for
      count among the losses. */
  function CloseFile(c: Check, e: FileEntry, nbArticles: int): Check
    requires if e.isPar2 then c.volumes != [] else c.files != []
  {
    var absent := Max(0, e.expected - nbArticles);
    var n := c.counts.(missing := c.counts.missing + absent);
    if e.isPar2 then
      var i := |c.volumes| - 1;
      c.(volumes := c.volumes[i := VolumeClosing(c.volumes[i], nbArticles)],
         counts := n.(missingPar2 := n.missingPar2 + absent))
    else
      var i := |c.files| - 1;
      c.(files := c.files[i := FileClosing(c.files[i], nbArticles)],
         counts := n.(missingData := n.missingData + absent))
  }

  function ReadFile(c: Check, e: FileEntry): Check {
    CloseFile(ReadSegments(OpenFile(c, e), e.isPar2, e.segments), e, |Accepted(e.segments)|)
  }

  function ReadFiles(c: Check, doc: NzbDocument): Check {
    if doc == [] then c else ReadFile(ReadFiles(c, doc[..|doc| - 1]), doc[|doc| - 1])
  }

  /** The state a check starts its run in. */
  function Parsed(doc: NzbDocument, settings: Settings): Check {
    var c := ReadFiles(Unread(settings), doc);
    c.(counts := c.counts.(listed := |c.par2Queue| + |c.dataQueue|))
  }
}
