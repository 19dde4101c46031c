/** What the verdict of a check proves about the post itself.

    The NZB hides the layout of the post: yEnc lets every part have its own length, and
    nothing says where a lost article sits. `Truth` is any layout the facts of the NZB
    allow. The bounds of the check hold for all of them. */
module Recovery {
  import opened Options
  import opened Arithmetic
  import opened Slices
  import opened NzbFacts
  import opened CheckState
  import opened Accounting

  /** One part of a posted file: its payload, and its id when the NZB lists it. */
  datatype Part = Part(length: nat, id: Option<ArticleId>)

  /** A layout for every data file, the true slice size, how many recovery packets of
      each PAR2 file can still be read, and the articles the server does not have. */
  datatype Truth = Truth(
    layout: seq<seq<Part>>, sliceSize: int, survivors: seq<int>, lost: set<ArticleId>)

  function Size(parts: seq<Part>): nat {
    if parts == [] then 0 else Size(parts[..|parts| - 1]) + parts[|parts| - 1].length
  }

  predicate IsLost(p: Part, lost: set<ArticleId>) {
    p.id.None? || p.id.value in lost
  }

  /** The bytes of the file that no article on the server carries. */
  function LostBytes(parts: seq<Part>, lost: set<ArticleId>): (bytes: set<int>)
    ensures bytes <= Interval(0, Size(parts))
  {
    if parts == [] then {} else
      var init, last := parts[..|parts| - 1], parts[|parts| - 1];
      LostBytes(init, lost) + (if IsLost(last, lost) then Interval(Size(init), last.length) else {})
  }

  /** The source slices of one file that hold a lost byte. */
  function Damage(parts: seq<Part>, lost: set<ArticleId>, sliceSize: int): nat
    requires sliceSize > 0
  {
    |Touched(LostBytes(parts, lost), sliceSize)|
  }

  function Damages(layout: seq<seq<Part>>, lost: set<ArticleId>, sliceSize: int): (ns: seq<int>)
    requires sliceSize > 0
    ensures |ns| == |layout| && forall i | 0 <= i < |ns| :: ns[i] == Damage(layout[i], lost, sliceSize)
  {
    seq(|layout|, i requires 0 <= i < |layout| => Damage(layout[i], lost, sliceSize))
  }

  /** Slices restart at every file, so the damage is counted file by file. */
  function TrueDamage(t: Truth): int
    requires t.sliceSize > 0
  {
    Sum(Damages(t.layout, t.lost, t.sliceSize))
  }

  function TrueSurvivors(t: Truth): int {
    Sum(t.survivors)
  }

  ghost predicate DistinctParts(parts: seq<Part>) {
    forall i, j | 0 <= i < j < |parts| && parts[i].id.Some? :: parts[i].id != parts[j].id
  }

  function PartIds(parts: seq<Part>): set<ArticleId> {
    set p | p in parts && p.id.Some? :: p.id.value
  }

  /** A payload is never longer than its encoded body. */
  ghost predicate FitsBody(p: Part, segments: seq<Segment>) {
    forall s | s in segments && s.bytes > 0 && p.id == Some(s.id) :: p.length <= s.bytes
  }

  /** The layout agrees with what the NZB announces for the file. */
  ghost predicate LaysOut(parts: seq<Part>, e: FileEntry) {
    && (forall p | p in parts :: p.length > 0 && FitsBody(p, Accepted(e.segments)))
    && DistinctParts(parts) && PartIds(parts) == EntryIds(e)
    && (e.expected > 0 ==> |parts| == e.expected)
    && (e.size > 0 ==> Size(parts) == e.size) && e.size <= INT64_MAX
  }

  /** Recovery packets of a volume: all of them if it lost nothing, none if it lost
      every article it lists, anything in between otherwise. */
  ghost predicate Survives(n: int, e: FileEntry, lost: set<ArticleId>) {
    var blocks := if e.isVolume then e.blocks else 0;
    && 0 <= n <= blocks
    && (EntryIds(e) !! lost && |Accepted(e.segments)| >= e.expected > 0 ==> n == blocks)
    && (EntryIds(e) <= lost ==> n == 0)
  }

  ghost predicate LayoutsFit(layout: seq<seq<Part>>, entries: seq<FileEntry>) {
    |layout| == |entries| && forall i | 0 <= i < |entries| :: LaysOut(layout[i], entries[i])
  }

  ghost predicate Consistent(t: Truth, l: Listing, settings: Settings) {
    && LayoutsFit(t.layout, l.data)
    && |t.survivors| == |l.volumes|
    && (forall i | 0 <= i < |l.volumes| :: Survives(t.survivors[i], l.volumes[i], t.lost))
    && t.sliceSize > 0 && (settings.blockSizeMeasured ==> t.sliceSize == settings.blockSize)
  }

  /** The answers received tell the truth: 430 exactly for the lost articles. */
  ghost predicate Truthful(t: Truth, answered: set<ArticleId>, gone: set<ArticleId>) {
    gone <= t.lost && forall id | id in answered && id !in gone :: id !in t.lost
  }

  /** The two byte sums of a file can be subtracted: the sum of its encoded sizes stayed
      below 2^63, or too little of it is missing for the difference to matter, or all. */
  ghost predicate FloorFits(e: FileEntry, gone: set<ArticleId>) {
    var segments := Accepted(e.segments);
    || Total(Encoded, segments) <= INT64_MAX
    || e.size - 1 <= INT64_MAX - Saturate(Tally(Encoded, segments, gone))
    || Tally(Encoded, segments, gone) == Total(Encoded, segments)
  }

  // ---- The least that can be lost ----

  /** Every article not known to be gone has a known size. */
  predicate PresentSized(e: FileEntry, gone: set<ArticleId>) {
    forall s | s in Accepted(e.segments) && s.id !in gone :: s.bytes > 0
  }

  /** What those articles can hold. */
  function Room(e: FileEntry, gone: set<ArticleId>): int {
    Tally(Encoded, Accepted(e.segments), IdSet(Accepted(e.segments)) - gone)
  }

  function MissingParts(e: FileEntry, gone: set<ArticleId>): int {
    Absent(e) + Tally(One, Accepted(e.segments), gone)
  }

  /** A byte for each missing part, and at least what does not fit in the others: no sum
      is cut here. */
  function LeastLost(e: FileEntry, gone: set<ArticleId>): (n: int)
    ensures 0 <= MissingParts(e, gone) <= n
  {
    if e.size > 0 && PresentSized(e, gone) then Max(MissingParts(e, gone), e.size - Room(e, gone))
    else MissingParts(e, gone)
  }

  function LeastDamage(e: FileEntry, gone: set<ArticleId>, blockSize: int): int {
    CeilDiv(LeastLost(e, gone), blockSize)
  }

  function LeastDamages(entries: seq<FileEntry>, gone: set<ArticleId>, blockSize: int): (ns: seq<int>)
    ensures |ns| == |entries| && forall i | 0 <= i < |ns| :: ns[i] == LeastDamage(entries[i], gone, blockSize)
  {
    seq(|entries|, i requires 0 <= i < |entries| => LeastDamage(entries[i], gone, blockSize))
  }

  /** The blocks that may be left are fewer than the slices that must be damaged, in the
      only case in which the verdict counts slices at all. */
  predicate Justified(l: Listing, c: Check, gone: set<ArticleId>) {
    c.settings.blockSizeMeasured && c.settings.blockSize > 0 && Sum(BestBlocks(c.volumes)) > 0 ==>
      Sum(BestBlocks(c.volumes)) < Sum(LeastDamages(l.data, gone, c.settings.blockSize))
  }

  // ---- Lost bytes ----

  function LostLength(parts: seq<Part>, lost: set<ArticleId>): nat {
    if parts == [] then 0 else
      LostLength(parts[..|parts| - 1], lost)
      + (if IsLost(parts[|parts| - 1], lost) then parts[|parts| - 1].length else 0)
  }

  function PresentIds(parts: seq<Part>, lost: set<ArticleId>): set<ArticleId> {
    set p | p in parts && !IsLost(p, lost) :: p.id.value
  }

  lemma {:induction false} LostBytesCount(parts: seq<Part>, lost: set<ArticleId>)
    ensures |LostBytes(parts, lost)| == LostLength(parts, lost)
  {
    if parts != [] {
      var init, last := parts[..|parts| - 1], parts[|parts| - 1];
      LostBytesCount(init, lost);
      assert LostBytes(init, lost) !! Interval(Size(init), last.length);
    }
  }

  lemma {:induction false} NothingLost(parts: seq<Part>, lost: set<ArticleId>)
    requires forall p | p in parts :: !IsLost(p, lost)
    ensures LostBytes(parts, lost) == {}
  {
    if parts != [] {
      assert parts[|parts| - 1] in parts;
      NothingLost(parts[..|parts| - 1], lost);
    }
  }

  lemma PrefixIds(parts: seq<Part>, lost: set<ArticleId>)
    requires parts != [] && DistinctParts(parts)
    ensures var init, last := parts[..|parts| - 1], parts[|parts| - 1];
            && PresentIds(parts, lost) == PresentIds(init, lost) + (if IsLost(last, lost) then {} else {last.id.value})
            && PartIds(parts) == PartIds(init) + (if last.id.None? then {} else {last.id.value})
            && (last.id.Some? ==> last.id.value !in PresentIds(init, lost) && last.id.value !in PartIds(init))
            && DistinctParts(init)
  {
  }

  /** What is still there is no longer than the bodies of the articles still there. */
  lemma {:induction false} PresentFits(parts: seq<Part>, lost: set<ArticleId>, segments: seq<Segment>)
    requires DistinctParts(parts) && Distinct(segments)
    requires PresentIds(parts, lost) <= IdSet(segments)
    requires forall p | p in parts :: FitsBody(p, segments)
    requires forall s | s in segments && s.id in PresentIds(parts, lost) :: s.bytes > 0
    ensures Size(parts) - LostLength(parts, lost) <= Tally(Encoded, segments, PresentIds(parts, lost))
  {
    if parts != [] {
      var init, last := parts[..|parts| - 1], parts[|parts| - 1];
      PrefixIds(parts, lost);
      PresentFits(init, lost, segments);
      if !IsLost(last, lost) {
        var s :| s in segments && s.id == last.id.value;
        assert FitsBody(last, segments);
        TallyInsert(Encoded, segments, PresentIds(init, lost), s);
        assert PresentIds(parts, lost) == PresentIds(init, lost) + {s.id};
      } else {
        assert PresentIds(parts, lost) == PresentIds(init, lost);
      }
    }
  }

  /** At most one part per listed id. */
  lemma {:induction false} ListedParts(parts: seq<Part>)
    requires DistinctParts(parts)
    ensures |PartIds(parts)| <= |parts|
    ensures |PartIds(parts)| == |parts| <==> forall p | p in parts :: p.id.Some?
  {
    if parts != [] {
      var init, last := parts[..|parts| - 1], parts[|parts| - 1];
      assert PartIds(parts) == PartIds(init) + (if last.id.None? then {} else {last.id.value})
          && (last.id.Some? ==> last.id.value !in PartIds(init)) && DistinctParts(init) by {
        PrefixIds(parts, {});
      }
      hide DistinctParts;
      ListedParts(init);
      assert forall p :: p in parts <==> p in init || p == last;
      if last.id.None? {
        assert PartIds(parts) == PartIds(init);
      } else {
        assert PartIds(parts) == PartIds(init) + {last.id.value};
      }
    }
  }

  lemma {:induction false} IdSetSize(segments: seq<Segment>)
    requires Distinct(segments)
    ensures |IdSet(segments)| == |segments|
  {
    if segments != [] {
      var init, last := segments[..|segments| - 1], segments[|segments| - 1];
      IdSetSize(init);
      DistinctFromOthers(segments, |segments| - 1);
      assert segments == init + [last];
      assert IdSet(segments) == IdSet(init) + {last.id};
    }
  }

  // ---- One file ----

  /** Every lost part has a byte. */
  lemma {:induction false} LostPartsHaveBytes(parts: seq<Part>, lost: set<ArticleId>)
    requires DistinctParts(parts) && forall p | p in parts :: p.length > 0
    ensures |parts| <= |PresentIds(parts, lost)| + LostLength(parts, lost)
  {
    if parts != [] {
      var init, last := parts[..|parts| - 1], parts[|parts| - 1];
      assert last in parts;
      PrefixIds(parts, lost);
      hide DistinctParts;
      LostPartsHaveBytes(init, lost);
      if IsLost(last, lost) {
        assert PresentIds(parts, lost) == PresentIds(init, lost);
      } else {
        assert PresentIds(parts, lost) == PresentIds(init, lost) + {last.id.value};
      }
    }
  }

  lemma OneMoreId(segments: seq<Segment>, gone: set<ArticleId>)
    requires Distinct(segments) && segments != []
    ensures var init, last := segments[..|segments| - 1], segments[|segments| - 1];
            && Distinct(init) && last.id !in IdSet(init) - gone
            && IdSet(segments) - gone == (IdSet(init) - gone) + (if last.id in gone then {} else {last.id})
  {
    DistinctFromOthers(segments, |segments| - 1);
    assert segments == segments[..|segments| - 1] + [segments[|segments| - 1]];
  }

  lemma {:induction false} PresentCount(segments: seq<Segment>, gone: set<ArticleId>)
    requires Distinct(segments)
    ensures |IdSet(segments) - gone| == |segments| - Tally(One, segments, gone)
  {
    hide Distinct, IdSet;
    if segments != [] {
      OneMoreId(segments, gone);
      PresentCount(segments[..|segments| - 1], gone);
    } else {
      assert IdSet(segments) == {} by { NoIds(); }
    }
  }

  lemma NoIds()
    ensures IdSet([]) == {}
  {
  }

  /** As many parts as are missing are lost, in every layout. */
  lemma MissingPartsAreLost(parts: seq<Part>, e: FileEntry, gone: set<ArticleId>, lost: set<ArticleId>)
    requires LaysOut(parts, e) && Distinct(Accepted(e.segments)) && gone <= lost
    ensures MissingParts(e, gone) <= LostLength(parts, lost)
    ensures |parts| >= |Accepted(e.segments)| + Absent(e)
  {
    hide Accepted, Distinct, DistinctParts;
    var segments := Accepted(e.segments);
    LostPartsHaveBytes(parts, lost);
    ListedParts(parts);
    IdSetSize(segments);
    PresentCount(segments, gone);
    PresentAreListed(parts, e, gone, lost);
    SubsetSize(PresentIds(parts, lost), IdSet(segments) - gone);
  }

  /** Bytes that do not fit in the articles that may still be there are lost. */
  lemma LostAtLeast(parts: seq<Part>, e: FileEntry, gone: set<ArticleId>, lost: set<ArticleId>)
    requires LaysOut(parts, e) && Distinct(Accepted(e.segments)) && gone <= lost && PresentSized(e, gone)
    ensures Size(parts) - Room(e, gone) <= LostLength(parts, lost)
  {
    hide Accepted, Distinct, DistinctParts;
    var segments := Accepted(e.segments);
    PresentAreListed(parts, e, gone, lost);
    PresentFits(parts, lost, segments);
    TallyMonotone(Encoded, segments, PresentIds(parts, lost), IdSet(segments) - gone);
  }

  /** No layout loses less. */
  lemma LeastLostHolds(parts: seq<Part>, e: FileEntry, gone: set<ArticleId>, lost: set<ArticleId>)
    requires LaysOut(parts, e) && Distinct(Accepted(e.segments)) && gone <= lost
    ensures LeastLost(e, gone) <= LostLength(parts, lost)
  {
    hide Accepted, Distinct, DistinctParts, PresentSized, Room, MissingParts;
    MissingPartsAreLost(parts, e, gone, lost);
    if PresentSized(e, gone) {
      LostAtLeast(parts, e, gone, lost);
    }
  }

  lemma LeastDamageHolds(
    parts: seq<Part>, e: FileEntry, gone: set<ArticleId>, lost: set<ArticleId>, sliceSize: int)
    requires LaysOut(parts, e) && Distinct(Accepted(e.segments)) && gone <= lost && sliceSize > 0
    ensures LeastDamage(e, gone, sliceSize) <= Damage(parts, lost, sliceSize)
    ensures MissingParts(e, gone) > 0 ==> LeastDamage(e, gone, sliceSize) >= 1
  {
    hide LaysOut, Distinct, LeastLost;
    LeastLostHolds(parts, e, gone, lost);
    LostBytesCount(parts, lost);
    BytesFitTheirSlices(LostBytes(parts, lost), sliceSize);
    CeilDivMonotone(LeastLost(e, gone), LostLength(parts, lost), sliceSize);
  }

  /** The floor claims no more than what cannot fit in the articles not known to be
      gone, if and only if the sums can be subtracted. */
  lemma FloorIsTrueIff(f: NzbDataFile, e: FileEntry, gone: set<ArticleId>, blockSize: int)
    requires FileAgrees(f, e, gone, blockSize) && HasExtent(f) && f.boundsConsistent
    requires f.listedWithBytes == f.listed && f.missingListedWithBytes == f.missingListed
    requires e.size <= INT64_MAX
    ensures var unanswered := Total(Encoded, Accepted(e.segments)) - Tally(Encoded, Accepted(e.segments), gone);
            MinLostBytes(f) <= Max(1, e.size - unanswered) <==> FloorFits(e, gone)
  {
    var segments := Accepted(e.segments);
    CountBelow(segments, gone);
    TallyMonotone(Encoded, segments, gone * IdSet(segments), IdSet(segments));
    TallySame(Encoded, segments, gone, gone * IdSet(segments));
    FloorArithmetic(f, e, Total(Encoded, segments), Tally(Encoded, segments, gone));
  }

  lemma FloorArithmetic(f: NzbDataFile, e: FileEntry, listed: int, missing: int)
    requires 0 <= missing <= listed && 0 <= e.size == f.size <= INT64_MAX
    requires f.listedBytesUpper == Saturate(listed) && Sum(f.missingBytesUpper) == missing
    requires f.boundsConsistent && f.listed >= f.missingListed
    requires f.listedWithBytes == f.listed && f.missingListedWithBytes == f.missingListed
    ensures MinLostBytes(f) <= Max(1, e.size - (listed - missing))
       <==> listed <= INT64_MAX || e.size - 1 <= INT64_MAX - Saturate(missing) || missing == listed
  {
  }

  lemma PresentAreListed(parts: seq<Part>, e: FileEntry, gone: set<ArticleId>, lost: set<ArticleId>)
    requires PartIds(parts) == EntryIds(e) && gone <= lost
    ensures PresentIds(parts, lost) <= EntryIds(e) && PresentIds(parts, lost) !! gone
  {
  }

  /** Whether the floor is used at all: every article that may be present is sized. */
  lemma FloorIsUsedIff(f: NzbDataFile, e: FileEntry, gone: set<ArticleId>, blockSize: int)
    requires FileAgrees(f, e, gone, blockSize) && Distinct(Accepted(e.segments))
    ensures f.listedWithBytes - f.missingListedWithBytes == f.listed - f.missingListed <==> PresentSized(e, gone)
    ensures Room(e, gone) == Total(Encoded, Accepted(e.segments)) - Tally(Encoded, Accepted(e.segments), gone)
  {
    var segments := Accepted(e.segments);
    var all := IdSet(segments);
    hide Accepted, Distinct;
    TallySplit(Encoded, segments, all, gone * all);
    TallySplit(Sized, segments, all, gone * all);
    TallySplit(One, segments, all, gone * all);
    TallySame(Encoded, segments, gone, gone * all);
    TallySame(Sized, segments, gone, gone * all);
    TallySame(One, segments, gone, gone * all);
    assert all - gone * all == all - gone;
    CountBelow(segments, all);
    SizedBelow(segments, all - gone);
  }

  /** Where the sums can be subtracted, the bound of the check is never above the least
      damage. */
  lemma FloorFitsSuffices(f: NzbDataFile, e: FileEntry, gone: set<ArticleId>, blockSize: int)
    requires FileAgrees(f, e, gone, blockSize) && Distinct(Accepted(e.segments)) && blockSize > 0
    requires FloorFits(e, gone) && e.size <= INT64_MAX
    ensures FileLow(f, blockSize) <= LeastDamage(e, gone, blockSize)
  {
    hide MinLostBytes, LeastLost, FloorFits, Accepted, Distinct, FileAgrees, PresentSized, Room;
    FloorFacts(f, e, gone, blockSize);
    if f.missing > 0 {
      CeilDivMonotone(1, LeastLost(e, gone), blockSize);
      if HasExtent(f) {
        FloorIsUsedIff(f, e, gone, blockSize);
        FloorBelowLeast(f, e, gone);
        CeilDivMonotone(MinLostBytes(f), LeastLost(e, gone), blockSize);
      }
    }
  }

  lemma FloorFacts(f: NzbDataFile, e: FileEntry, gone: set<ArticleId>, blockSize: int)
    requires FileAgrees(f, e, gone, blockSize)
    ensures f.size == e.size && f.missing == MissingParts(e, gone)
    ensures f.listedBytesUpper == Saturate(Total(Encoded, Accepted(e.segments)))
    ensures Sum(f.missingBytesUpper) == Tally(Encoded, Accepted(e.segments), gone)
  {
  }

  lemma FloorBelowLeast(f: NzbDataFile, e: FileEntry, gone: set<ArticleId>)
    requires var segments := Accepted(e.segments);
             && f.size == e.size && f.missing == MissingParts(e, gone)
             && f.listedBytesUpper == Saturate(Total(Encoded, segments))
             && Sum(f.missingBytesUpper) == Tally(Encoded, segments, gone)
             && (f.listedWithBytes - f.missingListedWithBytes == f.listed - f.missingListed <==> PresentSized(e, gone))
             && Room(e, gone) == Total(Encoded, segments) - Tally(Encoded, segments, gone)
    requires FloorFits(e, gone) && e.size <= INT64_MAX && f.missing > 0 && HasExtent(f)
    ensures MinLostBytes(f) <= LeastLost(e, gone)
  {
    hide PresentSized, MissingParts;
  }

  /** The lower bound of one file holds for every layout, as far as it is not above the
      least damage. */
  lemma FileLowHolds(
    f: NzbDataFile, parts: seq<Part>, e: FileEntry, gone: set<ArticleId>, lost: set<ArticleId>, blockSize: int)
    requires FileAgrees(f, e, gone, blockSize) && LaysOut(parts, e) && Distinct(Accepted(e.segments))
    requires gone <= lost && blockSize > 0 && FileLow(f, blockSize) <= LeastDamage(e, gone, blockSize)
    ensures FileLow(f, blockSize) <= Damage(parts, lost, blockSize)
  {
    LeastDamageHolds(parts, e, gone, lost, blockSize);
  }

  /** Nothing is lost that the check has not counted. */
  ghost predicate AllLossesKnown(parts: seq<Part>, e: FileEntry, gone: set<ArticleId>, lost: set<ArticleId>) {
    && lost * EntryIds(e) == gone * EntryIds(e)
    && (e.expected == 0 ==> |parts| == |Accepted(e.segments)|)
  }

  lemma PartsAreListed(parts: seq<Part>, e: FileEntry)
    requires LaysOut(parts, e) && Distinct(Accepted(e.segments))
    requires Absent(e) == 0 && (e.expected == 0 ==> |parts| == |Accepted(e.segments)|)
    ensures forall p | p in parts :: p.id.Some? && p.id.value in EntryIds(e)
  {
    ListedParts(parts);
    IdSetSize(Accepted(e.segments));
    forall p | p in parts ensures p.id.Some? && p.id.value in EntryIds(e) {
      assert p.id.value in PartIds(parts);
    }
  }

  function LostIds(parts: seq<Part>, lost: set<ArticleId>): set<ArticleId> {
    set p | p in parts && p.id.Some? && p.id.value in lost :: p.id.value
  }

  lemma PrefixLost(parts: seq<Part>, lost: set<ArticleId>)
    requires parts != [] && DistinctParts(parts)
    ensures var init, last := parts[..|parts| - 1], parts[|parts| - 1];
            && (last.id.Some? && last.id.value in lost ==>
                  && LostIds(parts, lost) == LostIds(init, lost) + {last.id.value}
                  && last.id.value !in LostIds(init, lost))
            && (!(last.id.Some? && last.id.value in lost) ==> LostIds(parts, lost) == LostIds(init, lost))
  {
  }

  ghost predicate AllFit(parts: seq<Part>, segments: seq<Segment>) {
    forall p | p in parts :: p.length > 0 && p.id.Some? && FitsBody(p, segments)
  }

  lemma PrefixFits(parts: seq<Part>, segments: seq<Segment>)
    requires parts != [] && AllFit(parts, segments) && DistinctParts(parts)
    ensures var init, last := parts[..|parts| - 1], parts[|parts| - 1];
            && AllFit(init, segments) && DistinctParts(init) && init + [last] == parts
            && last.length > 0 && last.id.Some? && FitsBody(last, segments)
            && Size(parts) == Size(init) + last.length
  {
  }

  /** Each lost article touches no more slices than its encoded size allows. */
  lemma {:induction false} DamageAtMostSpread(
    parts: seq<Part>, lost: set<ArticleId>, segments: seq<Segment>, sliceSize: int)
    requires sliceSize > 0 && DistinctParts(parts) && Distinct(segments) && Size(parts) <= INT64_MAX
    requires AllFit(parts, segments)
    requires LostIds(parts, lost) <= IdSet(segments)
    requires forall s | s in segments && s.id in LostIds(parts, lost) :: s.bytes > 0
    ensures Damage(parts, lost, sliceSize) <= Tally(Spread(sliceSize), segments, LostIds(parts, lost))
  {
    if parts != [] {
      var init, last := parts[..|parts| - 1], parts[|parts| - 1];
      hide AllFit, FitsBody, DistinctParts, LostIds, LostBytes, Damage, Distinct, WeightOf, Tally;
      PrefixFits(parts, segments);
      PrefixLost(parts, lost);
      DamageAtMostSpread(init, lost, segments, sliceSize);
      if last.id.value in lost {
        var s := SegmentOf(segments, last.id.value);
        TallyInsert(Spread(sliceSize), segments, LostIds(init, lost), s);
        assert last.length <= Size(parts);
        OneMoreLoss(init, lost, last, s, segments, sliceSize);
      }
    }
  }

  lemma SegmentOf(segments: seq<Segment>, id: ArticleId) returns (s: Segment)
    requires id in IdSet(segments)
    ensures s in segments && s.id == id
  {
    s :| s in segments && s.id == id;
  }

  lemma RunTouches(start: int, last: Part, s: Segment, segments: seq<Segment>, sliceSize: int)
    requires sliceSize > 0 && s in segments && s.bytes > 0 && last.id == Some(s.id)
    requires FitsBody(last, segments) && 0 < last.length <= INT64_MAX
    ensures |Touched(Interval(start, last.length), sliceSize)| <= WeightOf(Spread(sliceSize), s)
  {
    hide Interval, Touched;
    assert last.length <= s.bytes;
    IntervalTouchesAtMost(start, last.length, sliceSize);
    CeilDivMonotone(last.length - 1, s.bytes - 1, sliceSize);
  }

  lemma OneMoreLoss(
    init: seq<Part>, lost: set<ArticleId>, last: Part, s: Segment, segments: seq<Segment>, sliceSize: int)
    requires sliceSize > 0 && s in segments && s.bytes > 0 && last.id == Some(s.id)
    requires FitsBody(last, segments) && 0 < last.length <= INT64_MAX && s.id in lost
    ensures Damage(init + [last], lost, sliceSize)
         <= Damage(init, lost, sliceSize) + WeightOf(Spread(sliceSize), s)
  {
    hide FitsBody, Interval, LostBytes, WeightOf, Touched;
    var run := Interval(Size(init), last.length);
    OneMoreLostRun(init, lost, last);
    RunTouches(Size(init), last, s, segments, sliceSize);
    TouchedUnion(LostBytes(init, lost), run, sliceSize);
    UnionSize(Touched(LostBytes(init, lost), sliceSize), Touched(run, sliceSize));
  }

  lemma OneMoreLostRun(init: seq<Part>, lost: set<ArticleId>, last: Part)
    requires IsLost(last, lost)
    ensures LostBytes(init + [last], lost) == LostBytes(init, lost) + Interval(Size(init), last.length)
  {
  }

  /** The upper bound of one file holds once every loss in it is known. */
  lemma FileHighHolds(
    f: NzbDataFile, parts: seq<Part>, e: FileEntry, gone: set<ArticleId>, lost: set<ArticleId>, blockSize: int)
    requires FileAgrees(f, e, gone, blockSize) && LaysOut(parts, e) && Distinct(Accepted(e.segments))
    requires AllLossesKnown(parts, e, gone, lost) && blockSize > 0
    requires f.missing > 0 ==> HasExtent(f)
    ensures Damage(parts, lost, blockSize) <= FileHigh(f, blockSize)
  {
    hide LaysOut, AllLossesKnown, Damage, Distinct, Accepted;
    if f.missing <= 0 {
      NoLossNoDamage(parts, e, gone, lost, blockSize);
    } else {
      DamageWithinFile(parts, e, lost, blockSize);
      if EveryLossSized(f) {
        SpreadHolds(f, parts, e, gone, lost, blockSize);
      }
    }
  }

  lemma NoLossNoDamage(parts: seq<Part>, e: FileEntry, gone: set<ArticleId>, lost: set<ArticleId>, blockSize: int)
    requires LaysOut(parts, e) && Distinct(Accepted(e.segments)) && AllLossesKnown(parts, e, gone, lost)
    requires blockSize > 0 && Absent(e) + Tally(One, Accepted(e.segments), gone) <= 0
    ensures Damage(parts, lost, blockSize) == 0
  {
    CountBelow(Accepted(e.segments), gone);
    PartsAreListed(parts, e);
    forall p | p in parts ensures !IsLost(p, lost) {
      var s := SegmentOf(Accepted(e.segments), p.id.value);
      assert s.id in EntryIds(e) && s.id !in gone * EntryIds(e);
    }
    NothingLost(parts, lost);
    assert Touched({}, blockSize) == {};
  }

  lemma DamageWithinFile(parts: seq<Part>, e: FileEntry, lost: set<ArticleId>, blockSize: int)
    requires LaysOut(parts, e) && e.size > 0 && blockSize > 0
    ensures Damage(parts, lost, blockSize) <= CeilDiv(e.size, blockSize) <= INT64_MAX
  {
    TouchedWithinFile(LostBytes(parts, lost), Size(parts), blockSize);
    CeilDivNoMoreThanBytes(e.size, blockSize);
  }

  lemma SpreadHolds(
    f: NzbDataFile, parts: seq<Part>, e: FileEntry, gone: set<ArticleId>, lost: set<ArticleId>, blockSize: int)
    requires FileAgrees(f, e, gone, blockSize) && LaysOut(parts, e) && Distinct(Accepted(e.segments))
    requires AllLossesKnown(parts, e, gone, lost) && blockSize > 0
    requires HasExtent(f) && EveryLossSized(f)
    ensures Damage(parts, lost, blockSize) <= Sum(TouchedBounds(f.missingBytesUpper, blockSize))
  {
    var segments := Accepted(e.segments);
    PartsAreListed(parts, e);
    SizedBelow(segments, gone);
    LostAreGone(parts, e, gone, lost);
    DamageAtMostSpread(parts, lost, segments, blockSize);
    TallyMonotone(Spread(blockSize), segments, LostIds(parts, lost), gone);
  }

  lemma LostAreGone(parts: seq<Part>, e: FileEntry, gone: set<ArticleId>, lost: set<ArticleId>)
    requires PartIds(parts) == EntryIds(e) && lost * EntryIds(e) == gone * EntryIds(e)
    ensures LostIds(parts, lost) <= EntryIds(e) && LostIds(parts, lost) <= gone
  {
    forall id | id in LostIds(parts, lost) ensures id in EntryIds(e) && id in gone {
      assert id in PartIds(parts) && id in lost * EntryIds(e);
    }
  }

  // ---- The whole post ----

  /** The post loses at least the least damage of each file. */
  lemma LeastDamagesHold(
    entries: seq<FileEntry>, layout: seq<seq<Part>>, gone: set<ArticleId>, lost: set<ArticleId>, sliceSize: int)
    requires DistinctEntries(entries) && LayoutsFit(layout, entries) && gone <= lost && sliceSize > 0
    ensures Sum(LeastDamages(entries, gone, sliceSize)) <= Sum(Damages(layout, lost, sliceSize))
  {
    hide LeastDamage, Damage, LaysOut, Distinct;
    forall i | 0 <= i < |entries|
      ensures LeastDamage(entries[i], gone, sliceSize) <= Damage(layout[i], lost, sliceSize)
    {
      LeastDamageHolds(layout[i], entries[i], gone, lost, sliceSize);
    }
    SumMonotone(LeastDamages(entries, gone, sliceSize), Damages(layout, lost, sliceSize));
  }

  /** The lower end of the damage range never exceeds the true damage, as far as it is not
      above the least damage of the post. */
  lemma DamageLowHolds(l: Listing, c: Check, t: Truth, gone: set<ArticleId>)
    requires DistinctIds(l) && Consistent(t, l, c.settings) && gone <= t.lost
    requires DamageLow(c.files, t.sliceSize, c.counts.missingData) <= Sum(LeastDamages(l.data, gone, t.sliceSize))
    ensures DamageLow(c.files, t.sliceSize, c.counts.missingData) <= TrueDamage(t)
  {
    hide DistinctEntries, LayoutsFit, LeastDamages, Damages, DamageLow, Survives;
    LeastDamagesHold(l.data, t.layout, gone, t.lost, t.sliceSize);
  }

  /** If the sums of every file can be subtracted, no bound is above the least damage. */
  lemma NothingCut(l: Listing, c: Check, answered: set<ArticleId>, gone: set<ArticleId>)
    requires DistinctIds(l) && Accounts(l, c, answered, gone) && c.settings.blockSize > 0
    requires forall i | 0 <= i < |l.data| :: FloorFits(l.data[i], gone) && l.data[i].size <= INT64_MAX
    ensures Sum(Lows(c.files, c.settings.blockSize)) <= Sum(LeastDamages(l.data, gone, c.settings.blockSize))
  {
    hide VolumesAgree, IndexAgrees, CountersAgree, FileAgrees, FloorFits, LeastDamage, FileLow, Distinct;
    forall i | 0 <= i < |c.files|
      ensures FileLow(c.files[i], c.settings.blockSize) <= LeastDamage(l.data[i], gone, c.settings.blockSize)
    {
      FloorFitsSuffices(c.files[i], l.data[i], gone, c.settings.blockSize);
    }
    SumMonotone(Lows(c.files, c.settings.blockSize), LeastDamages(l.data, gone, c.settings.blockSize));
  }

  /** A counted data loss is a damaged slice, whatever the slice size. */
  lemma DamageIsReal(l: Listing, c: Check, t: Truth, answered: set<ArticleId>, gone: set<ArticleId>)
    requires DistinctIds(l) && Accounts(l, c, answered, gone) && Consistent(t, l, c.settings)
    requires gone <= t.lost && c.counts.missingData > 0
    ensures TrueDamage(t) >= 1
  {
    hide FilesAgree, VolumesAgree, IndexAgrees, LayoutsFit, Survives, DistinctEntries, Losses, Damages;
    LossesDamage(c.files, l.data, t.layout, gone, t.lost, c.settings.blockSize, t.sliceSize);
  }

  lemma LossesDamage(
    files: seq<NzbDataFile>, entries: seq<FileEntry>, layout: seq<seq<Part>>, gone: set<ArticleId>,
    lost: set<ArticleId>, blockSize: int, sliceSize: int)
    requires DistinctEntries(entries) && FilesAgree(files, entries, gone, blockSize)
    requires LayoutsFit(layout, entries) && gone <= lost && sliceSize > 0
    requires Sum(Losses(files)) > 0
    ensures Sum(Damages(layout, lost, sliceSize)) >= 1
  {
    var i := PositiveTerm(Losses(files));
    assert FileAgrees(files[i], entries[i], gone, blockSize);
    LeastDamageHolds(layout[i], entries[i], gone, lost, sliceSize);
    SumNonNegative(Damages(layout, lost, sliceSize));
  }

  lemma {:induction false} PositiveTerm(ns: seq<int>) returns (i: nat)
    requires Sum(ns) > 0
    ensures i < |ns| && ns[i] > 0
  {
    if ns[|ns| - 1] > 0 {
      i := |ns| - 1;
    } else {
      i := PositiveTerm(ns[..|ns| - 1]);
    }
  }

  lemma HighsHold(
    files: seq<NzbDataFile>, entries: seq<FileEntry>, layout: seq<seq<Part>>, gone: set<ArticleId>,
    lost: set<ArticleId>, blockSize: int)
    requires DistinctEntries(entries) && FilesAgree(files, entries, gone, blockSize)
    requires LayoutsFit(layout, entries) && blockSize > 0
    requires forall i | 0 <= i < |entries| :: AllLossesKnown(layout[i], entries[i], gone, lost)
    requires forall f | f in files && f.missing > 0 :: HasExtent(f)
    ensures Sum(Damages(layout, lost, blockSize)) <= Sum(Highs(files, blockSize))
  {
    forall i | 0 <= i < |files| ensures Damage(layout[i], lost, blockSize) <= FileHigh(files[i], blockSize) {
      assert files[i] in files;
      FileHighHolds(files[i], layout[i], entries[i], gone, lost, blockSize);
    }
    SumMonotone(Damages(layout, lost, blockSize), Highs(files, blockSize));
  }

  /** The bounds of the files add up to no less than the true damage, once every loss is
      known; so does the upper end of the range, unless the sum was cut to an int. */
  lemma DamageHighHolds(l: Listing, c: Check, t: Truth, answered: set<ArticleId>, gone: set<ArticleId>)
    requires DistinctIds(l) && Accounts(l, c, answered, gone) && Consistent(t, l, c.settings)
    requires c.settings.blockSize == t.sliceSize && c.counts.missingData > 0
    requires forall i | 0 <= i < |l.data| :: AllLossesKnown(t.layout[i], l.data[i], gone, t.lost)
    requires DamagedRange(c.files, t.sliceSize, c.counts.missingData).high >= 0
    ensures TrueDamage(t) <= Sum(Highs(c.files, t.sliceSize))
    ensures Sum(Highs(c.files, t.sliceSize)) <= INT32_MAX ==>
              TrueDamage(t) <= DamagedRange(c.files, t.sliceSize, c.counts.missingData).high
  {
    hide FilesAgree, VolumesAgree, IndexAgrees, LayoutsFit, Survives, DistinctEntries, Losses, Highs, Damages,
      AllLossesKnown;
    HighsHold(c.files, l.data, t.layout, gone, t.lost, t.sliceSize);
  }

  /** No more packets survive than the best-case count ... */
  lemma BestCaseHolds(l: Listing, c: Check, t: Truth, answered: set<ArticleId>, gone: set<ArticleId>)
    requires Accounts(l, c, answered, gone) && Consistent(t, l, c.settings) && gone <= t.lost
    ensures TrueSurvivors(t) <= Sum(BestBlocks(c.volumes)) <= Sum(AllBlocks(c.volumes))
  {
    forall i | 0 <= i < |c.volumes|
      ensures t.survivors[i] <= BestBlocks(c.volumes)[i] <= AllBlocks(c.volumes)[i]
    {
      var e := l.volumes[i];
      assert Survives(t.survivors[i], e, t.lost) && c.volumes[i] == VolumeFacts(e, answered, gone);
      CountBelow(Accepted(e.segments), gone);
    }
    SumMonotone(t.survivors, BestBlocks(c.volumes));
    SumMonotone(BestBlocks(c.volumes), AllBlocks(c.volumes));
  }

  /** ... and no fewer than the guaranteed count. */
  lemma GuaranteeHolds(l: Listing, c: Check, t: Truth, answered: set<ArticleId>, gone: set<ArticleId>)
    requires Accounts(l, c, answered, gone) && Consistent(t, l, c.settings) && Truthful(t, answered, gone)
    ensures Sum(GuaranteedBlocks(c.volumes)) <= TrueSurvivors(t)
  {
    forall i | 0 <= i < |c.volumes| ensures GuaranteedBlocks(c.volumes)[i] <= t.survivors[i] {
      var e := l.volumes[i];
      assert Survives(t.survivors[i], e, t.lost) && c.volumes[i] == VolumeFacts(e, answered, gone);
      CountBelow(Accepted(e.segments), gone);
      CountBelow(Accepted(e.segments), answered);
    }
    SumMonotone(GuaranteedBlocks(c.volumes), t.survivors);
  }

  /** What each verdict says about the counts, with clipping undone. */
  lemma UnrecoverableCounts(c: Check)
    requires BeyondRepair(Verdict(c))
    ensures c.counts.missingData > 0
    ensures || Sum(BestBlocks(c.volumes)) <= 0 || Sum(AllBlocks(c.volumes)) <= 0
            || (&& c.settings.blockSizeMeasured
                && Sum(BestBlocks(c.volumes)) < Max(1, DamageLow(c.files, c.settings.blockSize, c.counts.missingData))
                && (c.settings.blockSize <= 0 ==> Sum(BestBlocks(c.volumes)) < 1))
  {
  }

  /** Both sides of the favourable comparison were cut to an int, and the one that counts
      the damage lost more. */
  predicate CutInFavour(c: Check) {
    && Sum(GuaranteedBlocks(c.volumes)) >= INT32_MAX
    && Sum(Highs(c.files, c.settings.blockSize)) > Sum(GuaranteedBlocks(c.volumes))
  }

  /** A favourable verdict compares the counts as they were before they were cut, if and
      only if it was not such a cut that made it favourable. It cannot have been one while
      fewer blocks are guaranteed than the largest int. */
  lemma FavourableIff(c: Check)
    requires Verdict(c) == ProbablyRecoverable
    ensures c.counts.missingData > 0 && c.settings.blockSizeMeasured && c.settings.blockSize > 0
    ensures DamagedRange(c.files, c.settings.blockSize, c.counts.missingData).high >= 0
    ensures Sum(Highs(c.files, c.settings.blockSize)) <= Sum(GuaranteedBlocks(c.volumes)) <==> !CutInFavour(c)
    ensures Sum(GuaranteedBlocks(c.volumes)) < INT32_MAX ==>
              Sum(Highs(c.files, c.settings.blockSize)) <= Sum(GuaranteedBlocks(c.volumes))
  {
  }

  /** An unrecoverable verdict is a proof wherever it is justified: more slices are damaged
      than recovery blocks survive, in every layout the NZB allows. `Tightness` shows that
      it is a proof nowhere else. */
  lemma UnrecoverableIsProof(l: Listing, c: Check, t: Truth, answered: set<ArticleId>, gone: set<ArticleId>)
    requires DistinctIds(l) && Accounts(l, c, answered, gone) && Consistent(t, l, c.settings)
    requires gone <= t.lost && Justified(l, c, gone)
    requires BeyondRepair(Verdict(c))
    ensures TrueDamage(t) > TrueSurvivors(t)
  {
    hide DistinctIds, Accounts, Verdict, DamageLow, LeastDamages, BestBlocks, AllBlocks, TrueDamage, TrueSurvivors;
    hide LayoutsFit, Survives, Sum, BeyondRepair;
    UnrecoverableCounts(c);
    DamageIsReal(l, c, t, answered, gone);
    BestCaseHolds(l, c, t, answered, gone);
    LeastDamageOfPost(l, c, t, gone);
  }

  lemma LeastDamageOfPost(l: Listing, c: Check, t: Truth, gone: set<ArticleId>)
    requires DistinctIds(l) && Consistent(t, l, c.settings) && gone <= t.lost
    ensures Sum(LeastDamages(l.data, gone, t.sliceSize)) <= TrueDamage(t)
  {
    hide DistinctEntries, LayoutsFit, LeastDamages, Damages, Survives;
    LeastDamagesHold(l.data, t.layout, gone, t.lost, t.sliceSize);
  }

  /** It is justified whenever no byte sum was cut: neither saturation of the block sums
      nor clipping of the counts can turn it into a lie. */
  lemma VerdictIsJustified(l: Listing, c: Check, answered: set<ArticleId>, gone: set<ArticleId>)
    requires DistinctIds(l) && Accounts(l, c, answered, gone) && BeyondRepair(Verdict(c))
    requires forall i | 0 <= i < |l.data| :: FloorFits(l.data[i], gone) && l.data[i].size <= INT64_MAX
    ensures Justified(l, c, gone)
  {
    hide DistinctIds, Verdict, LeastDamages, BestBlocks, AllBlocks, Sum, BeyondRepair, FloorFits, Lows;
    hide FilesAgree, VolumesAgree, IndexAgrees, Losses;
    UnrecoverableCounts(c);
    if c.settings.blockSizeMeasured && c.settings.blockSize > 0 {
      NothingCut(l, c, answered, gone);
      AllBelow(l, c, answered, gone);
      LeastIsPositive(l, c, answered, gone);
    }
  }

  lemma AllBelow(l: Listing, c: Check, answered: set<ArticleId>, gone: set<ArticleId>)
    requires Accounts(l, c, answered, gone)
    ensures Sum(BestBlocks(c.volumes)) <= Sum(AllBlocks(c.volumes))
  {
    hide FilesAgree, IndexAgrees, CountersAgree;
    SumMonotone(BestBlocks(c.volumes), AllBlocks(c.volumes));
  }

  lemma LeastIsPositive(l: Listing, c: Check, answered: set<ArticleId>, gone: set<ArticleId>)
    requires Accounts(l, c, answered, gone) && c.counts.missingData > 0 && c.settings.blockSize > 0
    ensures Sum(LeastDamages(l.data, gone, c.settings.blockSize)) >= 1
  {
    hide VolumesAgree, IndexAgrees, LeastLost, FileAgrees, MissingParts;
    var i := PositiveTerm(Losses(c.files));
    FloorFacts(c.files[i], l.data[i], gone, c.settings.blockSize);
    CeilDivMonotone(1, LeastLost(l.data[i], gone), c.settings.blockSize);
    SumNonNegative(LeastDamages(l.data, gone, c.settings.blockSize));
  }

  /** A favourable verdict of a finished check is a proof too, unless a cut made it so: the
      damage fits in the surviving blocks. */
  lemma ProbablyRecoverableIsProof(
    l: Listing, c: Check, t: Truth, answered: set<ArticleId>, gone: set<ArticleId>)
    requires DistinctIds(l) && Accounts(l, c, answered, gone) && Consistent(t, l, c.settings)
    requires Truthful(t, answered, gone)
    requires forall i | 0 <= i < |l.data| :: AllLossesKnown(t.layout[i], l.data[i], gone, t.lost)
    requires Verdict(c) == ProbablyRecoverable && !CutInFavour(c)
    ensures TrueDamage(t) <= TrueSurvivors(t)
  {
    hide DistinctIds, Accounts, Verdict, DamagedRange, AllLossesKnown, GuaranteedBlocks, Damages, Truthful;
    hide Highs, CutInFavour;
    FavourableIff(c);
    DamageHighHolds(l, c, t, answered, gone);
    GuaranteeHolds(l, c, t, answered, gone);
  }
}
