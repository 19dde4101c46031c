/** Where the verdict stops being a proof: two posts that show why the theorems of
    `Recovery` need their conditions. */
module CheckLimits {
  import opened Options
  import opened Slices
  import opened NzbFacts
  import opened CheckState
  import opened Accounting
  import opened Recovery

  const TWO_GIB: int := INT32_MAX + 1

  lemma ValidIds()
    ensures IsValidMessageId("<a>") && IsValidMessageId("<b>") && IsValidMessageId("<c>")
  {
  }

  lemma SmallSums(a: int, b: int)
    ensures Sum([a]) == a && Sum([a, b]) == a + b
  {
  }

  lemma SingleSegment(s: Segment)
    requires IsValidMessageId(s.id)
    ensures Accepted([s]) == [s] && IdSet([s]) == {s.id}
    ensures forall w, ids :: Tally(w, [s], ids) == if s.id in ids then WeightOf(w, s) else 0
  {
  }

  lemma TwoSegments(s: Segment, t: Segment)
    requires IsValidMessageId(s.id) && IsValidMessageId(t.id) && s.id != t.id
    ensures Accepted([s, t]) == [s, t] && IdSet([s, t]) == {s.id, t.id} && Distinct([s, t])
    ensures forall w, ids ::
              Tally(w, [s, t], ids)
              == (if s.id in ids then WeightOf(w, s) else 0) + (if t.id in ids then WeightOf(w, t) else 0)
  {
    SingleSegment(s);
    assert [s, t][..1] == [s];
  }

  // ---- Both sides of the favourable comparison are cut at the largest int ----

  const BIG: FileEntry := FileEntry(false, false, 0, 1, TWO_GIB, [])
  const BASE: FileEntry := FileEntry(true, false, 0, 1, 0, [Segment("<a>", 1)])
  const BIG_VOLUME: FileEntry := FileEntry(true, true, INT32_MAX, 1, 0, [Segment("<b>", 1)])

  /** One file of 2^31 bytes whose only part the NZB does not list, and one recovery
      block fewer than its slices. */
  const CLIPPED_LISTING: Listing := Listing([BIG], [BASE, BIG_VOLUME], {}, {"<a>", "<b>"})

  const CLIPPED_CHECK: Check := Check(
    [], [], Index(map["<a>" := Volume(0), "<b>" := Volume(1)], map[]),
    [Par2Volume(0, false, 1, 1, 1, 0, 0), Par2Volume(INT32_MAX, true, 1, 1, 1, 0, 0)],
    [NzbDataFile(1, 0, 0, 1, 0, 0, TWO_GIB, 0, [], true)],
    Counts(2, 1, 2, 2, 2, 0, 1), Settings(1, true, false), true, false, false)

  const CLIPPED_TRUTH: Truth := Truth([[Part(TWO_GIB, None)]], 1, [0, INT32_MAX], {})

  lemma OneSegment(e: FileEntry, s: Segment)
    requires e.segments == [s] && IsValidMessageId(s.id)
    ensures EntryIds(e) == {s.id} && Distinct(Accepted(e.segments)) && |Accepted(e.segments)| == 1
    ensures forall w, ids :: Tally(w, Accepted(e.segments), ids) == if s.id in ids then WeightOf(w, s) else 0
  {
  }

  lemma NoSegment(e: FileEntry)
    requires e.segments == []
    ensures EntryIds(e) == {} && Distinct(Accepted(e.segments)) && Accepted(e.segments) == []
  {
  }

  lemma ClippedIds()
    ensures DistinctIds(CLIPPED_LISTING)
    ensures EntryIds(BIG) == {} && EntryIds(BASE) == {"<a>"} && EntryIds(BIG_VOLUME) == {"<b>"}
  {
    hide IsValidMessageId, Accepted, EntryIds, ListedIds, Distinct, Tally;
    ValidIds();
    NoSegment(BIG);
    OneSegment(BASE, Segment("<a>", 1));
    OneSegment(BIG_VOLUME, Segment("<b>", 1));
    ListedIn1(BIG);
    ListedIn2(BASE, BIG_VOLUME);
    assert "<a>" != "<b>" by { assert "<a>"[1] != "<b>"[1]; }
  }

  lemma ListedIn1(e: FileEntry)
    ensures ListedIds([e]) == EntryIds(e)
  {
  }

  lemma ListedIn2(e: FileEntry, f: FileEntry)
    ensures ListedIds([e, f]) == EntryIds(e) + EntryIds(f)
  {
  }

  lemma ClippedFacts()
    ensures FilesAgree(CLIPPED_CHECK.files, CLIPPED_LISTING.data, {}, 1)
    ensures VolumesAgree(CLIPPED_CHECK.volumes, CLIPPED_LISTING.volumes, {"<a>", "<b>"}, {})
  {
    ValidIds();
    NoSegment(BIG);
    OneSegment(BASE, Segment("<a>", 1));
    OneSegment(BIG_VOLUME, Segment("<b>", 1));
    hide IsValidMessageId, Accepted, EntryIds, Distinct;
    assert TouchedBounds([], 1) == [];
  }

  lemma ClippedSums()
    ensures Sum(Losses(CLIPPED_CHECK.files)) == 1
    ensures Sum(VolumeLosses(CLIPPED_CHECK.volumes)) == 0 && Sum(VolumeAnswers(CLIPPED_CHECK.volumes)) == 2
  {
  }

  lemma ClippedAccounts()
    ensures DistinctIds(CLIPPED_LISTING)
    ensures Accounts(CLIPPED_LISTING, CLIPPED_CHECK, {"<a>", "<b>"}, {})
  {
    ClippedIds();
    ClippedFacts();
    ClippedSums();
    hide FilesAgree, VolumesAgree, EntryIds, Losses, VolumeLosses, VolumeAnswers, DistinctIds;
  }

  lemma ClippedRanges()
    ensures DamagedRange(CLIPPED_CHECK.files, 1, 1) == BlockRange(INT32_MAX, INT32_MAX)
    ensures UsableRange(CLIPPED_CHECK.volumes) == BlockRange(INT32_MAX, INT32_MAX)
    ensures TotalRecovery(CLIPPED_CHECK.volumes) == INT32_MAX && CutInFavour(CLIPPED_CHECK)
  {
    var c := CLIPPED_CHECK;
    assert Lows(c.files, 1) == [TWO_GIB] && Highs(c.files, 1) == [TWO_GIB];
    assert GuaranteedBlocks(c.volumes) == AllBlocks(c.volumes) == BestBlocks(c.volumes) == [0, INT32_MAX];
    SmallSums(TWO_GIB, 0);
    SmallSums(0, INT32_MAX);
    ClippedSums();
  }

  lemma ClippedVerdict()
    ensures Verdict(CLIPPED_CHECK) == ProbablyRecoverable
  {
    ClippedRanges();
    assert CLIPPED_CHECK.volumes[0] in CLIPPED_CHECK.volumes;
  }

  lemma UnitSlices(bytes: set<int>)
    ensures Touched(bytes, 1) == bytes
  {
    forall b ensures b in Touched(bytes, 1) <==> b in bytes {
      if b in bytes {
        assert b / 1 in Touched(bytes, 1);
      }
    }
  }

  lemma SizeOfOne(p: Part)
    ensures Size([p]) == p.length
    ensures LostBytes([p], {}) == if p.id.None? then Interval(0, p.length) else {}
  {
  }

  /** A file whose one part is lost, cut into slices of one byte. */
  lemma WholeFileLost(n: nat)
    ensures Damage([Part(n, None)], {}, 1) == n
  {
    SizeOfOne(Part(n, None));
    UnitSlices(Interval(0, n));
  }

  lemma OneFileDamage(t: Truth, n: nat)
    requires t.layout == [[Part(n, None)]] && t.sliceSize == 1 && t.lost == {}
    ensures TrueDamage(t) == n
  {
    WholeFileLost(n);
    SmallSums(n, 0);
    hide Damage, Sum;
    assert Damages(t.layout, t.lost, t.sliceSize) == [n];
  }

  lemma ClippedDamage()
    ensures TrueDamage(CLIPPED_TRUTH) == TWO_GIB && TrueSurvivors(CLIPPED_TRUTH) == INT32_MAX
  {
    SmallSums(0, INT32_MAX);
    hide TrueDamage, Sum;
    OneFileDamage(CLIPPED_TRUTH, TWO_GIB);
  }

  lemma UnlistedFile(n: nat, e: FileEntry)
    requires e.segments == [] && e.expected == 1 && e.size == n && 0 < n <= INT64_MAX
    ensures LaysOut([Part(n, None)], e) && AllLossesKnown([Part(n, None)], e, {}, {})
  {
  }

  lemma ClippedConsistent()
    ensures Consistent(CLIPPED_TRUTH, CLIPPED_LISTING, CLIPPED_CHECK.settings)
    ensures AllLossesKnown(CLIPPED_TRUTH.layout[0], BIG, {}, {})
  {
    ValidIds();
    UnlistedFile(TWO_GIB, BIG);
    OneSegment(BASE, Segment("<a>", 1));
    OneSegment(BIG_VOLUME, Segment("<b>", 1));
    hide IsValidMessageId, Accepted, EntryIds, Distinct, LaysOut;
    assert Survives(0, BASE, {}) && Survives(INT32_MAX, BIG_VOLUME, {});
  }

  /** A post that lost one slice more than it has recovery blocks is called probably
      recoverable: 2^31 and 2^31 - 1 are the same int once both are cut. */
  lemma ClippingMisleads()
    ensures DistinctIds(CLIPPED_LISTING) && Accounts(CLIPPED_LISTING, CLIPPED_CHECK, {"<a>", "<b>"}, {})
    ensures Consistent(CLIPPED_TRUTH, CLIPPED_LISTING, CLIPPED_CHECK.settings)
    ensures Truthful(CLIPPED_TRUTH, {"<a>", "<b>"}, {})
    ensures AllLossesKnown(CLIPPED_TRUTH.layout[0], BIG, {}, CLIPPED_TRUTH.lost)
    ensures Verdict(CLIPPED_CHECK) == ProbablyRecoverable && CutInFavour(CLIPPED_CHECK)
    ensures TrueDamage(CLIPPED_TRUTH) > TrueSurvivors(CLIPPED_TRUTH)
  {
    hide CutInFavour;
    ClippedRanges();
    ClippedAccounts();
    ClippedConsistent();
    ClippedVerdict();
    ClippedDamage();
  }

  // ---- Byte sums that saturate ----

  const HUGE: FileEntry := FileEntry(
    false, false, 0, 2, 10, [Segment("<a>", INT64_MAX), Segment("<b>", INT64_MAX)])

  const HUGE_FILE: NzbDataFile := NzbDataFile(2, 2, 2, 1, 1, 1, 10, INT64_MAX, [INT64_MAX], true)

  lemma HugeFacts()
    ensures HUGE_FILE.(missingBytesUpper := []) == FileFacts(HUGE, {"<a>"})
    ensures Distinct(Accepted(HUGE.segments)) && EntryIds(HUGE) == {"<a>", "<b>"}
    ensures Accepted(HUGE.segments) == HUGE.segments
    ensures !FloorFits(HUGE, {"<a>"})
    ensures Tally(Encoded, Accepted(HUGE.segments), {"<a>"}) == INT64_MAX
         == Tally(Spread(1), Accepted(HUGE.segments), {"<a>"})
  {
    ValidIds();
    TwoSegments(Segment("<a>", INT64_MAX), Segment("<b>", INT64_MAX));
    hide IsValidMessageId, Accepted, Distinct, Tally;
  }

  lemma HugeLosses()
    ensures Sum([INT64_MAX]) == Sum(TouchedBounds([INT64_MAX], 1)) == INT64_MAX
  {
  }

  lemma TwoParts(p: Part, q: Part)
    requires p.id != q.id && p.id.Some? && q.id.Some?
    ensures Size([p, q]) == p.length + q.length && DistinctParts([p, q])
    ensures PartIds([p, q]) == {p.id.value, q.id.value}
  {
    assert [p, q][..1] == [p] && [p][..0] == [];
    assert Size([p]) == p.length;
  }

  lemma FirstLost(p: Part, q: Part, lost: set<ArticleId>)
    requires IsLost(p, lost) && !IsLost(q, lost)
    ensures Damage([p, q], lost, 1) == p.length
  {
    assert [p, q][..1] == [p] && [p][..0] == [];
    assert LostBytes([p, q], lost) == LostBytes([p], lost) + {};
    assert LostBytes([p], lost) == {} + Interval(0, p.length);
    UnitSlices(Interval(0, p.length));
  }

  lemma OnlyFirst(p: Part, q: Part)
    requires p.id == Some("<a>") && q.id == Some("<b>")
    ensures IsLost(p, {"<a>"}) && !IsLost(q, {"<a>"})
  {
  }

  lemma HugeBodies(parts: seq<Part>)
    requires parts == [Part(1, Some("<a>")), Part(9, Some("<b>"))]
    ensures forall p | p in parts :: p.length > 0 && FitsBody(p, HUGE.segments)
  {
  }

  lemma HugeLayout(parts: seq<Part>)
    requires parts == [Part(1, Some("<a>")), Part(9, Some("<b>"))]
    ensures LaysOut(parts, HUGE) && Damage(parts, {"<a>"}, 1) == 1
  {
    hide Accepted, Size, PartIds, Damage, Distinct, FileFacts, FloorFits, EntryIds, Tally, DistinctParts, FitsBody, IsLost;
    HugeBodies(parts);
    HugeFacts();
    assert "<a>" != "<b>" by { assert "<a>"[1] != "<b>"[1]; }
    TwoParts(parts[0], parts[1]);
    assert IsLost(parts[0], {"<a>"}) && !IsLost(parts[1], {"<a>"}) by { OnlyFirst(parts[0], parts[1]); }
    FirstLost(parts[0], parts[1], {"<a>"});
  }

  lemma HugeAgrees()
    ensures FileAgrees(HUGE_FILE, HUGE, {"<a>"}, 1)
  {
    HugeFacts();
    HugeLosses();
    hide FileFacts, Accepted, Tally, Sum;
  }

  lemma HugeLow()
    ensures FileLow(HUGE_FILE, 1) == 10
  {
    HugeLosses();
    hide Sum;
    assert MinLostBytes(HUGE_FILE) == 10;
  }

  /** Two encoded sizes of 2^63 - 1 saturate to one, so losing either leaves no byte for
      the other and the file of ten bytes is called lost whole; one byte of it was. */
  lemma SaturationMisleads(parts: seq<Part>)
    requires parts == [Part(1, Some("<a>")), Part(9, Some("<b>"))]
    ensures FileAgrees(HUGE_FILE, HUGE, {"<a>"}, 1) && Distinct(Accepted(HUGE.segments))
    ensures LaysOut(parts, HUGE) && !FloorFits(HUGE, {"<a>"})
    ensures FileLow(HUGE_FILE, 1) == 10 > 1 == Damage(parts, {"<a>"}, 1)
    ensures FileLow(HUGE_FILE, 1) > LeastDamage(HUGE, {"<a>"}, 1)
  {
    hide FileAgrees, Accepted, LaysOut, Damage, FloorFits, Distinct, FileLow, LeastDamage;
    HugeAgrees();
    HugeLow();
    HugeLayout(parts);
    HugeFacts();
    LeastDamageHolds(parts, HUGE, {"<a>"}, {"<a>"}, 1);
  }
}
