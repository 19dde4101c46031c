/** What an NZB document lists, and what the check knows about it.

    `FileEntry` is one <file> element as the parser read it. `Par2Volume` and
    `NzbDataFile` are the counters the check keeps for it; `VolumeFacts` and
    `FileFacts` say what those counters must be, given which articles have been
    answered and which of those are gone. */
module NzbFacts {
  import opened Arithmetic
  import opened Slices

  type ArticleId = string

  const MAX_MSG_ID_LEN: int := 250

  predicate IsValidMessageId(id: ArticleId) {
    && 3 <= |id| <= MAX_MSG_ID_LEN
    && id[0] == '<' && id[|id| - 1] == '>'
    && forall i | 0 < i < |id| - 1 :: ' ' < id[i] <= '~' && id[i] != '<' && id[i] != '>'
  }

  /** One <segment>; `bytes` is not positive when the attribute is missing or unreadable. */
  datatype Segment = Segment(id: ArticleId, bytes: int)

  /** One <file>. `expected` is the (x/N) counter of the subject, `size` the size the
      subject ends with; either is 0 when the subject does not say. */
  datatype FileEntry = FileEntry(
    isPar2: bool, isVolume: bool, blocks: nat, expected: nat, size: nat, segments: seq<Segment>)

  type NzbDocument = seq<FileEntry>

  datatype Par2Volume = Par2Volume(
    blocks: int, isVolume: bool, expected: int, listed: int, checked: int,
    missing: int, missingListed: int)
  {
    predicate IsIntact() {
      expected > 0 && listed >= expected && checked >= listed && missing == 0
    }

    predicate AnythingLeft() {
      listed > missingListed
    }
  }

  datatype NzbDataFile = NzbDataFile(
    expected: int, listed: int, listedWithBytes: int, missing: int, missingListed: int,
    missingListedWithBytes: int, size: int, listedBytesUpper: int,
    missingBytesUpper: seq<int>, boundsConsistent: bool)

  // ---- Segments ----

  function Accepted(segments: seq<Segment>): (kept: seq<Segment>)
    ensures forall s :: s in kept <==> s in segments && IsValidMessageId(s.id)
  {
    if segments == [] then [] else
      var last := segments[|segments| - 1];
      Accepted(segments[..|segments| - 1]) + (if IsValidMessageId(last.id) then [last] else [])
  }

  function Ids(segments: seq<Segment>): (ids: seq<ArticleId>)
    ensures |ids| == |segments|
    ensures forall i | 0 <= i < |ids| :: ids[i] == segments[i].id
  {
    seq(|segments|, i requires 0 <= i < |segments| => segments[i].id)
  }

  function IdSet(segments: seq<Segment>): set<ArticleId> {
    set s | s in segments :: s.id
  }

  ghost predicate Distinct(segments: seq<Segment>) {
    forall i, j | 0 <= i < j < |segments| :: segments[i].id != segments[j].id
  }

  /** What one article adds to a tally: itself, itself when its size is known, its
      encoded size, or the most slices its payload can touch. */
  datatype Weight = One | Sized | Encoded | Spread(blockSize: int)

  function WeightOf(w: Weight, s: Segment): (n: int)
    ensures 0 <= n
  {
    match w
    case One => 1
    case Sized => if s.bytes > 0 then 1 else 0
    case Encoded => if s.bytes > 0 then s.bytes else 0
    case Spread(blockSize) => MaxBlocksTouched(s.bytes, blockSize)
  }

  /** The total weight of the segments whose id is in `ids`. */
  function Tally(w: Weight, segments: seq<Segment>, ids: set<ArticleId>): (n: int)
    ensures 0 <= n
  {
    if segments == [] then 0 else
      var last := segments[|segments| - 1];
      Tally(w, segments[..|segments| - 1], ids) + (if last.id in ids then WeightOf(w, last) else 0)
  }

  function Total(w: Weight, segments: seq<Segment>): int {
    Tally(w, segments, IdSet(segments))
  }

  lemma {:induction false} TallyMonotone(w: Weight, segments: seq<Segment>, a: set<ArticleId>, b: set<ArticleId>)
    requires forall s | s in segments && s.id in a :: s.id in b
    ensures Tally(w, segments, a) <= Tally(w, segments, b)
  {
    if segments != [] {
      TallyMonotone(w, segments[..|segments| - 1], a, b);
    }
  }

  lemma TallySame(w: Weight, segments: seq<Segment>, a: set<ArticleId>, b: set<ArticleId>)
    requires forall s | s in segments :: s.id in a <==> s.id in b
    ensures Tally(w, segments, a) == Tally(w, segments, b)
  {
  }

  lemma {:induction false} TallyOfNothing(w: Weight, segments: seq<Segment>)
    ensures Tally(w, segments, {}) == 0
  {
    if segments != [] {
      TallyOfNothing(w, segments[..|segments| - 1]);
    }
  }

  lemma DistinctFromOthers(segments: seq<Segment>, i: nat)
    requires Distinct(segments) && i < |segments|
    ensures forall s | s in segments[..i] :: s.id != segments[i].id
  {
  }

  /** One more id adds the weight of its one segment. */
  lemma {:induction false} TallyInsertAt(w: Weight, segments: seq<Segment>, ids: set<ArticleId>, i: nat)
    requires Distinct(segments) && i < |segments| && segments[i].id !in ids
    ensures Tally(w, segments, ids + {segments[i].id}) == Tally(w, segments, ids) + WeightOf(w, segments[i])
  {
    var init, last := segments[..|segments| - 1], segments[|segments| - 1];
    if i == |segments| - 1 {
      DistinctFromOthers(segments, i);
      TallySame(w, init, ids, ids + {last.id});
    } else {
      assert init[i] == segments[i];
      TallyInsertAt(w, init, ids, i);
      assert last.id != segments[i].id;
    }
  }

  lemma TallyInsert(w: Weight, segments: seq<Segment>, ids: set<ArticleId>, s: Segment)
    requires Distinct(segments) && s in segments && s.id !in ids
    ensures Tally(w, segments, ids + {s.id}) == Tally(w, segments, ids) + WeightOf(w, s)
  {
    var i :| 0 <= i < |segments| && segments[i] == s;
    TallyInsertAt(w, segments, ids, i);
  }

  /** A count cannot exceed the number listed; it reaches it only with every id in. */
  lemma {:induction false} CountBelow(segments: seq<Segment>, ids: set<ArticleId>)
    ensures Tally(One, segments, ids) <= |segments|
    ensures Tally(One, segments, ids) == |segments| <==> forall s | s in segments :: s.id in ids
    ensures Tally(One, segments, ids) == 0 <==> forall s | s in segments :: s.id !in ids
  {
    if segments != [] {
      var init, last := segments[..|segments| - 1], segments[|segments| - 1];
      CountBelow(init, ids);
      assert segments == init + [last];
    }
  }

  /** A sized article is counted once by both tallies, an unsized one by one of them. */
  lemma {:induction false} SizedBelow(segments: seq<Segment>, ids: set<ArticleId>)
    ensures Tally(Sized, segments, ids) <= Tally(One, segments, ids)
    ensures Tally(Sized, segments, ids) == Tally(One, segments, ids)
       <==> forall s | s in segments && s.id in ids :: s.bytes > 0
  {
    if segments != [] {
      var init, last := segments[..|segments| - 1], segments[|segments| - 1];
      SizedBelow(init, ids);
      assert segments == init + [last];
    }
  }

  /** A tally splits over a set and the rest. */
  lemma {:induction false} TallySplit(w: Weight, segments: seq<Segment>, ids: set<ArticleId>, part: set<ArticleId>)
    requires part <= ids
    ensures Tally(w, segments, ids) == Tally(w, segments, part) + Tally(w, segments, ids - part)
  {
    if segments != [] {
      TallySplit(w, segments[..|segments| - 1], ids, part);
    }
  }

  // ---- The counters the check must hold ----

  function Absent(e: FileEntry): int {
    Max(0, e.expected - |Accepted(e.segments)|)
  }

  function VolumeFacts(e: FileEntry, answered: set<ArticleId>, gone: set<ArticleId>): Par2Volume {
    var segments := Accepted(e.segments);
    Par2Volume(
      if e.isVolume then e.blocks else 0, e.isVolume, e.expected, |segments|,
      Tally(One, segments, answered),
      Absent(e) + Tally(One, segments, gone), Tally(One, segments, gone))
  }

  /** Not so when every part is listed with its size and all of them together are too
      short for the file announced. */
  predicate BoundsConsistent(e: FileEntry) {
    var segments := Accepted(e.segments);
    !(&& e.expected > 0 && |segments| >= e.expected
      && Total(Sized, segments) == |segments|
      && Saturate(Total(Encoded, segments)) < e.size)
  }

  /** Everything but `missingBytesUpper`, whose order depends on the run. */
  function FileFacts(e: FileEntry, gone: set<ArticleId>): NzbDataFile {
    var segments := Accepted(e.segments);
    NzbDataFile(
      e.expected, |segments|, Total(Sized, segments),
      Absent(e) + Tally(One, segments, gone), Tally(One, segments, gone), Tally(Sized, segments, gone),
      e.size, Saturate(Total(Encoded, segments)), [], BoundsConsistent(e))
  }

  function TouchedBounds(bytes: seq<int>, blockSize: int): (bounds: seq<int>)
    ensures |bounds| == |bytes|
    ensures forall i | 0 <= i < |bytes| :: bounds[i] == MaxBlocksTouched(bytes[i], blockSize)
  {
    seq(|bytes|, i requires 0 <= i < |bytes| => MaxBlocksTouched(bytes[i], blockSize))
  }

  /** The counters of one data file agree with the document and the answers so far. */
  ghost predicate FileAgrees(f: NzbDataFile, e: FileEntry, gone: set<ArticleId>, blockSize: int) {
    && f.(missingBytesUpper := []) == FileFacts(e, gone)
    && (forall i | 0 <= i < |f.missingBytesUpper| :: f.missingBytesUpper[i] > 0)
    && Sum(f.missingBytesUpper) == Tally(Encoded, Accepted(e.segments), gone)
    && Sum(TouchedBounds(f.missingBytesUpper, blockSize)) == Tally(Spread(blockSize), Accepted(e.segments), gone)
  }

  // ---- The document ----

  function DataEntries(doc: NzbDocument): (es: seq<FileEntry>)
    ensures forall e :: e in es <==> e in doc && !e.isPar2
  {
    if doc == [] then [] else
      var last := doc[|doc| - 1];
      DataEntries(doc[..|doc| - 1]) + (if last.isPar2 then [] else [last])
  }

  function VolumeEntries(doc: NzbDocument): (es: seq<FileEntry>)
    ensures forall e :: e in es <==> e in doc && e.isPar2
  {
    if doc == [] then [] else
      var last := doc[|doc| - 1];
      VolumeEntries(doc[..|doc| - 1]) + (if last.isPar2 then [last] else [])
  }

  /** The ids a file lists, malformed ones left out. */
  function EntryIds(e: FileEntry): set<ArticleId> {
    IdSet(Accepted(e.segments))
  }

  function ListedIds(entries: seq<FileEntry>): set<ArticleId> {
    set e, id | e in entries && id in EntryIds(e) :: id
  }

  /** Neither within one of these files nor across them is an id listed twice. */
  ghost predicate DistinctEntries(entries: seq<FileEntry>) {
    && (forall i | 0 <= i < |entries| :: Distinct(Accepted(entries[i].segments)))
    && (forall i, j | 0 <= i < j < |entries| :: EntryIds(entries[i]) !! EntryIds(entries[j]))
  }

  /** The files of a document in the two lists the check keeps, with their ids. */
  datatype Listing = Listing(
    data: seq<FileEntry>, volumes: seq<FileEntry>, dataIds: set<ArticleId>, par2Ids: set<ArticleId>)

  function ListingOf(doc: NzbDocument): Listing {
    var data, volumes := DataEntries(doc), VolumeEntries(doc);
    Listing(data, volumes, ListedIds(data), ListedIds(volumes))
  }

  /** No Message-ID is listed twice anywhere. */
  ghost predicate DistinctIds(l: Listing) {
    && DistinctEntries(l.data) && DistinctEntries(l.volumes)
    && l.dataIds == ListedIds(l.data) && l.par2Ids == ListedIds(l.volumes)
    && l.dataIds !! l.par2Ids
  }

  lemma ListedIn(entries: seq<FileEntry>, id: ArticleId) returns (i: nat, s: Segment)
    requires id in ListedIds(entries)
    ensures i < |entries| && id in EntryIds(entries[i])
    ensures s in Accepted(entries[i].segments) && s.id == id
  {
    var e :| e in entries && id in EntryIds(e);
    i :| 0 <= i < |entries| && entries[i] == e;
    s :| s in Accepted(e.segments) && s.id == id;
  }

  lemma ListedOnce(entries: seq<FileEntry>, i: nat, k: nat, id: ArticleId)
    requires DistinctEntries(entries) && i < |entries| && k < |entries|
    requires id in EntryIds(entries[i])
    ensures id in EntryIds(entries[k]) ==> i == k
    ensures id in ListedIds(entries)
  {
  }
}
