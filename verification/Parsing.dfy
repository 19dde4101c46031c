/** Reading a document in which no Message-ID is listed twice leaves a check whose
    counters agree with it before the first answer, and whose stacks hold every listed
    article exactly once, PAR2 articles in one and data articles in the other. */
module Parsing {
  import opened Arithmetic
  import opened Slices
  import opened NzbFacts
  import opened CheckState
  import opened Accounting

  ghost predicate NoDup(ids: seq<ArticleId>) {
    forall i, j | 0 <= i < j < |ids| :: ids[i] != ids[j]
  }

  function Elements(ids: seq<ArticleId>): set<ArticleId> {
    set id | id in ids
  }

  /** The queue holds each of these ids once, and nothing else. */
  ghost predicate Holds(queue: seq<ArticleId>, ids: set<ArticleId>) {
    NoDup(queue) && Elements(queue) == ids
  }

  lemma {:induction false} NoDupSize(ids: seq<ArticleId>)
    requires NoDup(ids)
    ensures |Elements(ids)| == |ids|
  {
    if ids != [] {
      var init, last := ids[..|ids| - 1], ids[|ids| - 1];
      NoDupSize(init);
      assert Elements(ids) == Elements(init) + {last};
    }
  }

  lemma HoldsBoth(a: seq<ArticleId>, b: seq<ArticleId>, xs: set<ArticleId>, ys: set<ArticleId>)
    requires Holds(a, xs) && Holds(b, ys) && xs !! ys
    ensures Holds(a + b, xs + ys)
  {
    forall i, j | 0 <= i < j < |a + b| ensures (a + b)[i] != (a + b)[j] {
      if i < |a| <= j {
        assert (a + b)[i] in Elements(a) && (a + b)[j] in Elements(b);
      }
    }
    assert Elements(a + b) == Elements(a) + Elements(b);
  }

  lemma IdsHold(segments: seq<Segment>)
    requires Distinct(segments)
    ensures Holds(Ids(segments), IdSet(segments))
  {
  }

  lemma TotalAppend(w: Weight, segments: seq<Segment>, s: Segment)
    ensures Total(w, segments + [s]) == Total(w, segments) + WeightOf(w, s)
  {
    var all := segments + [s];
    assert all[..|all| - 1] == segments;
    assert s in all && s.id in IdSet(all);
    forall t | t in segments ensures t.id in IdSet(segments) && t.id in IdSet(all) {
      assert t in all;
    }
    TallySame(w, segments, IdSet(segments), IdSet(all));
  }

  // ---- The segments of one file ----

  function IndexAll(index: Index, o: Owner, segments: seq<Segment>): Index {
    if segments == [] then index else
      Indexed(IndexAll(index, o, segments[..|segments| - 1]), o, segments[|segments| - 1])
  }

  function SizeAll(f: NzbDataFile, segments: seq<Segment>): NzbDataFile {
    if segments == [] then f else
      FileSizing(SizeAll(f, segments[..|segments| - 1]), segments[|segments| - 1].bytes)
  }

  /** The check once these segments of the file being read have been taken in. */
  function TakenData(c: Check, kept: seq<Segment>): Check
    requires c.files != []
  {
    var i := |c.files| - 1;
    c.(dataQueue := c.dataQueue + Ids(kept), index := IndexAll(c.index, DataFile(i), kept),
       files := c.files[i := SizeAll(c.files[i], kept)])
  }

  function TakenPar2(c: Check, kept: seq<Segment>): Check
    requires c.volumes != []
  {
    c.(par2Queue := c.par2Queue + Ids(kept), index := IndexAll(c.index, Volume(|c.volumes| - 1), kept),
       counts := c.counts.(par2Articles := c.counts.par2Articles + |kept|))
  }

  function TakenIn(c: Check, isPar2: bool, kept: seq<Segment>): Check
    requires if isPar2 then c.volumes != [] else c.files != []
  {
    if isPar2 then TakenPar2(c, kept) else TakenData(c, kept)
  }

  lemma TakenOneMore(c: Check, isPar2: bool, kept: seq<Segment>, s: Segment)
    requires if isPar2 then c.volumes != [] else c.files != []
    requires IsValidMessageId(s.id)
    ensures ReadSegment(TakenIn(c, isPar2, kept), isPar2, s) == TakenIn(c, isPar2, kept + [s])
  {
  }

  /** Malformed ids are left out; the others are taken in one after the other. */
  lemma {:induction false} ReadSegmentsIs(c: Check, isPar2: bool, segments: seq<Segment>)
    requires if isPar2 then c.volumes != [] else c.files != []
    ensures ReadSegments(c, isPar2, segments) == TakenIn(c, isPar2, Accepted(segments))
  {
    hide IsValidMessageId;
    if segments == [] {
    } else {
      var init, s := segments[..|segments| - 1], segments[|segments| - 1];
      ReadSegmentsIs(c, isPar2, init);
      if IsValidMessageId(s.id) {
        hide TakenIn;
        TakenOneMore(c, isPar2, Accepted(init), s);
      } else {
        assert Accepted(segments) == Accepted(init) + [] == Accepted(init);
      }
    }
  }

  lemma {:induction false} SizeAllIs(f: NzbDataFile, segments: seq<Segment>)
    requires f.listedWithBytes == f.listedBytesUpper == 0
    ensures SizeAll(f, segments) ==
            f.(listedWithBytes := Total(Sized, segments), listedBytesUpper := Saturate(Total(Encoded, segments)))
  {
    if segments != [] {
      var init, s := segments[..|segments| - 1], segments[|segments| - 1];
      SizeAllIs(f, init);
      assert segments == init + [s];
      TotalAppend(Sized, init, s);
      TotalAppend(Encoded, init, s);
      SaturatedAddIsSaturatedSum(Total(Encoded, init), Max(0, s.bytes));
    }
  }

  /** Every id of the file is indexed under it, and no other entry is touched. */
  lemma {:induction false} IndexAllIs(index: Index, o: Owner, segments: seq<Segment>)
    ensures IndexAll(index, o, segments).owner.Keys == index.owner.Keys + IdSet(segments)
    ensures forall id | id in IdSet(segments) :: IndexAll(index, o, segments).owner[id] == o
    ensures forall id | id in index.owner && id !in IdSet(segments) ::
              IndexAll(index, o, segments).owner[id] == index.owner[id]
  {
    if segments != [] {
      var init, s := segments[..|segments| - 1], segments[|segments| - 1];
      IndexAllIs(index, o, init);
      assert segments == init + [s];
      assert IdSet(segments) == IdSet(init) + {s.id};
    }
  }

  /** Sizes of ids that are not among these segments stay as they were. */
  lemma {:induction false} SizesKept(index: Index, o: Owner, segments: seq<Segment>, id: ArticleId)
    requires o.Volume? || id !in IdSet(segments)
    ensures var after := IndexAll(index, o, segments);
            && (id in after.bytesUpper <==> id in index.bytesUpper)
            && (id in after.bytesUpper ==> after.bytesUpper[id] == index.bytesUpper[id])
  {
    if segments != [] {
      var init, s := segments[..|segments| - 1], segments[|segments| - 1];
      assert s in segments;
      SizesKept(index, o, init, id);
    }
  }

  /** Each segment's own size is recorded when it has one. */
  lemma {:induction false} SizesRead(index: Index, i: nat, segments: seq<Segment>, k: nat)
    requires Distinct(segments) && k < |segments| && segments[k].id !in index.bytesUpper
    ensures SizeKnown(IndexAll(index, DataFile(i), segments).bytesUpper, segments[k])
  {
    var init, s := segments[..|segments| - 1], segments[|segments| - 1];
    if k == |segments| - 1 {
      DistinctFromOthers(segments, k);
      SizesKept(index, DataFile(i), init, s.id);
    } else {
      assert init[k] == segments[k];
      SizesRead(index, i, init, k);
      assert s.id != segments[k].id;
    }
  }

  // ---- One file ----

  lemma ReadDataFile(c: Check, e: FileEntry) returns (f: NzbDataFile)
    requires !e.isPar2
    ensures FileAgrees(f, e, {}, c.settings.blockSize) && f.missing == Absent(e)
    ensures var kept, n := Accepted(e.segments), c.counts;
            ReadFile(c, e) ==
            c.(dataQueue := c.dataQueue + Ids(kept),
               index := IndexAll(c.index, DataFile(|c.files|), kept),
               files := c.files + [f],
               counts := n.(missing := n.missing + Absent(e), missingData := n.missingData + Absent(e)))
  {
    var kept, o := Accepted(e.segments), OpenFile(c, e);
    ReadSegmentsIs(o, false, e.segments);
    SizeAllIs(o.files[|c.files|], kept);
    f := FileClosing(SizeAll(o.files[|c.files|], kept), |kept|);
    FreshFileAgrees(e, c.settings.blockSize, f);
    hide Accepted, ReadSegments, SizeAll, IndexAll, FileClosing, FileAgrees;
    assert ReadFile(c, e).files == c.files + [f];
  }

  lemma FreshFileAgrees(e: FileEntry, blockSize: int, f: NzbDataFile)
    requires var kept := Accepted(e.segments);
             f == FileClosing(
               NzbDataFile(e.expected, 0, Total(Sized, kept), 0, 0, 0, e.size,
                           Saturate(Total(Encoded, kept)), [], true), |kept|)
    ensures FileAgrees(f, e, {}, blockSize) && f.missing == Absent(e)
  {
    var kept := Accepted(e.segments);
    TallyOfNothing(One, kept);
    TallyOfNothing(Sized, kept);
    TallyOfNothing(Encoded, kept);
    TallyOfNothing(Spread(blockSize), kept);
  }

  lemma ReadVolumeFile(c: Check, e: FileEntry)
    requires e.isPar2
    ensures var kept, n := Accepted(e.segments), c.counts;
            ReadFile(c, e) ==
            c.(par2Queue := c.par2Queue + Ids(kept),
               index := IndexAll(c.index, Volume(|c.volumes|), kept),
               volumes := c.volumes + [VolumeFacts(e, {}, {})],
               counts := n.(missing := n.missing + Absent(e), missingPar2 := n.missingPar2 + Absent(e),
                            par2Articles := n.par2Articles + |kept|))
  {
    hide Accepted, ReadSegments, IndexAll, VolumeClosing, VolumeFacts;
    ReadSegmentsIs(OpenFile(c, e), true, e.segments);
    FreshVolume(c, e);
    assert ReadFile(c, e).volumes == c.volumes + [VolumeFacts(e, {}, {})];
  }

  lemma FreshVolume(c: Check, e: FileEntry)
    requires e.isPar2
    ensures VolumeClosing(OpenFile(c, e).volumes[|c.volumes|], |Accepted(e.segments)|) == VolumeFacts(e, {}, {})
  {
    hide Accepted;
    TallyOfNothing(One, Accepted(e.segments));
  }

  // ---- The whole document ----

  /** Nothing has been answered yet, and every listed article waits in its stack. */
  ghost predicate Untouched(l: Listing, c: Check) {
    && FilesAgree(c.files, l.data, {}, c.settings.blockSize)
    && VolumesAgree(c.volumes, l.volumes, {}, {})
    && IndexAgrees(c.index, l) && c.index.bytesUpper.Keys <= l.dataIds
    && Holds(c.par2Queue, l.par2Ids) && Holds(c.dataQueue, l.dataIds)
    && c.counts == Counts(
         0, Sum(Losses(c.files)) + Sum(VolumeLosses(c.volumes)), 0, |l.par2Ids|, 0,
         Sum(VolumeLosses(c.volumes)), Sum(Losses(c.files)))
  }

  function WithFile(l: Listing, e: FileEntry): Listing {
    if e.isPar2 then l.(volumes := l.volumes + [e], par2Ids := l.par2Ids + EntryIds(e))
    else l.(data := l.data + [e], dataIds := l.dataIds + EntryIds(e))
  }

  lemma ListingStep(doc: NzbDocument)
    requires doc != []
    ensures ListingOf(doc) == WithFile(ListingOf(doc[..|doc| - 1]), doc[|doc| - 1])
  {
  }

  /** Dropping the last file leaves the rest distinct, and shares no id with it. */
  lemma DistinctStep(l: Listing, e: FileEntry)
    requires DistinctIds(WithFile(l, e)) && l.dataIds == ListedIds(l.data) && l.par2Ids == ListedIds(l.volumes)
    ensures DistinctIds(l) && Distinct(Accepted(e.segments))
    ensures EntryIds(e) !! l.dataIds && EntryIds(e) !! l.par2Ids
  {
    var entries := if e.isPar2 then l.volumes else l.data;
    DistinctPrefix(entries, e);
  }

  lemma DistinctPrefix(entries: seq<FileEntry>, e: FileEntry)
    requires DistinctEntries(entries + [e])
    ensures DistinctEntries(entries) && Distinct(Accepted(e.segments)) && EntryIds(e) !! ListedIds(entries)
  {
    var all := entries + [e];
    assert forall i | 0 <= i < |entries| :: all[i] == entries[i];
    assert all[|entries|] == e;
    forall id | id in ListedIds(entries) ensures id !in EntryIds(e) {
      var i, s := ListedIn(entries, id);
      assert EntryIds(all[i]) !! EntryIds(all[|entries|]);
    }
  }

  lemma IndexStep(l: Listing, index: Index, e: FileEntry, i: nat)
    requires IndexAgrees(index, l) && index.bytesUpper.Keys <= l.dataIds
    requires Distinct(Accepted(e.segments)) && EntryIds(e) !! l.dataIds && EntryIds(e) !! l.par2Ids
    requires l.dataIds == ListedIds(l.data)
    requires i == if e.isPar2 then |l.volumes| else |l.data|
    ensures var o := if e.isPar2 then Volume(i) else DataFile(i);
            var after := IndexAll(index, o, Accepted(e.segments));
            IndexAgrees(after, WithFile(l, e)) && after.bytesUpper.Keys <= WithFile(l, e).dataIds
  {
    var o, kept := if e.isPar2 then Volume(i) else DataFile(i), Accepted(e.segments);
    var after, l' := IndexAll(index, o, kept), WithFile(l, e);
    IndexAllIs(index, o, kept);
    assert after.owner.Keys == l'.dataIds + l'.par2Ids;
    forall id | id in after.owner ensures OwnerAgrees(after.owner[id], id, l') {
      if id !in EntryIds(e) {
        assert OwnerAgrees(index.owner[id], id, l);
      }
    }
    forall id | id in after.bytesUpper ensures id in l'.dataIds {
      if o.Volume? || id !in EntryIds(e) {
        SizesKept(index, o, kept, id);
      }
    }
    forall k | 0 <= k < |l'.data| ensures SizesKnown(after.bytesUpper, l'.data[k]) {
      if k < |l.data| {
        SizesStep(l, index, o, e, k);
      } else {
        NewSizesKnown(l, index, e);
      }
    }
  }

  lemma NewSizesKnown(l: Listing, index: Index, e: FileEntry)
    requires index.bytesUpper.Keys <= l.dataIds && EntryIds(e) !! l.dataIds
    requires Distinct(Accepted(e.segments))
    ensures SizesKnown(IndexAll(index, DataFile(|l.data|), Accepted(e.segments)).bytesUpper, e)
  {
    hide Distinct, Accepted, SizeKnown;
    var kept := Accepted(e.segments);
    forall s | s in kept ensures SizeKnown(IndexAll(index, DataFile(|l.data|), kept).bytesUpper, s) {
      var j :| 0 <= j < |kept| && kept[j] == s;
      assert s.id in EntryIds(e);
      SizesRead(index, |l.data|, kept, j);
    }
  }

  lemma SizesStep(l: Listing, index: Index, o: Owner, e: FileEntry, k: nat)
    requires IndexAgrees(index, l) && k < |l.data|
    requires EntryIds(e) !! l.dataIds && l.dataIds == ListedIds(l.data)
    ensures SizesKnown(IndexAll(index, o, Accepted(e.segments)).bytesUpper, l.data[k])
  {
    assert SizesKnown(index.bytesUpper, l.data[k]) && l.data[k] in l.data;
    forall s | s in Accepted(l.data[k].segments)
      ensures SizeKnown(IndexAll(index, o, Accepted(e.segments)).bytesUpper, s)
    {
      assert SizeKnown(index.bytesUpper, s) && s.id in EntryIds(l.data[k]) && s.id in l.dataIds;
      SizesKept(index, o, Accepted(e.segments), s.id);
    }
  }

  lemma QueueStep(queue: seq<ArticleId>, ids: set<ArticleId>, e: FileEntry)
    requires Holds(queue, ids) && Distinct(Accepted(e.segments)) && EntryIds(e) !! ids
    ensures Holds(queue + Ids(Accepted(e.segments)), ids + EntryIds(e))
    ensures |ids + EntryIds(e)| == |ids| + |Accepted(e.segments)|
  {
    IdsHold(Accepted(e.segments));
    HoldsBoth(queue, Ids(Accepted(e.segments)), ids, EntryIds(e));
    NoDupSize(Ids(Accepted(e.segments)));
  }

  lemma FilesStep(
    files: seq<NzbDataFile>, entries: seq<FileEntry>, blockSize: int, f: NzbDataFile, e: FileEntry)
    requires FilesAgree(files, entries, {}, blockSize) && FileAgrees(f, e, {}, blockSize)
    requires f.missing == Absent(e)
    ensures FilesAgree(files + [f], entries + [e], {}, blockSize)
    ensures Sum(Losses(files + [f])) == Sum(Losses(files)) + Absent(e)
  {
    SumAppend(Losses(files), Absent(e));
    assert Losses(files + [f]) == Losses(files) + [Absent(e)];
  }

  lemma VolumesStep(volumes: seq<Par2Volume>, entries: seq<FileEntry>, e: FileEntry)
    requires VolumesAgree(volumes, entries, {}, {})
    ensures VolumesAgree(volumes + [VolumeFacts(e, {}, {})], entries + [e], {}, {})
    ensures Sum(VolumeLosses(volumes + [VolumeFacts(e, {}, {})])) == Sum(VolumeLosses(volumes)) + Absent(e)
  {
    TallyOfNothing(One, Accepted(e.segments));
    SumAppend(VolumeLosses(volumes), Absent(e));
    assert VolumeLosses(volumes + [VolumeFacts(e, {}, {})]) == VolumeLosses(volumes) + [Absent(e)];
  }

  lemma DataFileStep(l: Listing, c: Check, e: FileEntry)
    requires Untouched(l, c) && !e.isPar2 && l.dataIds == ListedIds(l.data)
    requires Distinct(Accepted(e.segments)) && EntryIds(e) !! l.dataIds && EntryIds(e) !! l.par2Ids
    ensures Untouched(WithFile(l, e), ReadFile(c, e))
  {
    hide ReadFile, IndexAgrees, Holds, FileAgrees, VolumesAgree, IndexAll, Accepted, EntryIds, Distinct, Losses;
    var f := ReadDataFile(c, e);
    IndexStep(l, c.index, e, |l.data|);
    QueueStep(c.dataQueue, l.dataIds, e);
    FilesStep(c.files, l.data, c.settings.blockSize, f, e);
  }

  lemma VolumeFileStep(l: Listing, c: Check, e: FileEntry)
    requires Untouched(l, c) && e.isPar2 && l.dataIds == ListedIds(l.data)
    requires Distinct(Accepted(e.segments)) && EntryIds(e) !! l.dataIds && EntryIds(e) !! l.par2Ids
    ensures Untouched(WithFile(l, e), ReadFile(c, e))
  {
    hide ReadFile, IndexAgrees, Holds, FilesAgree, VolumeFacts, IndexAll, Accepted, EntryIds, Distinct, VolumeLosses;
    ReadVolumeFile(c, e);
    IndexStep(l, c.index, e, |l.volumes|);
    QueueStep(c.par2Queue, l.par2Ids, e);
    VolumesStep(c.volumes, l.volumes, e);
  }

  lemma {:induction false} ReadFilesUntouched(doc: NzbDocument, settings: Settings)
    requires DistinctIds(ListingOf(doc))
    ensures Untouched(ListingOf(doc), ReadFiles(Unread(settings), doc))
  {
    if doc != [] {
      var init, e := doc[..|doc| - 1], doc[|doc| - 1];
      ListingStep(doc);
      DistinctStep(ListingOf(init), e);
      ReadFilesUntouched(init, settings);
      hide DistinctIds, ReadFile, Untouched;
      if e.isPar2 {
        VolumeFileStep(ListingOf(init), ReadFiles(Unread(settings), init), e);
      } else {
        DataFileStep(ListingOf(init), ReadFiles(Unread(settings), init), e);
      }
    }
  }

  lemma {:induction false} NothingAnswered(volumes: seq<Par2Volume>, entries: seq<FileEntry>, gone: set<ArticleId>)
    requires VolumesAgree(volumes, entries, {}, gone)
    ensures Sum(VolumeAnswers(volumes)) == 0
  {
    if volumes != [] {
      var last := |volumes| - 1;
      TallyOfNothing(One, Accepted(entries[last].segments));
      NothingAnswered(volumes[..last], entries[..last], gone);
      assert VolumeAnswers(volumes)[..last] == VolumeAnswers(volumes[..last]);
    }
  }

  /** The state parsing leaves is the one the document calls for. */
  lemma ParsedAccounts(doc: NzbDocument, settings: Settings)
    requires DistinctIds(ListingOf(doc))
    ensures var c, l := Parsed(doc, settings), ListingOf(doc);
            && Accounts(l, c, {}, {})
            && Holds(c.par2Queue, l.par2Ids) && Holds(c.dataQueue, l.dataIds)
            && c.settings == settings && !c.par2PhaseDone && !c.earlyStop && !c.unusable
  {
    var c := ReadFiles(Unread(settings), doc);
    ReadFilesUntouched(doc, settings);
    ReadKeepsSettings(doc, settings);
    NoDupSize(c.par2Queue);
    NoDupSize(c.dataQueue);
    NothingAnswered(c.volumes, ListingOf(doc).volumes, {});
  }

  lemma {:induction false} ReadKeepsSettings(doc: NzbDocument, settings: Settings)
    ensures var c := ReadFiles(Unread(settings), doc);
            c.settings == settings && !c.par2PhaseDone && !c.earlyStop && !c.unusable
  {
    if doc != [] {
      var init, e := doc[..|doc| - 1], doc[|doc| - 1];
      ReadKeepsSettings(init, settings);
      var c := ReadFiles(Unread(settings), init);
      if e.isPar2 {
        ReadVolumeFile(c, e);
      } else {
        var f := ReadDataFile(c, e);
      }
    }
  }
}
