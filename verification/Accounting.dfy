/** The counters of a check are a function of the document and of the answers received:
    parsing establishes it and every answer keeps it, in whatever order they come. */
module Accounting {
  import opened Options
  import opened Slices
  import opened NzbFacts
  import opened CheckState

  function VolumeLosses(volumes: seq<Par2Volume>): (ns: seq<int>)
    ensures |ns| == |volumes| && forall i | 0 <= i < |ns| :: ns[i] == volumes[i].missing
  {
    seq(|volumes|, i requires 0 <= i < |volumes| => volumes[i].missing)
  }

  function VolumeAnswers(volumes: seq<Par2Volume>): (ns: seq<int>)
    ensures |ns| == |volumes| && forall i | 0 <= i < |ns| :: ns[i] == volumes[i].checked
  {
    seq(|volumes|, i requires 0 <= i < |volumes| => volumes[i].checked)
  }

  ghost predicate FilesAgree(files: seq<NzbDataFile>, entries: seq<FileEntry>, gone: set<ArticleId>, blockSize: int) {
    && |files| == |entries|
    && forall i | 0 <= i < |files| :: FileAgrees(files[i], entries[i], gone, blockSize)
  }

  ghost predicate VolumesAgree(
    volumes: seq<Par2Volume>, entries: seq<FileEntry>, answered: set<ArticleId>, gone: set<ArticleId>)
  {
    && |volumes| == |entries|
    && forall i | 0 <= i < |volumes| :: volumes[i] == VolumeFacts(entries[i], answered, gone)
  }

  ghost predicate SizeKnown(bytesUpper: map<ArticleId, int>, s: Segment) {
    if s.bytes > 0 then s.id in bytesUpper && bytesUpper[s.id] == s.bytes else s.id !in bytesUpper
  }

  ghost predicate SizesKnown(bytesUpper: map<ArticleId, int>, e: FileEntry) {
    forall s | s in Accepted(e.segments) :: SizeKnown(bytesUpper, s)
  }

  ghost predicate OwnerAgrees(o: Owner, id: ArticleId, l: Listing) {
    match o
    case DataFile(i) => i < |l.data| && id in EntryIds(l.data[i])
    case Volume(i) => i < |l.volumes| && id in EntryIds(l.volumes[i])
  }

  ghost predicate IndexAgrees(index: Index, l: Listing) {
    && index.owner.Keys == l.dataIds + l.par2Ids
    && (forall id | id in index.owner :: OwnerAgrees(index.owner[id], id, l))
    && (forall i | 0 <= i < |l.data| :: SizesKnown(index.bytesUpper, l.data[i]))
  }

  ghost predicate CountersAgree(
    n: Counts, l: Listing, losses: int, volumeLosses: int, volumeAnswers: int, answered: set<ArticleId>)
  {
    && n.par2Answered == volumeAnswers
    && n.missingData == losses
    && n.missingPar2 == volumeLosses
    && n.missing == losses + volumeLosses
    && n.checked == |answered|
    && n.par2Articles == |l.par2Ids|
    && n.listed == |l.par2Ids| + |l.dataIds|
  }

  /** The check knows exactly this: these articles were answered, and these are gone. */
  ghost predicate Accounts(l: Listing, c: Check, answered: set<ArticleId>, gone: set<ArticleId>) {
    && FilesAgree(c.files, l.data, gone, c.settings.blockSize)
    && VolumesAgree(c.volumes, l.volumes, answered, gone)
    && IndexAgrees(c.index, l)
    && CountersAgree(c.counts, l, Sum(Losses(c.files)), Sum(VolumeLosses(c.volumes)),
                     Sum(VolumeAnswers(c.volumes)), answered)
  }

  // ---- One answer ----

  lemma SumUpdate(ns: seq<int>, i: nat, n: int)
    requires i < |ns|
    ensures Sum(ns[i := n]) == Sum(ns) - ns[i] + n
  {
    var last := |ns| - 1;
    if i == last {
      assert ns[i := n][..last] == ns[..last];
    } else {
      SumUpdate(ns[..last], i, n);
      assert ns[i := n][..last] == ns[..last][i := n];
    }
  }

  lemma FactsAfterLoss(e: FileEntry, gone: set<ArticleId>, s: Segment)
    requires Distinct(Accepted(e.segments)) && s in Accepted(e.segments) && s.id !in gone
    ensures FileFacts(e, gone + {s.id})
         == FileLosing(FileFacts(e, gone), s.bytes).(missingBytesUpper := [])
  {
    TallyInsert(One, Accepted(e.segments), gone, s);
    TallyInsert(Sized, Accepted(e.segments), gone, s);
  }

  lemma BytesAfterLoss(bytes: seq<int>, e: FileEntry, gone: set<ArticleId>, blockSize: int, s: Segment)
    requires Sum(bytes) == Tally(Encoded, Accepted(e.segments), gone)
    requires Sum(TouchedBounds(bytes, blockSize)) == Tally(Spread(blockSize), Accepted(e.segments), gone)
    requires Distinct(Accepted(e.segments)) && s in Accepted(e.segments) && s.id !in gone
    ensures var more := if s.bytes <= 0 then bytes else bytes + [s.bytes];
            && Sum(more) == Tally(Encoded, Accepted(e.segments), gone + {s.id})
            && Sum(TouchedBounds(more, blockSize)) == Tally(Spread(blockSize), Accepted(e.segments), gone + {s.id})
  {
    TallyInsert(Encoded, Accepted(e.segments), gone, s);
    TallyInsert(Spread(blockSize), Accepted(e.segments), gone, s);
    SumAppend(bytes, s.bytes);
    SumAppend(TouchedBounds(bytes, blockSize), MaxBlocksTouched(s.bytes, blockSize));
    assert TouchedBounds(bytes + [s.bytes], blockSize)
        == TouchedBounds(bytes, blockSize) + [MaxBlocksTouched(s.bytes, blockSize)];
  }

  lemma FileLoses(f: NzbDataFile, e: FileEntry, gone: set<ArticleId>, blockSize: int, s: Segment)
    requires FileAgrees(f, e, gone, blockSize)
    requires Distinct(Accepted(e.segments)) && s in Accepted(e.segments) && s.id !in gone
    ensures FileAgrees(FileLosing(f, s.bytes), e, gone + {s.id}, blockSize)
  {
    var g := FileLosing(f, s.bytes);
    assert g.(missingBytesUpper := []) == FileFacts(e, gone + {s.id}) by {
      FactsAfterLoss(e, gone, s);
      SameFactsAfterLoss(f, FileFacts(e, gone), s.bytes);
    }
    BytesAfterLoss(f.missingBytesUpper, e, gone, blockSize, s);
    assert g.missingBytesUpper == if s.bytes <= 0 then f.missingBytesUpper else f.missingBytesUpper + [s.bytes];
  }

  lemma SameFactsAfterLoss(f: NzbDataFile, g: NzbDataFile, bytes: int)
    requires f.(missingBytesUpper := []) == g.(missingBytesUpper := [])
    ensures FileLosing(f, bytes).(missingBytesUpper := []) == FileLosing(g, bytes).(missingBytesUpper := [])
  {
  }

  lemma FileUntouched(f: NzbDataFile, e: FileEntry, gone: set<ArticleId>, blockSize: int, id: ArticleId)
    requires FileAgrees(f, e, gone, blockSize)
    requires id !in EntryIds(e)
    ensures FileAgrees(f, e, gone + {id}, blockSize)
  {
    var segments := Accepted(e.segments);
    TallySame(One, segments, gone, gone + {id});
    TallySame(Sized, segments, gone, gone + {id});
    TallySame(Encoded, segments, gone, gone + {id});
    TallySame(Spread(blockSize), segments, gone, gone + {id});
  }

  lemma VolumeUntouched(e: FileEntry, answered: set<ArticleId>, gone: set<ArticleId>, id: ArticleId)
    requires id !in EntryIds(e)
    ensures VolumeFacts(e, answered, gone) == VolumeFacts(e, answered + {id}, gone)
         == VolumeFacts(e, answered, gone + {id})
  {
    TallySame(One, Accepted(e.segments), gone, gone + {id});
    TallySame(One, Accepted(e.segments), answered, answered + {id});
  }

  /** The owner entry of an id names the file that lists it. */
  lemma OwnerIs(l: Listing, index: Index, id: ArticleId)
    requires DistinctIds(l) && IndexAgrees(index, l) && id in index.owner
    ensures OwnerAgrees(index.owner[id], id, l)
    ensures id in l.par2Ids <==> index.owner[id].Volume?
    ensures id in l.dataIds <==> index.owner[id].DataFile?
  {
    assert OwnerAgrees(index.owner[id], id, l);
    match index.owner[id]
    case DataFile(i) => assert l.data[i] in l.data && id in ListedIds(l.data);
    case Volume(i) => assert l.volumes[i] in l.volumes && id in ListedIds(l.volumes);
  }

  lemma FilesAfterLoss(
    files: seq<NzbDataFile>, entries: seq<FileEntry>, gone: set<ArticleId>, blockSize: int, i: nat, s: Segment)
    requires FilesAgree(files, entries, gone, blockSize) && DistinctEntries(entries)
    requires i < |files| && s in Accepted(entries[i].segments) && s.id !in gone
    ensures FilesAgree(files[i := FileLosing(files[i], s.bytes)], entries, gone + {s.id}, blockSize)
    ensures Sum(Losses(files[i := FileLosing(files[i], s.bytes)])) == Sum(Losses(files)) + 1
  {
    var files' := files[i := FileLosing(files[i], s.bytes)];
    forall k | 0 <= k < |files| ensures FileAgrees(files'[k], entries[k], gone + {s.id}, blockSize) {
      if k == i {
        FileLoses(files[i], entries[i], gone, blockSize, s);
      } else {
        ListedOnce(entries, i, k, s.id);
        FileUntouched(files[k], entries[k], gone, blockSize, s.id);
      }
    }
    assert files[i].missing == FileFacts(entries[i], gone).missing >= 0;
    SumUpdate(Losses(files), i, files'[i].missing);
    assert Losses(files') == Losses(files)[i := files'[i].missing];
  }

  lemma FilesUntouched(
    files: seq<NzbDataFile>, entries: seq<FileEntry>, gone: set<ArticleId>, blockSize: int, id: ArticleId)
    requires FilesAgree(files, entries, gone, blockSize) && id !in ListedIds(entries)
    ensures FilesAgree(files, entries, gone + {id}, blockSize)
  {
    forall k | 0 <= k < |files| ensures FileAgrees(files[k], entries[k], gone + {id}, blockSize) {
      assert entries[k] in entries;
      FileUntouched(files[k], entries[k], gone, blockSize, id);
    }
  }

  lemma TotalsAfterUpdate(volumes: seq<Par2Volume>, i: nat, v: Par2Volume)
    requires i < |volumes|
    ensures Sum(VolumeLosses(volumes[i := v])) == Sum(VolumeLosses(volumes)) - volumes[i].missing + v.missing
    ensures Sum(VolumeAnswers(volumes[i := v])) == Sum(VolumeAnswers(volumes)) - volumes[i].checked + v.checked
  {
    SumUpdate(VolumeLosses(volumes), i, v.missing);
    SumUpdate(VolumeAnswers(volumes), i, v.checked);
    assert VolumeLosses(volumes[i := v]) == VolumeLosses(volumes)[i := v.missing];
    assert VolumeAnswers(volumes[i := v]) == VolumeAnswers(volumes)[i := v.checked];
  }

  lemma VolumesAfterLoss(
    volumes: seq<Par2Volume>, entries: seq<FileEntry>, answered: set<ArticleId>, gone: set<ArticleId>,
    i: nat, id: ArticleId)
    requires VolumesAgree(volumes, entries, answered, gone) && DistinctEntries(entries)
    requires i < |volumes| && id in EntryIds(entries[i]) && id !in gone
    ensures VolumesAgree(volumes[i := VolumeLosing(volumes[i])], entries, answered, gone + {id})
    ensures Sum(VolumeLosses(volumes[i := VolumeLosing(volumes[i])])) == Sum(VolumeLosses(volumes)) + 1
    ensures Sum(VolumeAnswers(volumes[i := VolumeLosing(volumes[i])])) == Sum(VolumeAnswers(volumes))
  {
    var volumes' := volumes[i := VolumeLosing(volumes[i])];
    forall k | 0 <= k < |volumes| ensures volumes'[k] == VolumeFacts(entries[k], answered, gone + {id}) {
      ListedOnce(entries, i, k, id);
      if k == i {
        var s :| s in Accepted(entries[i].segments) && s.id == id;
        TallyInsert(One, Accepted(entries[i].segments), gone, s);
      } else {
        VolumeUntouched(entries[k], answered, gone, id);
      }
    }
    TotalsAfterUpdate(volumes, i, VolumeLosing(volumes[i]));
  }

  lemma VolumesAfterAnswer(
    volumes: seq<Par2Volume>, entries: seq<FileEntry>, answered: set<ArticleId>, gone: set<ArticleId>,
    i: nat, id: ArticleId)
    requires VolumesAgree(volumes, entries, answered, gone) && DistinctEntries(entries)
    requires i < |volumes| && id in EntryIds(entries[i]) && id !in answered
    ensures VolumesAgree(volumes[i := VolumeAnswering(volumes[i])], entries, answered + {id}, gone)
    ensures Sum(VolumeLosses(volumes[i := VolumeAnswering(volumes[i])])) == Sum(VolumeLosses(volumes))
    ensures Sum(VolumeAnswers(volumes[i := VolumeAnswering(volumes[i])])) == Sum(VolumeAnswers(volumes)) + 1
  {
    var volumes' := volumes[i := VolumeAnswering(volumes[i])];
    forall k | 0 <= k < |volumes| ensures volumes'[k] == VolumeFacts(entries[k], answered + {id}, gone) {
      ListedOnce(entries, i, k, id);
      if k == i {
        var s :| s in Accepted(entries[i].segments) && s.id == id;
        TallyInsert(One, Accepted(entries[i].segments), answered, s);
      } else {
        VolumeUntouched(entries[k], answered, gone, id);
      }
    }
    TotalsAfterUpdate(volumes, i, VolumeAnswering(volumes[i]));
  }

  lemma VolumesUntouched(
    volumes: seq<Par2Volume>, entries: seq<FileEntry>, answered: set<ArticleId>, gone: set<ArticleId>, id: ArticleId)
    requires VolumesAgree(volumes, entries, answered, gone) && id !in ListedIds(entries)
    ensures VolumesAgree(volumes, entries, answered + {id}, gone)
    ensures VolumesAgree(volumes, entries, answered, gone + {id})
  {
    forall k | 0 <= k < |volumes|
      ensures volumes[k] == VolumeFacts(entries[k], answered + {id}, gone)
                         == VolumeFacts(entries[k], answered, gone + {id})
    {
      assert entries[k] in entries;
      VolumeUntouched(entries[k], answered, gone, id);
    }
  }

  lemma OwnersStayInRange(l: Listing, c: Check, answered: set<ArticleId>, gone: set<ArticleId>)
    requires Accounts(l, c, answered, gone)
    ensures OwnersInRange(c)
  {
    forall id | id in c.index.owner ensures InRange(c.index.owner[id], c.volumes, c.files) {
      assert OwnerAgrees(c.index.owner[id], id, l);
    }
  }

  lemma KnownBytes(l: Listing, c: Check, f: NzbDataFile, i: nat, s: Segment)
    requires IndexAgrees(c.index, l) && i < |l.data| && s in Accepted(l.data[i].segments)
    ensures FileLosing(f, BytesUpperOf(c, s.id)) == FileLosing(f, s.bytes)
  {
  }

  lemma FilesAfterMissing(l: Listing, c: Check, gone: set<ArticleId>, i: nat, s: Segment)
    requires DistinctEntries(l.data) && OwnersInRange(c)
    requires IndexAgrees(c.index, l) && FilesAgree(c.files, l.data, gone, c.settings.blockSize)
    requires i < |l.data| && s in Accepted(l.data[i].segments) && s.id !in gone
    requires OwnerOf(c, s.id) == Some(DataFile(i))
    ensures FilesAgree(CountMissing(c, s.id).files, l.data, gone + {s.id}, c.settings.blockSize)
    ensures Sum(Losses(CountMissing(c, s.id).files)) == Sum(Losses(c.files)) + 1
  {
    assert InRange(DataFile(i), c.volumes, c.files);
    KnownBytes(l, c, c.files[i], i, s);
    hide Accepted, IndexAgrees, DistinctEntries, FileLosing, FilesAgree, Losses, OwnersInRange;
    FilesAfterLoss(c.files, l.data, gone, c.settings.blockSize, i, s);
  }

  lemma FileLossIsCounted(
    l: Listing, c: Check, answered: set<ArticleId>, gone: set<ArticleId>, i: nat, s: Segment)
    requires DistinctEntries(l.data) && l.par2Ids == ListedIds(l.volumes) && s.id !in l.par2Ids
    requires Accounts(l, c, answered, gone) && OwnersInRange(c)
    requires i < |l.data| && s in Accepted(l.data[i].segments) && s.id !in gone
    requires OwnerOf(c, s.id) == Some(DataFile(i))
    ensures Accounts(l, CountMissing(c, s.id), answered, gone + {s.id})
  {
    hide FilesAgree, VolumesAgree, IndexAgrees, DistinctEntries, FileLosing;
    FilesAfterMissing(l, c, gone, i, s);
    VolumesUntouched(c.volumes, l.volumes, answered, gone, s.id);
  }

  lemma VolumeLossIsCounted(
    l: Listing, c: Check, answered: set<ArticleId>, gone: set<ArticleId>, i: nat, id: ArticleId)
    requires DistinctEntries(l.volumes) && l.dataIds == ListedIds(l.data) && id !in l.dataIds
    requires Accounts(l, c, answered, gone) && OwnersInRange(c)
    requires i < |l.volumes| && id in EntryIds(l.volumes[i]) && id !in gone
    requires OwnerOf(c, id) == Some(Volume(i))
    ensures Accounts(l, CountMissing(c, id), answered, gone + {id})
  {
    hide FilesAgree, VolumesAgree, IndexAgrees, DistinctEntries, VolumeLosing;
    VolumesAfterLoss(c.volumes, l.volumes, answered, gone, i, id);
    FilesUntouched(c.files, l.data, gone, c.settings.blockSize, id);
  }

  /** Counting an article as missing moves its id into the set of those that are gone. */
  lemma MissingIsCounted(l: Listing, c: Check, answered: set<ArticleId>, gone: set<ArticleId>, id: ArticleId)
    requires DistinctIds(l) && Accounts(l, c, answered, gone)
    requires id in c.index.owner && id !in gone
    ensures OwnersInRange(c) && Accounts(l, CountMissing(c, id), answered, gone + {id})
  {
    OwnersStayInRange(l, c, answered, gone);
    OwnerIs(l, c.index, id);
    match c.index.owner[id]
    case DataFile(i) =>
      var s :| s in Accepted(l.data[i].segments) && s.id == id;
      FileLossIsCounted(l, c, answered, gone, i, s);
    case Volume(i) =>
      VolumeLossIsCounted(l, c, answered, gone, i, id);
  }

  lemma VolumeAnswerIsCounted(
    l: Listing, c: Check, answered: set<ArticleId>, gone: set<ArticleId>, i: nat, id: ArticleId)
    requires DistinctEntries(l.volumes) && id in l.par2Ids
    requires Accounts(l, c, answered, gone) && OwnersInRange(c)
    requires i < |l.volumes| && id in EntryIds(l.volumes[i]) && id !in answered
    requires OwnerOf(c, id) == Some(Volume(i))
    ensures Accounts(l, ArticleChecked(c, id), answered + {id}, gone)
  {
    hide FilesAgree, VolumesAgree, IndexAgrees, DistinctEntries, VolumeAnswering;
    VolumesAfterAnswer(c.volumes, l.volumes, answered, gone, i, id);
  }

  lemma FileAnswerIsCounted(
    l: Listing, c: Check, answered: set<ArticleId>, gone: set<ArticleId>, i: nat, id: ArticleId)
    requires l.par2Ids == ListedIds(l.volumes) && id !in l.par2Ids
    requires Accounts(l, c, answered, gone) && OwnersInRange(c) && id !in answered
    requires OwnerOf(c, id) == Some(DataFile(i))
    ensures Accounts(l, ArticleChecked(c, id), answered + {id}, gone)
  {
    hide FilesAgree, VolumesAgree, IndexAgrees;
    VolumesUntouched(c.volumes, l.volumes, answered, gone, id);
  }

  /** Counting an answer moves its id into the set of those that were answered. */
  lemma AnswerIsCounted(l: Listing, c: Check, answered: set<ArticleId>, gone: set<ArticleId>, id: ArticleId)
    requires DistinctIds(l) && Accounts(l, c, answered, gone)
    requires id in c.index.owner && id !in answered
    ensures OwnersInRange(c) && Accounts(l, ArticleChecked(c, id), answered + {id}, gone)
  {
    OwnersStayInRange(l, c, answered, gone);
    OwnerIs(l, c.index, id);
    match c.index.owner[id]
    case DataFile(i) => FileAnswerIsCounted(l, c, answered, gone, i, id);
    case Volume(i) => VolumeAnswerIsCounted(l, c, answered, gone, i, id);
  }
}
