/** Cutting the files of a post into articles, resumed posts included
    (src/PostingJob.cpp, _readNextArticleIntoBufferPtr). */
module SliceReading {
  import opened Arithmetic
  import opened Options

  type byte = bv8

  /** A file of the upload queue. `posted` holds the parts that the history says are on
      the server already. */
  datatype SourceFile = SourceFile(readable: bool, content: seq<byte>, posted: set<nat>)

  /** What an article is built from; `file` is the position in the upload queue. */
  datatype Slice = Slice(file: nat, part: nat, pos: nat, bytes: seq<byte>)

  function Skips(f: SourceFile, resuming: bool, part: nat): bool { resuming && part in f.posted }

  function SliceAt(f: SourceFile, i: nat, size: nat, pos: nat, part: nat): Slice
    requires pos <= |f.content|
  {
    Slice(i, part, pos, f.content[pos..Min(pos + size, |f.content|)])
  }

  /** The slices still to come from an open file, `part` of them read so far. */
  function Rest(f: SourceFile, i: nat, size: nat, resuming: bool, pos: nat, part: nat): seq<Slice>
    requires size > 0 && pos <= |f.content|
    decreases |f.content| - pos
  {
    if pos == |f.content| then [] else
      (if Skips(f, resuming, part + 1) then [] else [SliceAt(f, i, size, pos, part + 1)])
      + Rest(f, i, size, resuming, Min(pos + size, |f.content|), part + 1)
  }

  lemma RestStep(f: SourceFile, i: nat, size: nat, resuming: bool, pos: nat, part: nat)
    requires size > 0 && pos <= |f.content|
    ensures var rest := Rest(f, i, size, resuming, pos, part);
            if pos == |f.content| then rest == []
            else
              var more := Rest(f, i, size, resuming, Min(pos + size, |f.content|), part + 1);
              rest == if Skips(f, resuming, part + 1) then more else [SliceAt(f, i, size, pos, part + 1)] + more
  {
  }

  /** The slices of the files from position `i` on; a file that cannot be read has none. */
  function Coming(files: seq<SourceFile>, i: nat, size: nat, resuming: bool): seq<Slice>
    requires size > 0 && i <= |files|
    decreases |files| - i
  {
    if i == |files| then [] else
      (if files[i].readable then Rest(files[i], i, size, resuming, 0, 0) else [])
      + Coming(files, i + 1, size, resuming)
  }

  /** Which of the first `n` files cannot be read: they are reported. */
  function Unreadable(files: seq<SourceFile>, n: nat): seq<nat>
    requires n <= |files|
  {
    if n == 0 then [] else Unreadable(files, n - 1) + if files[n - 1].readable then [] else [n - 1]
  }

  /** The reading state of the job: the queue, the file in hand, and how far it is read. */
  class SliceReader {
    const files: seq<SourceFile>
    const articleSizeBytes: nat
    const resumeFromHistory: bool
    var next: nat
    var current: Option<nat>
    var isOpen: bool
    var pos: nat
    var part: nat
    var noMoreFiles: bool
    var unreadable: seq<nat>

    ghost predicate Valid()
      reads this
    {
      && articleSizeBytes > 0 && next <= |files|
      && (current.Some? ==> current.value < |files|)
      && (isOpen ==> current.Some? && files[current.value].readable && pos <= |files[current.value].content|)
      && (noMoreFiles ==> current.None? && next == |files|)
      && unreadable == Unreadable(files, if current.Some? && !isOpen then current.value else next)
      && (current.Some? ==> next == current.value + 1)
    }

    /** The slices still to come from the file in hand. */
    ghost function InHand(): seq<Slice>
      requires Valid()
      reads this
    {
      if current.None? || !files[current.value].readable then []
      else if isOpen then Rest(files[current.value], current.value, articleSizeBytes, resumeFromHistory, pos, part)
      else Rest(files[current.value], current.value, articleSizeBytes, resumeFromHistory, 0, 0)
    }

    /** Every slice not yet handed out, in order. */
    ghost function Remaining(): seq<Slice>
      requires Valid()
      reads this
    {
      InHand() + Coming(files, next, articleSizeBytes, resumeFromHistory)
    }

    /** The job is refused before any slice is read when its article size is not positive. */
    constructor (files: seq<SourceFile>, articleSizeBytes: nat, resumeFromHistory: bool)
      requires articleSizeBytes > 0
      ensures Valid() && Remaining() == Coming(files, 0, articleSizeBytes, resumeFromHistory)
      ensures this.files == files && this.articleSizeBytes == articleSizeBytes
      ensures this.resumeFromHistory == resumeFromHistory
    {
      this.files, this.articleSizeBytes, this.resumeFromHistory := files, articleSizeBytes, resumeFromHistory;
      next, current, isOpen, pos, part, noMoreFiles, unreadable := 0, None, false, 0, 0, false, [];
    }

    /** Takes the next file of the queue, if there is one. */
    method TakeNextFile()
      requires Valid() && current.None?
      modifies this`noMoreFiles, this`current, this`isOpen, this`next
      ensures Valid() && Remaining() == old(Remaining())
      ensures if old(next) == |files| then noMoreFiles && current.None? && next == old(next)
              else next == old(next) + 1 && current.Some? && !isOpen
    {
      if next == |files| {
        noMoreFiles := true;
      } else {
        current, isOpen, next := Some(next), false, next + 1;
      }
    }

    /** Opens the file in hand, or drops it when it cannot be read. */
    method OpenFile()
      requires Valid() && current.Some? && !isOpen
      modifies this`isOpen, this`pos, this`part, this`unreadable, this`current
      ensures Valid() && Remaining() == old(Remaining())
      ensures if isOpen then current == old(current) && pos == 0 else current.None?
    {
      if files[current.value].readable {
        isOpen, pos, part := true, 0, 0;
      } else {
        unreadable := unreadable + [current.value];
        current := None;
      }
    }

    /** Reads one part of the open file; a part already posted yields no slice, and the
        end of the file closes it. */
    method ReadPart() returns (slice: Option<Slice>)
      requires Valid() && isOpen
      modifies this`pos, this`part, this`isOpen, this`current
      ensures Valid()
      ensures match slice
              case Some(s) => old(Remaining()) == [s] + Remaining()
              case None => old(Remaining()) == Remaining()
      ensures slice.None? ==> current.None? || (current == old(current) && isOpen && pos > old(pos))
    {
      hide Rest, Coming;
      var file := files[current.value];
      RestStep(file, current.value, articleSizeBytes, resumeFromHistory, pos, part);
      var start, end := pos, Min(pos + articleSizeBytes, |file.content|);
      if start == end {
        isOpen, current := false, None;
        return None;
      }
      pos := end;
      part := part + 1;
      if resumeFromHistory && part in file.posted {
        return None;
      }
      return Some(Slice(current.value, part, start, file.content[start..end]));
    }

    ghost function WorkInHand(): nat
      requires Valid()
      reads this
    {
      if current.None? then 0
      else if isOpen then 1 + |files[current.value].content| - pos
      else 2 + |files[current.value].content|
    }

    /** The next slice to build an article from; none once every file is used up. */
    method ReadNextArticle() returns (slice: Option<Slice>)
      requires Valid()
      modifies this
      ensures Valid()
      ensures match slice
              case Some(s) => old(Remaining()) == [s] + Remaining()
              case None => old(Remaining()) == [] == Remaining() && noMoreFiles && unreadable == Unreadable(files, |files|)
    {
      hide Coming, Rest;
      slice := None;
      while slice.None?
        invariant Valid()
        invariant old(Remaining()) == (if slice.Some? then [slice.value] else []) + Remaining()
        decreases slice.None?, |files| - next, WorkInHand()
      {
        if current.None? {
          TakeNextFile();
          if current.None? {
            assert Coming(files, next, articleSizeBytes, resumeFromHistory) == [] by { NothingComes(); }
            return None;
          }
        }
        if !isOpen {
          OpenFile();
        }
        if isOpen {
          slice := ReadPart();
        }
      }
    }

    lemma NothingComes()
      requires articleSizeBytes > 0
      ensures Coming(files, |files|, articleSizeBytes, resumeFromHistory) == []
    {
    }
  }

  // ---- What the slices of a file are ----

  /** The number of parts of a file, and the bytes of each: part k starts at (k-1) * size. */
  function Parts(f: SourceFile, size: nat): nat
    requires size > 0
  {
    (|f.content| + size - 1) / size
  }

  function PartBytes(f: SourceFile, size: nat, part: nat): seq<byte>
    requires 0 < part && (part - 1) * size <= |f.content|
  {
    f.content[(part - 1) * size..Min((part - 1) * size + size, |f.content|)]
  }

  /** Position `pos` is where part `part` ends. */
  predicate AtBoundary(f: SourceFile, size: nat, pos: nat, part: nat) {
    pos <= |f.content| && (pos == part * size || (pos == |f.content| && pos < part * size < pos + size))
  }

  lemma NextBoundary(f: SourceFile, size: nat, pos: nat, part: nat)
    requires size > 0 && AtBoundary(f, size, pos, part) && pos < |f.content|
    ensures pos == part * size
    ensures AtBoundary(f, size, Min(pos + size, |f.content|), part + 1)
  {
  }

  /** Part `k` exists: it starts inside the file. */
  predicate HasPart(f: SourceFile, size: nat, k: nat) {
    k > 0 && (k - 1) * size < |f.content|
  }

  /** The slice is one of the parts of the file, and one that is not posted yet. */
  predicate IsMissingPart(s: Slice, f: SourceFile, i: nat, size: nat, resuming: bool) {
    && s.file == i && HasPart(f, size, s.part) && !Skips(f, resuming, s.part)
    && s.pos == (s.part - 1) * size && s.bytes == PartBytes(f, size, s.part)
  }

  /** Every slice carries a part that is not posted yet, with exactly its bytes. */
  lemma {:induction false} SlicesAreParts(f: SourceFile, i: nat, size: nat, resuming: bool, pos: nat, part: nat)
    requires size > 0 && AtBoundary(f, size, pos, part)
    ensures forall s | s in Rest(f, i, size, resuming, pos, part) :: IsMissingPart(s, f, i, size, resuming)
    ensures forall s | s in Rest(f, i, size, resuming, pos, part) :: s.part > part
    decreases |f.content| - pos
  {
    if pos < |f.content| {
      NextBoundary(f, size, pos, part);
      SlicesAreParts(f, i, size, resuming, Min(pos + size, |f.content|), part + 1);
      assert Skips(f, resuming, part + 1)
          || IsMissingPart(SliceAt(f, i, size, pos, part + 1), f, i, size, resuming);
      hide IsMissingPart, SliceAt, AtBoundary;
    }
  }

  ghost predicate Increasing(slices: seq<Slice>) {
    forall j, k | 0 <= j < k < |slices| :: slices[j].part < slices[k].part
  }

  lemma PrependKeepsOrder(s: Slice, rest: seq<Slice>)
    requires Increasing(rest) && forall t | t in rest :: s.part < t.part
    ensures Increasing([s] + rest)
  {
  }

  /** They come in the order of their parts, none twice. */
  lemma {:induction false} SlicesAreOrdered(f: SourceFile, i: nat, size: nat, resuming: bool, pos: nat, part: nat)
    requires size > 0 && AtBoundary(f, size, pos, part)
    ensures Increasing(Rest(f, i, size, resuming, pos, part))
    decreases |f.content| - pos
  {
    if pos < |f.content| {
      NextBoundary(f, size, pos, part);
      var end := Min(pos + size, |f.content|);
      SlicesAreOrdered(f, i, size, resuming, end, part + 1);
      SlicesAreParts(f, i, size, resuming, end, part + 1);
      hide IsMissingPart, Rest;
      RestStep(f, i, size, resuming, pos, part);
      PrependKeepsOrder(SliceAt(f, i, size, pos, part + 1), Rest(f, i, size, resuming, end, part + 1));
    }
  }

  /** Every part that is not posted yet has its slice. */
  lemma {:induction false} EveryPartIsSliced(
    f: SourceFile, i: nat, size: nat, resuming: bool, pos: nat, part: nat, k: nat)
    requires size > 0 && AtBoundary(f, size, pos, part)
    requires part < k && HasPart(f, size, k) && !Skips(f, resuming, k)
    ensures exists s :: s in Rest(f, i, size, resuming, pos, part) && s.part == k
    decreases |f.content| - pos
  {
    if pos == |f.content| {
      PartOrder(part, k - 1, size);
      assert false;
    } else {
      NextBoundary(f, size, pos, part);
      if k == part + 1 {
        var s := SliceAt(f, i, size, pos, part + 1);
        assert s in Rest(f, i, size, resuming, pos, part) && s.part == k;
      } else {
        EveryPartIsSliced(f, i, size, resuming, Min(pos + size, |f.content|), part + 1, k);
        var s :| s in Rest(f, i, size, resuming, Min(pos + size, |f.content|), part + 1) && s.part == k;
        assert s in Rest(f, i, size, resuming, pos, part);
      }
    }
  }

  lemma PartOrder(a: nat, b: nat, size: nat)
    requires a <= b
    ensures a * size <= b * size
  {
    if a < b {
      PartOrder(a, b - 1, size);
      assert b * size == (b - 1) * size + size;
    }
  }

  /** The bytes of parts 1 to n, one after the other. */
  function Joined(f: SourceFile, size: nat, n: nat): seq<byte>
    requires size > 0 && (n > 0 ==> (n - 1) * size < |f.content|)
  {
    if n == 0 then [] else
      PartOrderHint(n, size);
      Joined(f, size, n - 1) + PartBytes(f, size, n)
  }

  lemma PartOrderHint(n: nat, size: nat)
    requires n > 0
    ensures n > 1 ==> (n - 2) * size <= (n - 1) * size
  {
    if n > 1 {
      PartOrder(n - 2, n - 1, size);
    }
  }

  lemma {:induction false} JoinedIsPrefix(f: SourceFile, size: nat, n: nat)
    requires size > 0 && (n > 0 ==> (n - 1) * size < |f.content|)
    ensures Joined(f, size, n) == f.content[..Min(n * size, |f.content|)]
  {
    if n > 0 {
      PartOrderHint(n, size);
      JoinedIsPrefix(f, size, n - 1);
      assert n * size == (n - 1) * size + size;
    }
  }

  /** The parts tile the file: together, in order, they are its content. */
  lemma PartsTile(f: SourceFile, size: nat)
    requires size > 0
    ensures var n := Parts(f, size);
            && (n > 0 ==> HasPart(f, size, n))
            && Joined(f, size, n) == f.content
            && forall k: nat :: HasPart(f, size, k) <==> 0 < k <= n
  {
    var n := Parts(f, size);
    Quotient(|f.content| + size - 1, size);
    assert (n + 1) * size == n * size + size && (n > 0 ==> (n - 1) * size == n * size - size);
    forall k: nat ensures HasPart(f, size, k) <==> 0 < k <= n {
      if 0 < k <= n {
        PartOrder(k - 1, n - 1, size);
      } else if k > n {
        PartOrder(n, k - 1, size);
      }
    }
    JoinedIsPrefix(f, size, n);
  }

  lemma Quotient(a: nat, b: nat)
    requires b > 0
    ensures (a / b) * b <= a < (a / b) * b + b
  {
  }

  /** How many of these slices carry part `k`. */
  function Count(slices: seq<Slice>, k: nat): nat {
    if slices == [] then 0 else Count(slices[..|slices| - 1], k) + if slices[|slices| - 1].part == k then 1 else 0
  }

  lemma {:induction false} CountOnce(slices: seq<Slice>, k: nat)
    requires Increasing(slices)
    ensures Count(slices, k) <= 1
    ensures Count(slices, k) == 0 <==> forall s | s in slices :: s.part != k
  {
    if slices != [] {
      var init, last := slices[..|slices| - 1], slices[|slices| - 1];
      CountOnce(init, k);
      assert forall s :: s in slices <==> s in init || s == last;
      assert last.part == k ==> forall s | s in init :: s.part != k;
    }
  }

  /** A file is posted exactly once across the interruption: each of its parts either was
      on the server before and is not read again, or gets exactly one slice, with its
      bytes. The parts tile the file. */
  lemma ResumeTiles(f: SourceFile, i: nat, size: nat, k: nat)
    requires size > 0
    ensures var slices := Rest(f, i, size, true, 0, 0);
            && Count(slices, k) == (if 0 < k <= Parts(f, size) && k !in f.posted then 1 else 0)
            && (forall s | s in slices :: IsMissingPart(s, f, i, size, true))
            && (Parts(f, size) > 0 ==> HasPart(f, size, Parts(f, size)))
            && Joined(f, size, Parts(f, size)) == f.content
  {
    var slices := Rest(f, i, size, true, 0, 0);
    PartsTile(f, size);
    hide Joined, Parts;
    SlicesAreParts(f, i, size, true, 0, 0);
    SlicesAreOrdered(f, i, size, true, 0, 0);
    CountOnce(slices, k);
    if HasPart(f, size, k) && k !in f.posted {
      EveryPartIsSliced(f, i, size, true, 0, 0, k);
    }
  }

  /** Without a resume every part of every readable file is posted, in order: joined, the
      slices are the file. */
  lemma {:induction false} FreshPostIsWholeFile(f: SourceFile, i: nat, size: nat, pos: nat, part: nat)
    requires size > 0 && pos <= |f.content|
    ensures Bytes(Rest(f, i, size, false, pos, part)) == f.content[pos..]
    decreases |f.content| - pos
  {
    if pos < |f.content| {
      var end := Min(pos + size, |f.content|);
      FreshPostIsWholeFile(f, i, size, end, part + 1);
      var first, rest := SliceAt(f, i, size, pos, part + 1), Rest(f, i, size, false, end, part + 1);
      assert ([first] + rest)[1..] == rest;
      assert f.content[pos..] == f.content[pos..end] + f.content[end..];
    }
  }

  function Bytes(slices: seq<Slice>): seq<byte> {
    if slices == [] then [] else slices[0].bytes + Bytes(slices[1..])
  }

  // ---- The whole queue ----

  /** The slices that were cut from one of the files. */
  function Of(slices: seq<Slice>, k: nat): seq<Slice> {
    if slices == [] then [] else (if slices[0].file == k then [slices[0]] else []) + Of(slices[1..], k)
  }

  lemma {:induction false} OfBoth(a: seq<Slice>, b: seq<Slice>, k: nat)
    ensures Of(a + b, k) == Of(a, k) + Of(b, k)
  {
    if a == [] {
      assert a + b == b;
    } else {
      var first := if a[0].file == k then [a[0]] else [];
      assert (a + b)[1..] == a[1..] + b;
      OfBoth(a[1..], b, k);
      hide Of;
      assert first + (Of(a[1..], k) + Of(b, k)) == (first + Of(a[1..], k)) + Of(b, k);
    }
  }

  lemma {:induction false} OfOneFile(slices: seq<Slice>, i: nat, k: nat)
    requires forall s | s in slices :: s.file == i
    ensures Of(slices, k) == if i == k then slices else []
  {
    if slices != [] {
      assert slices[0] in slices;
      OfOneFile(slices[1..], i, k);
    }
  }

  lemma RestIsOfOneFile(f: SourceFile, i: nat, size: nat, resuming: bool)
    requires size > 0
    ensures forall s | s in Rest(f, i, size, resuming, 0, 0) :: s.file == i
  {
    SlicesAreParts(f, i, size, resuming, 0, 0);
  }

  lemma ComingStep(files: seq<SourceFile>, i: nat, size: nat, resuming: bool)
    requires size > 0 && i < |files|
    ensures var later := Coming(files, i + 1, size, resuming);
            Coming(files, i, size, resuming)
            == if files[i].readable then Rest(files[i], i, size, resuming, 0, 0) + later else later
  {
    var later := Coming(files, i + 1, size, resuming);
    assert [] + later == later;
  }

  /** The files come in the order of the queue. */
  lemma {:induction false} FilesInTurn(files: seq<SourceFile>, i: nat, size: nat, resuming: bool)
    requires size > 0 && i <= |files|
    ensures var slices := Coming(files, i, size, resuming);
            && (forall s | s in slices :: i <= s.file < |files|)
            && forall a, b | 0 <= a < b < |slices| :: slices[a].file <= slices[b].file
    decreases |files| - i
  {
    if i < |files| {
      FilesInTurn(files, i + 1, size, resuming);
      RestIsOfOneFile(files[i], i, size, resuming);
      ComingStep(files, i, size, resuming);
      hide Rest, Coming;
      if files[i].readable {
        InTurn(Rest(files[i], i, size, resuming, 0, 0), Coming(files, i + 1, size, resuming), i);
      }
    }
  }

  /** Each readable file has its own slices in the post, and an unreadable one has none. */
  lemma {:induction false} EachFileHasItsOwn(files: seq<SourceFile>, i: nat, size: nat, resuming: bool, k: nat)
    requires size > 0 && i <= |files| && k < |files|
    ensures Of(Coming(files, i, size, resuming), k)
         == if k >= i && files[k].readable then Rest(files[k], k, size, resuming, 0, 0) else []
    decreases |files| - i
  {
    if i < |files| {
      EachFileHasItsOwn(files, i + 1, size, resuming, k);
      RestIsOfOneFile(files[i], i, size, resuming);
      ComingStep(files, i, size, resuming);
      hide Rest, Coming, Of;
      if files[i].readable {
        OwnFirst(Rest(files[i], i, size, resuming, 0, 0), Coming(files, i + 1, size, resuming), i, k);
      }
    } else {
      assert Coming(files, i, size, resuming) == [];
    }
  }

  lemma OwnFirst(own: seq<Slice>, later: seq<Slice>, i: nat, k: nat)
    requires forall s | s in own :: s.file == i
    ensures i == k && Of(later, k) == [] ==> Of(own + later, k) == own
    ensures i != k ==> Of(own + later, k) == Of(later, k)
  {
    hide Of;
    OfBoth(own, later, k);
    OfOneFile(own, i, k);
    assert own + [] == own && [] + Of(later, k) == Of(later, k);
  }

  lemma InTurn(own: seq<Slice>, later: seq<Slice>, i: nat)
    requires (forall s | s in own :: s.file == i) && forall s | s in later :: i + 1 <= s.file
    requires forall a, b | 0 <= a < b < |later| :: later[a].file <= later[b].file
    ensures var slices := own + later; forall a, b | 0 <= a < b < |slices| :: slices[a].file <= slices[b].file
  {
    var slices := own + later;
    forall a, b | 0 <= a < b < |slices| ensures slices[a].file <= slices[b].file {
      assert slices[a] in own || slices[a] == later[a - |own|];
      assert slices[b] in own || slices[b] in later;
    }
  }

  /** Over the whole post: every part of every readable file that is not on the server yet
      is read exactly once, with exactly its bytes, and nothing else is read. */
  lemma PostTiles(files: seq<SourceFile>, size: nat, resuming: bool, k: nat, n: nat)
    requires size > 0 && k < |files|
    ensures var own := Of(Coming(files, 0, size, resuming), k);
            && Count(own, n)
               == (if files[k].readable && 0 < n <= Parts(files[k], size) && !(resuming && n in files[k].posted) then 1 else 0)
            && forall s | s in own :: IsMissingPart(s, files[k], k, size, resuming)
  {
    var f := files[k];
    EachFileHasItsOwn(files, 0, size, resuming, k);
    if f.readable {
      var slices := Rest(f, k, size, resuming, 0, 0);
      PartsTile(f, size);
      hide Joined, Parts, Coming;
      SlicesAreParts(f, k, size, resuming, 0, 0);
      SlicesAreOrdered(f, k, size, resuming, 0, 0);
      CountOnce(slices, n);
      if HasPart(f, size, n) && !Skips(f, resuming, n) {
        EveryPartIsSliced(f, k, size, resuming, 0, 0, n);
      }
    }
  }
}
