/** The least damage is reached: for every file some layout the NZB allows loses no more,
    and for every post some truth does so while as many recovery packets survive as the
    check counts at best. The conditions of `Recovery` are therefore exact. */
module Tightness {
  import opened Options
  import opened Arithmetic
  import opened Slices
  import opened NzbFacts
  import opened CheckState
  import opened Accounting
  import opened Recovery

  // ---- Parts of given capacities ----

  /** A part to be laid out: its id, and the most it can hold, if that is known. */
  datatype Slot = Slot(id: Option<ArticleId>, cap: int)

  predicate Boundless(slots: seq<Slot>) {
    exists s :: s in slots && s.cap <= 0
  }

  function Capacity(slots: seq<Slot>): int {
    if slots == [] then 0 else Capacity(slots[..|slots| - 1]) + Max(0, slots[|slots| - 1].cap)
  }

  /** `total` bytes fit, with at least one in each slot. */
  predicate Fits(slots: seq<Slot>, total: int) {
    |slots| <= total && (Boundless(slots) || total <= Capacity(slots))
  }

  /** What the last slot takes: as much as it can and leave one byte for each other. */
  function LastTakes(slots: seq<Slot>, total: int): int
    requires slots != []
  {
    var most := total - (|slots| - 1);
    var cap := slots[|slots| - 1].cap;
    if cap <= 0 then most else Min(cap, most)
  }

  lemma RestFits(slots: seq<Slot>, total: int)
    requires slots != [] && Fits(slots, total)
    ensures LastTakes(slots, total) >= 1 && Fits(slots[..|slots| - 1], total - LastTakes(slots, total))
  {
    var init, last := slots[..|slots| - 1], slots[|slots| - 1];
    assert slots == init + [last];
    EachHoldsOne(init);
    if Boundless(slots) && last.cap > 0 {
      var s :| s in slots && s.cap <= 0;
      assert s in init;
    }
  }

  lemma {:induction false} EachHoldsOne(slots: seq<Slot>)
    ensures Boundless(slots) || |slots| <= Capacity(slots)
  {
    if slots != [] {
      var init, last := slots[..|slots| - 1], slots[|slots| - 1];
      assert slots == init + [last] && last in slots;
      EachHoldsOne(init);
      if Boundless(init) {
        var s :| s in init && s.cap <= 0;
        assert s in slots;
      }
    }
  }

  function Lay(slots: seq<Slot>, total: int): (parts: seq<Part>)
    requires Fits(slots, total)
    ensures |parts| == |slots|
    ensures forall i | 0 <= i < |parts| :: parts[i].id == slots[i].id && parts[i].length > 0
    ensures forall i | 0 <= i < |parts| :: slots[i].cap > 0 ==> parts[i].length <= slots[i].cap
  {
    if slots == [] then [] else
      RestFits(slots, total);
      var x := LastTakes(slots, total);
      Lay(slots[..|slots| - 1], total - x) + [Part(x, slots[|slots| - 1].id)]
  }

  lemma {:induction false} LaidSize(slots: seq<Slot>, total: int)
    requires Fits(slots, total)
    ensures Size(Lay(slots, total)) == total
  {
    hide LastTakes, Boundless;
    if slots != [] {
      RestFits(slots, total);
      var x := LastTakes(slots, total);
      var init := slots[..|slots| - 1];
      LaidSize(init, total - x);
      assert Lay(slots, total)[..|slots| - 1] == Lay(init, total - x);
    } else {
      assert total == 0 by { NothingFits(total); }
    }
  }

  lemma NothingFits(total: int)
    requires Fits([], total)
    ensures total == 0
  {
  }

  // ---- The slots of a file ----

  function SlotsOf(segments: seq<Segment>, gone: set<ArticleId>, lost: bool): seq<Slot> {
    if segments == [] then [] else
      var last := segments[|segments| - 1];
      SlotsOf(segments[..|segments| - 1], gone, lost)
      + if (last.id in gone) == lost then [Slot(Some(last.id), last.bytes)] else []
  }

  function Unlisted(n: nat): (slots: seq<Slot>)
    ensures |slots| == n && forall s | s in slots :: s == Slot(None, 0)
  {
    if n == 0 then [] else Unlisted(n - 1) + [Slot(None, 0)]
  }

  /** Each slot is one segment, on the side it was asked for. */
  lemma {:induction false} SlotsAreSegments(segments: seq<Segment>, gone: set<ArticleId>, lost: bool)
    ensures forall slot :: slot in SlotsOf(segments, gone, lost)
              <==> exists s :: s in segments && (s.id in gone) == lost && slot == Slot(Some(s.id), s.bytes)
  {
    if segments != [] {
      var init, last := segments[..|segments| - 1], segments[|segments| - 1];
      SlotsAreSegments(init, gone, lost);
      assert segments == init + [last];
    }
  }

  ghost predicate DistinctSlots(slots: seq<Slot>) {
    forall i, j | 0 <= i < j < |slots| && slots[i].id.Some? :: slots[i].id != slots[j].id
  }

  lemma JoinDistinct(a: seq<Slot>, b: seq<Slot>)
    requires DistinctSlots(a) && DistinctSlots(b)
    requires forall s, t | s in a && t in b && s.id.Some? :: s.id != t.id
    ensures DistinctSlots(a + b)
  {
    var slots := a + b;
    forall i, j | 0 <= i < j < |slots| && slots[i].id.Some? ensures slots[i].id != slots[j].id {
      assert i < |a| ==> slots[i] in a;
      assert j >= |a| ==> slots[j] in b;
    }
  }

  lemma {:induction false} SlotsAreDistinct(segments: seq<Segment>, gone: set<ArticleId>, lost: bool)
    requires Distinct(segments)
    ensures DistinctSlots(SlotsOf(segments, gone, lost))
  {
    if segments != [] {
      var init, last := segments[..|segments| - 1], segments[|segments| - 1];
      SlotsAreDistinct(init, gone, lost);
      SlotsAreSegments(init, gone, lost);
      DistinctFromOthers(segments, |segments| - 1);
      var before := SlotsOf(init, gone, lost);
      var more := if (last.id in gone) == lost then [Slot(Some(last.id), last.bytes)] else [];
      forall s, t | s in before && t in more && s.id.Some? ensures s.id != t.id {
        var segment :| segment in init && (segment.id in gone) == lost && s == Slot(Some(segment.id), segment.bytes);
      }
      JoinDistinct(before, more);
    }
  }

  lemma {:induction false} SlotCount(segments: seq<Segment>, gone: set<ArticleId>)
    ensures |SlotsOf(segments, gone, true)| == Tally(One, segments, gone)
    ensures |SlotsOf(segments, gone, false)| == |segments| - Tally(One, segments, gone)
  {
    if segments != [] {
      SlotCount(segments[..|segments| - 1], gone);
    }
  }

  lemma {:induction false} SlotRoom(segments: seq<Segment>, gone: set<ArticleId>, ids: set<ArticleId>)
    requires forall s | s in segments :: s.id in ids <==> s.id !in gone
    ensures Capacity(SlotsOf(segments, gone, false)) == Tally(Encoded, segments, ids)
  {
    if segments != [] {
      var init, last := segments[..|segments| - 1], segments[|segments| - 1];
      assert last in segments;
      SlotRoom(init, gone, ids);
      var slots := SlotsOf(init, gone, false);
      if last.id !in gone {
        assert (slots + [Slot(Some(last.id), last.bytes)])[..|slots|] == slots;
      } else {
        assert SlotsOf(segments, gone, false) == slots + [] == slots;
      }
    }
  }

  // ---- Lost parts first ----

  lemma {:induction false} LostPrefix(a: seq<Part>, b: seq<Part>, lost: set<ArticleId>)
    requires forall p | p in a :: IsLost(p, lost)
    requires forall p | p in b :: !IsLost(p, lost)
    ensures LostBytes(a + b, lost) == Interval(0, Size(a)) && Size(a + b) == Size(a) + Size(b)
  {
    hide IsLost;
    if b != [] {
      assert (a + b)[..|a + b| - 1] == a + b[..|b| - 1];
      assert b[|b| - 1] in b;
      LostPrefix(a, b[..|b| - 1], lost);
    } else if a != [] {
      assert a + b == a && a[|a| - 1] in a;
      LostPrefix(a[..|a| - 1], [], lost);
      assert a[..|a| - 1] + [] == a[..|a| - 1];
    }
  }

  /** The first n bytes of a file touch exactly the slices they fill. */
  lemma PrefixTouches(n: nat, blockSize: int)
    requires blockSize > 0
    ensures |Touched(Interval(0, n), blockSize)| == CeilDiv(n, blockSize)
  {
    TouchedWithinFile(Interval(0, n), n, blockSize);
    BytesFitTheirSlices(Interval(0, n), blockSize);
  }

  // ---- A layout that loses the least ----

  /** The parts the NZB does not list: those it announces, or one when nothing else can
      hold what must be lost. */
  function UnlistedParts(e: FileEntry, gone: set<ArticleId>): nat {
    if e.expected > 0 then Absent(e)
    else
      var lost := SlotsOf(Accepted(e.segments), gone, true);
      if Fits(lost, LeastLost(e, gone)) then 0 else 1
  }

  function LostSlots(e: FileEntry, gone: set<ArticleId>): seq<Slot> {
    Unlisted(UnlistedParts(e, gone)) + SlotsOf(Accepted(e.segments), gone, true)
  }

  function PresentSlots(e: FileEntry, gone: set<ArticleId>): seq<Slot> {
    SlotsOf(Accepted(e.segments), gone, false)
  }

  /** The size of the file, or of the smallest one there can be when it is not known. */
  function LaidOutSize(e: FileEntry, gone: set<ArticleId>): int {
    if e.size > 0 then e.size else LeastLost(e, gone) + |PresentSlots(e, gone)|
  }

  lemma UnlistedIsBoundless(n: nat, slots: seq<Slot>)
    ensures n > 0 ==> Boundless(Unlisted(n) + slots)
    ensures |Unlisted(n) + slots| == n + |slots|
  {
    if n > 0 {
      assert Unlisted(n)[0] in Unlisted(n);
      assert (Unlisted(n) + slots)[0] in Unlisted(n) + slots;
    }
  }

  lemma NoneUnlisted(slots: seq<Slot>)
    ensures Unlisted(0) + slots == slots
  {
  }

  /** What must be lost fits in the lost parts, if the post can exist at all. */
  lemma LostFit(e: FileEntry, gone: set<ArticleId>, some: seq<Part>)
    requires LaysOut(some, e) && Distinct(Accepted(e.segments))
    ensures Fits(LostSlots(e, gone), LeastLost(e, gone))
  {
    hide LaysOut, Distinct, LeastLost, Fits, Accepted, SlotsOf;
    var lost := SlotsOf(Accepted(e.segments), gone, true);
    SlotCount(Accepted(e.segments), gone);
    UnlistedIsBoundless(UnlistedParts(e, gone), lost);
    if UnlistedParts(e, gone) == 0 {
      NoneUnlisted(lost);
      if e.expected > 0 {
        ListedFit(e, gone, some);
      }
    } else {
      MoreThanListed(e, gone);
      BoundlessFits(LostSlots(e, gone), LeastLost(e, gone));
    }
  }

  lemma BoundlessFits(slots: seq<Slot>, total: int)
    requires Boundless(slots) && |slots| <= total
    ensures Fits(slots, total)
  {
  }

  lemma MoreThanListed(e: FileEntry, gone: set<ArticleId>)
    requires UnlistedParts(e, gone) > 0
    ensures UnlistedParts(e, gone) + |SlotsOf(Accepted(e.segments), gone, true)| <= LeastLost(e, gone)
  {
    hide LeastLost, Accepted, SlotsOf;
    SlotCount(Accepted(e.segments), gone);
    EachHoldsOne(SlotsOf(Accepted(e.segments), gone, true));
  }

  /** All parts are listed: what must be lost is held by the lost ones. */
  lemma ListedFit(e: FileEntry, gone: set<ArticleId>, some: seq<Part>)
    requires LaysOut(some, e) && Distinct(Accepted(e.segments)) && e.expected > 0 && Absent(e) == 0
    ensures Fits(SlotsOf(Accepted(e.segments), gone, true), LeastLost(e, gone))
  {
    hide LaysOut, Distinct, Accepted, PresentSized, Room;
    var segments := Accepted(e.segments);
    var lost := SlotsOf(segments, gone, true);
    SlotCount(segments, gone);
    EachHoldsOne(lost);
    if !Boundless(lost) && e.size > 0 && PresentSized(e, gone) {
      LostCapacity(segments, gone);
      SizeFitsListed(e, gone, some);
    }
  }

  lemma SizeFitsListed(e: FileEntry, gone: set<ArticleId>, some: seq<Part>)
    requires LaysOut(some, e) && Distinct(Accepted(e.segments)) && e.expected > 0 && Absent(e) == 0 && e.size > 0
    requires PresentSized(e, gone) && !Boundless(SlotsOf(Accepted(e.segments), gone, true))
    ensures e.size <= Room(e, gone) + Tally(Encoded, Accepted(e.segments), gone)
  {
    var segments := Accepted(e.segments);
    forall s | s in segments ensures s.bytes > 0 {
      SlotsAreSegments(segments, gone, true);
      assert s.id in gone ==> Slot(Some(s.id), s.bytes) in SlotsOf(segments, gone, true);
    }
    AllListed(some, e);
    hide Distinct, Accepted;
    PresentAreListed(some, e, {}, {});
    PresentFits(some, {}, segments);
    TallyMonotone(Encoded, segments, PresentIds(some, {}), IdSet(segments));
    TallySplit(Encoded, segments, IdSet(segments), gone * IdSet(segments));
    TallySame(Encoded, segments, gone, gone * IdSet(segments));
    assert IdSet(segments) - gone * IdSet(segments) == IdSet(segments) - gone;
  }

  lemma AllListed(some: seq<Part>, e: FileEntry)
    requires LaysOut(some, e) && Distinct(Accepted(e.segments)) && e.expected > 0 && Absent(e) == 0
    ensures LostLength(some, {}) == 0
  {
    ListedParts(some);
    IdSetSize(Accepted(e.segments));
    hide LaysOut, Accepted;
    NothingUnlisted(some);
  }

  lemma {:induction false} NothingUnlisted(parts: seq<Part>)
    requires forall p | p in parts :: p.id.Some?
    ensures LostLength(parts, {}) == 0
  {
    if parts != [] {
      assert parts[|parts| - 1] in parts;
      NothingUnlisted(parts[..|parts| - 1]);
    }
  }

  lemma {:induction false} LostCapacity(segments: seq<Segment>, gone: set<ArticleId>)
    ensures Capacity(SlotsOf(segments, gone, true)) == Tally(Encoded, segments, gone)
  {
    if segments != [] {
      var init, last := segments[..|segments| - 1], segments[|segments| - 1];
      LostCapacity(init, gone);
      var slots := SlotsOf(init, gone, true);
      if last.id in gone {
        assert (slots + [Slot(Some(last.id), last.bytes)])[..|slots|] == slots;
      } else {
        assert SlotsOf(segments, gone, true) == slots + [] == slots;
      }
    }
  }

  /** The rest fits in the parts that may be present. */
  lemma PresentFit(e: FileEntry, gone: set<ArticleId>, some: seq<Part>)
    requires LaysOut(some, e) && Distinct(Accepted(e.segments))
    ensures Fits(PresentSlots(e, gone), LaidOutSize(e, gone) - LeastLost(e, gone))
  {
    hide Distinct, Accepted, LeastLost, DistinctParts, FitsBody;
    var segments := Accepted(e.segments);
    var present := PresentSlots(e, gone);
    SlotCount(segments, gone);
    EachHoldsOne(present);
    LeastLostHolds(some, e, gone, gone);
    if e.size > 0 {
      PresentHaveBytes(some, e, gone);
      SlotRoom(segments, gone, IdSet(segments) - gone);
      PresentIsBoundless(e, gone);
      if PresentSized(e, gone) {
        LeastLeavesRoom(e, gone);
      }
    }
  }

  lemma LeastLeavesRoom(e: FileEntry, gone: set<ArticleId>)
    requires e.size > 0 && PresentSized(e, gone)
    ensures e.size - LeastLost(e, gone) <= Room(e, gone)
  {
  }

  lemma PresentIsBoundless(e: FileEntry, gone: set<ArticleId>)
    ensures Boundless(PresentSlots(e, gone)) <==> !PresentSized(e, gone)
  {
    var segments, slots := Accepted(e.segments), PresentSlots(e, gone);
    SlotsAreSegments(segments, gone, false);
    if Boundless(slots) {
      var slot :| slot in slots && slot.cap <= 0;
      var s :| s in segments && (s.id in gone) == false && slot == Slot(Some(s.id), s.bytes);
    }
    if !PresentSized(e, gone) {
      var s :| s in segments && s.id !in gone && s.bytes <= 0;
      assert Slot(Some(s.id), s.bytes) in slots;
    }
  }

  /** The real layout has a byte in each part that is present. */
  lemma PresentHaveBytes(some: seq<Part>, e: FileEntry, gone: set<ArticleId>)
    requires LaysOut(some, e) && Distinct(Accepted(e.segments))
    ensures |Accepted(e.segments)| - Tally(One, Accepted(e.segments), gone) + LostLength(some, gone) <= Size(some)
  {
    hide Accepted, Distinct, DistinctParts;
    PresentCount(Accepted(e.segments), gone);
    EachPresentHasOne(some, gone);
    PresentAre(some, gone);
  }

  lemma PresentAre(parts: seq<Part>, lost: set<ArticleId>)
    ensures PresentIds(parts, lost) == PartIds(parts) - lost
  {
    forall id | id in PartIds(parts) - lost ensures id in PresentIds(parts, lost) {
      var p :| p in parts && p.id.Some? && p.id.value == id;
      assert !IsLost(p, lost);
    }
  }

  lemma {:induction false} EachPresentHasOne(parts: seq<Part>, lost: set<ArticleId>)
    requires DistinctParts(parts) && forall p | p in parts :: p.length > 0
    ensures |PresentIds(parts, lost)| + LostLength(parts, lost) <= Size(parts)
  {
    if parts != [] {
      var init, last := parts[..|parts| - 1], parts[|parts| - 1];
      assert last in parts;
      PrefixIds(parts, lost);
      hide DistinctParts;
      EachPresentHasOne(init, lost);
      if IsLost(last, lost) {
        assert PresentIds(parts, lost) == PresentIds(init, lost);
      } else {
        assert PresentIds(parts, lost) == PresentIds(init, lost) + {last.id.value};
      }
    }
  }

  ghost predicate CanBeLaid(e: FileEntry, gone: set<ArticleId>) {
    && Fits(LostSlots(e, gone), LeastLost(e, gone))
    && Fits(PresentSlots(e, gone), LaidOutSize(e, gone) - LeastLost(e, gone))
  }

  /** The layout: the lost parts first, with as little as they can hold. */
  function LeastLayout(e: FileEntry, gone: set<ArticleId>): seq<Part>
    requires CanBeLaid(e, gone)
  {
    Lay(LostSlots(e, gone), LeastLost(e, gone))
    + Lay(PresentSlots(e, gone), LaidOutSize(e, gone) - LeastLost(e, gone))
  }

  lemma LaidParts(slots: seq<Slot>, total: int, lost: set<ArticleId>)
    requires Fits(slots, total)
    ensures (forall s | s in slots :: s.id.None? || s.id.value in lost) ==>
              forall p | p in Lay(slots, total) :: IsLost(p, lost)
    ensures (forall s | s in slots :: s.id.Some? && s.id.value !in lost) ==>
              forall p | p in Lay(slots, total) :: !IsLost(p, lost)
    ensures Size(Lay(slots, total)) == total
  {
    LaidSize(slots, total);
    var parts := Lay(slots, total);
    hide Fits, Lay;
    forall p | p in parts ensures exists s :: s in slots && s.id == p.id {
      var i :| 0 <= i < |parts| && parts[i] == p;
      assert slots[i] in slots;
    }
  }

  lemma LeastLayoutLosesLeast(e: FileEntry, gone: set<ArticleId>)
    requires CanBeLaid(e, gone)
    ensures LostBytes(LeastLayout(e, gone), gone) == Interval(0, LeastLost(e, gone))
    ensures Size(LeastLayout(e, gone)) == LaidOutSize(e, gone)
  {
    hide Fits, LeastLost, Lay, LostSlots, PresentSlots, LaidOutSize, LostBytes, Size, IsLost, Interval;
    LostSlotsAreLost(e, gone);
    LaidParts(LostSlots(e, gone), LeastLost(e, gone), gone);
    LaidParts(PresentSlots(e, gone), LaidOutSize(e, gone) - LeastLost(e, gone), gone);
    LostPrefix(Lay(LostSlots(e, gone), LeastLost(e, gone)),
               Lay(PresentSlots(e, gone), LaidOutSize(e, gone) - LeastLost(e, gone)), gone);
  }

  lemma LostSlotsAreLost(e: FileEntry, gone: set<ArticleId>)
    ensures forall s | s in LostSlots(e, gone) :: s.id.None? || s.id.value in gone
    ensures forall s | s in PresentSlots(e, gone) :: s.id.Some? && s.id.value !in gone
  {
    SlotsAreSegments(Accepted(e.segments), gone, true);
    SlotsAreSegments(Accepted(e.segments), gone, false);
  }

  // ---- It is a layout of the file ----

  function Slots(e: FileEntry, gone: set<ArticleId>): seq<Slot> { LostSlots(e, gone) + PresentSlots(e, gone) }

  lemma UnlistedDistinct(n: nat)
    ensures DistinctSlots(Unlisted(n))
  {
    forall i | 0 <= i < n ensures Unlisted(n)[i].id.None? {
      assert Unlisted(n)[i] in Unlisted(n);
    }
  }

  lemma SlotsDistinct(e: FileEntry, gone: set<ArticleId>)
    requires Distinct(Accepted(e.segments))
    ensures DistinctSlots(Slots(e, gone))
  {
    var segments := Accepted(e.segments);
    SlotsAreDistinct(segments, gone, true);
    SlotsAreDistinct(segments, gone, false);
    LostSlotsAreLost(e, gone);
    hide SlotsOf, Distinct, Accepted;
    UnlistedDistinct(UnlistedParts(e, gone));
    JoinDistinct(Unlisted(UnlistedParts(e, gone)), SlotsOf(segments, gone, true));
    JoinDistinct(LostSlots(e, gone), PresentSlots(e, gone));
  }

  /** The slots are the listed segments, and unlisted parts. */
  lemma SlotsAre(e: FileEntry, gone: set<ArticleId>)
    ensures forall slot | slot in Slots(e, gone) && slot.id.Some? ::
              exists s :: s in Accepted(e.segments) && slot == Slot(Some(s.id), s.bytes)
    ensures forall s | s in Accepted(e.segments) :: Slot(Some(s.id), s.bytes) in Slots(e, gone)
  {
    SlotsAreSegments(Accepted(e.segments), gone, true);
    SlotsAreSegments(Accepted(e.segments), gone, false);
    hide SlotsOf, Accepted;
    forall s | s in Accepted(e.segments) ensures Slot(Some(s.id), s.bytes) in Slots(e, gone) {
      assert Slot(Some(s.id), s.bytes) in SlotsOf(Accepted(e.segments), gone, s.id in gone);
    }
    forall slot | slot in Slots(e, gone) && slot.id.Some?
      ensures exists s :: s in Accepted(e.segments) && slot == Slot(Some(s.id), s.bytes)
    {
      assert slot in SlotsOf(Accepted(e.segments), gone, true) || slot in SlotsOf(Accepted(e.segments), gone, false);
    }
  }

  /** Parts that fill these slots, one each. */
  ghost predicate Fills(parts: seq<Part>, slots: seq<Slot>) {
    && |parts| == |slots|
    && forall i | 0 <= i < |parts| ::
         && parts[i].id == slots[i].id && parts[i].length > 0
         && (slots[i].cap > 0 ==> parts[i].length <= slots[i].cap)
  }

  lemma LeastLayoutFills(e: FileEntry, gone: set<ArticleId>)
    requires CanBeLaid(e, gone)
    ensures Fills(LeastLayout(e, gone), Slots(e, gone))
  {
    hide Fits, LeastLost, LostSlots, PresentSlots;
  }

  lemma FilledIds(parts: seq<Part>, e: FileEntry, gone: set<ArticleId>)
    requires Fills(parts, Slots(e, gone)) && Distinct(Accepted(e.segments))
    ensures PartIds(parts) == EntryIds(e) && DistinctParts(parts)
  {
    hide Slots, Distinct, Accepted;
    var slots := Slots(e, gone);
    SlotsDistinct(e, gone);
    SlotsAre(e, gone);
    forall id | id in PartIds(parts) ensures id in EntryIds(e) {
      var p :| p in parts && p.id.Some? && p.id.value == id;
      var i :| 0 <= i < |parts| && parts[i] == p;
      assert slots[i] in slots;
    }
    forall id | id in EntryIds(e) ensures id in PartIds(parts) {
      var s :| s in Accepted(e.segments) && s.id == id;
      var i :| 0 <= i < |slots| && slots[i] == Slot(Some(s.id), s.bytes);
      assert parts[i] in parts;
    }
  }

  lemma FilledBodies(parts: seq<Part>, e: FileEntry, gone: set<ArticleId>)
    requires Fills(parts, Slots(e, gone)) && Distinct(Accepted(e.segments))
    ensures forall p | p in parts :: p.length > 0 && FitsBody(p, Accepted(e.segments))
  {
    hide Slots, Accepted;
    var slots, segments := Slots(e, gone), Accepted(e.segments);
    SlotsAre(e, gone);
    forall p | p in parts ensures p.length > 0 && FitsBody(p, segments) {
      var i :| 0 <= i < |parts| && parts[i] == p;
      assert slots[i] in slots;
      forall s | s in segments && s.bytes > 0 && p.id == Some(s.id) ensures p.length <= s.bytes {
        var t :| t in segments && slots[i] == Slot(Some(t.id), t.bytes);
        SameSegment(segments, s, t);
      }
    }
  }

  lemma SameSegment(segments: seq<Segment>, s: Segment, t: Segment)
    requires Distinct(segments) && s in segments && t in segments && s.id == t.id
    ensures s == t
  {
    var i :| 0 <= i < |segments| && segments[i] == s;
    var j :| 0 <= j < |segments| && segments[j] == t;
  }

  /** If the file has a layout at all, this is one. */
  lemma LeastLayoutLaysOut(e: FileEntry, gone: set<ArticleId>, some: seq<Part>)
    requires LaysOut(some, e) && Distinct(Accepted(e.segments))
    ensures CanBeLaid(e, gone) && LaysOut(LeastLayout(e, gone), e)
    ensures LostBytes(LeastLayout(e, gone), gone) == Interval(0, LeastLost(e, gone))
  {
    LostFit(e, gone, some);
    PresentFit(e, gone, some);
    if e.expected > 0 {
      PartCount(e, gone, some);
    }
    assert e.size <= INT64_MAX;
    hide LaysOut, Distinct, Accepted, Fits, LeastLost, LostSlots, PresentSlots, LeastLayout;
    LeastLayoutLosesLeast(e, gone);
    LeastLayoutFills(e, gone);
    FilledIds(LeastLayout(e, gone), e, gone);
    FilledBodies(LeastLayout(e, gone), e, gone);
    IsLayout(LeastLayout(e, gone), e);
  }

  lemma IsLayout(parts: seq<Part>, e: FileEntry)
    requires forall p | p in parts :: p.length > 0 && FitsBody(p, Accepted(e.segments))
    requires PartIds(parts) == EntryIds(e) && DistinctParts(parts)
    requires e.expected > 0 ==> |parts| == e.expected
    requires (e.size > 0 ==> Size(parts) == e.size) && e.size <= INT64_MAX
    ensures LaysOut(parts, e)
  {
    hide FitsBody, DistinctParts, Accepted;
  }

  lemma PartCount(e: FileEntry, gone: set<ArticleId>, some: seq<Part>)
    requires LaysOut(some, e) && Distinct(Accepted(e.segments)) && e.expected > 0
    ensures |Slots(e, gone)| == e.expected
  {
    SlotCount(Accepted(e.segments), gone);
    MissingPartsAreLost(some, e, gone, gone);
  }

  // ---- The exact conditions ----

  lemma LeastLayoutDamage(e: FileEntry, gone: set<ArticleId>, some: seq<Part>, blockSize: int)
    requires LaysOut(some, e) && Distinct(Accepted(e.segments)) && blockSize > 0
    ensures CanBeLaid(e, gone) && LaysOut(LeastLayout(e, gone), e)
    ensures Damage(LeastLayout(e, gone), gone, blockSize) == LeastDamage(e, gone, blockSize)
  {
    hide LaysOut, Distinct, LeastLost, LeastLayout, CanBeLaid, LostBytes, Interval, Touched;
    LeastLayoutLaysOut(e, gone, some);
    PrefixTouches(LeastLost(e, gone), blockSize);
  }

  /** The lower bound of a file holds for every layout that agrees with the NZB and with
      what is known to be gone, if and only if it is not above the least damage. */
  lemma FileLowHoldsIff(
    f: NzbDataFile, e: FileEntry, gone: set<ArticleId>, some: seq<Part>, blockSize: int)
    requires FileAgrees(f, e, gone, blockSize) && Distinct(Accepted(e.segments)) && blockSize > 0
    requires LaysOut(some, e)
    ensures (forall parts, lost | LaysOut(parts, e) && gone <= lost ::
               FileLow(f, blockSize) <= Damage(parts, lost, blockSize))
       <==> FileLow(f, blockSize) <= LeastDamage(e, gone, blockSize)
  {
    hide LaysOut, Distinct, FileAgrees, LeastDamage, LeastLayout, CanBeLaid, Damage, FileLow;
    LeastLayoutDamage(e, gone, some, blockSize);
    if FileLow(f, blockSize) <= LeastDamage(e, gone, blockSize) {
      forall parts, lost | LaysOut(parts, e) && gone <= lost
        ensures FileLow(f, blockSize) <= Damage(parts, lost, blockSize)
      {
        FileLowHolds(f, parts, e, gone, lost, blockSize);
      }
    }
  }

  /** The least layouts of all files, and the best-case packets. */
  ghost predicate CanAllBeLaid(l: Listing, gone: set<ArticleId>) {
    forall i | 0 <= i < |l.data| :: CanBeLaid(l.data[i], gone)
  }

  ghost function LeastTruth(l: Listing, c: Check, gone: set<ArticleId>): Truth
    requires CanAllBeLaid(l, gone)
  {
    Truth(seq(|l.data|, i requires 0 <= i < |l.data| => LeastLayout(l.data[i], gone)),
          c.settings.blockSize, BestBlocks(c.volumes), gone)
  }

  lemma BestSurvives(e: FileEntry, answered: set<ArticleId>, gone: set<ArticleId>)
    ensures var v := VolumeFacts(e, answered, gone);
            Survives(if v.AnythingLeft() then v.blocks else 0, e, gone)
  {
    CountBelow(Accepted(e.segments), gone);
  }

  lemma BestBlocksSurvive(
    volumes: seq<Par2Volume>, entries: seq<FileEntry>, answered: set<ArticleId>, gone: set<ArticleId>)
    requires VolumesAgree(volumes, entries, answered, gone)
    ensures forall i | 0 <= i < |entries| :: Survives(BestBlocks(volumes)[i], entries[i], gone)
  {
    hide Survives, VolumeFacts;
    forall i | 0 <= i < |entries| ensures Survives(BestBlocks(volumes)[i], entries[i], gone) {
      BestSurvives(entries[i], answered, gone);
    }
  }

  lemma AllCanBeLaid(entries: seq<FileEntry>, gone: set<ArticleId>, layout: seq<seq<Part>>, blockSize: int)
    requires DistinctEntries(entries) && LayoutsFit(layout, entries) && blockSize > 0
    ensures forall i | 0 <= i < |entries| ::
              && CanBeLaid(entries[i], gone) && LaysOut(LeastLayout(entries[i], gone), entries[i])
              && Damage(LeastLayout(entries[i], gone), gone, blockSize) == LeastDamage(entries[i], gone, blockSize)
  {
    hide LaysOut, CanBeLaid, Damage, LeastDamage, Distinct, LeastLayout;
    forall i | 0 <= i < |entries|
      ensures CanBeLaid(entries[i], gone) && LaysOut(LeastLayout(entries[i], gone), entries[i])
      ensures Damage(LeastLayout(entries[i], gone), gone, blockSize) == LeastDamage(entries[i], gone, blockSize)
    {
      LeastLayoutDamage(entries[i], gone, layout[i], blockSize);
    }
  }

  lemma LeastTruthIsConsistent(
    l: Listing, c: Check, answered: set<ArticleId>, gone: set<ArticleId>, layout: seq<seq<Part>>)
    requires DistinctIds(l) && Accounts(l, c, answered, gone) && LayoutsFit(layout, l.data)
    requires c.settings.blockSize > 0
    ensures CanAllBeLaid(l, gone) && Consistent(LeastTruth(l, c, gone), l, c.settings)
    ensures TrueDamage(LeastTruth(l, c, gone)) == Sum(LeastDamages(l.data, gone, c.settings.blockSize))
    ensures TrueSurvivors(LeastTruth(l, c, gone)) == Sum(BestBlocks(c.volumes))
  {
    hide FilesAgree, VolumesAgree, IndexAgrees, CountersAgree, Survives, LaysOut, CanBeLaid, Damage, LeastDamage;
    hide DistinctEntries, LeastLayout, BestBlocks, Sum;
    AllCanBeLaid(l.data, gone, layout, c.settings.blockSize);
    BestBlocksSurvive(c.volumes, l.volumes, answered, gone);
    BestBlocksListed(c.volumes, l.volumes, answered, gone);
    var t := LeastTruth(l, c, gone);
    assert Damages(t.layout, t.lost, t.sliceSize) == LeastDamages(l.data, gone, c.settings.blockSize);
  }

  lemma BestBlocksListed(
    volumes: seq<Par2Volume>, entries: seq<FileEntry>, answered: set<ArticleId>, gone: set<ArticleId>)
    requires VolumesAgree(volumes, entries, answered, gone)
    ensures |BestBlocks(volumes)| == |entries|
  {
    hide VolumeFacts;
  }

  /** A verdict beyond repair is a proof, for every truth that agrees with the NZB and with
      what is known to be gone, if and only if it is justified. */
  lemma UnrecoverableIsProofIff(
    l: Listing, c: Check, answered: set<ArticleId>, gone: set<ArticleId>, layout: seq<seq<Part>>)
    requires DistinctIds(l) && Accounts(l, c, answered, gone) && LayoutsFit(layout, l.data)
    requires BeyondRepair(Verdict(c))
    ensures (forall t | Consistent(t, l, c.settings) && gone <= t.lost :: TrueDamage(t) > TrueSurvivors(t))
       <==> Justified(l, c, gone)
  {
    hide DistinctIds, Accounts, LayoutsFit, Verdict, BeyondRepair, Sum, LeastDamages, TrueDamage, TrueSurvivors;
    hide BestBlocks, LeastTruth, CanAllBeLaid;
    if Justified(l, c, gone) {
      forall t | Consistent(t, l, c.settings) && gone <= t.lost ensures TrueDamage(t) > TrueSurvivors(t) {
        UnrecoverableIsProof(l, c, t, answered, gone);
      }
    } else {
      LeastTruthIsConsistent(l, c, answered, gone, layout);
      LeastTruthLoses(l, c, gone);
    }
  }

  lemma LeastTruthLoses(l: Listing, c: Check, gone: set<ArticleId>)
    requires CanAllBeLaid(l, gone)
    ensures gone <= LeastTruth(l, c, gone).lost
  {
  }

  /** The lower end of the range holds for every truth, if and only if it is not above the
      least damage of the post. */
  lemma DamageLowHoldsIff(
    l: Listing, c: Check, answered: set<ArticleId>, gone: set<ArticleId>, layout: seq<seq<Part>>)
    requires DistinctIds(l) && Accounts(l, c, answered, gone) && LayoutsFit(layout, l.data)
    requires c.settings.blockSizeMeasured && c.settings.blockSize > 0
    ensures var low := DamageLow(c.files, c.settings.blockSize, c.counts.missingData);
            (forall t | Consistent(t, l, c.settings) && gone <= t.lost :: low <= TrueDamage(t))
            <==> low <= Sum(LeastDamages(l.data, gone, c.settings.blockSize))
  {
    hide DistinctIds, Accounts, LayoutsFit, Sum, LeastDamages, TrueDamage, TrueSurvivors;
    hide BestBlocks, LeastTruth, CanAllBeLaid, DamageLow;
    LeastTruthIsConsistent(l, c, answered, gone, layout);
    LeastTruthLoses(l, c, gone);
    var low := DamageLow(c.files, c.settings.blockSize, c.counts.missingData);
    if low <= Sum(LeastDamages(l.data, gone, c.settings.blockSize)) {
      forall t | Consistent(t, l, c.settings) && gone <= t.lost ensures low <= TrueDamage(t) {
        DamageLowHolds(l, c, t, gone);
      }
    }
  }
}
