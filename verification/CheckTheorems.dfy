/** What a whole check promises, over every run of any number of connections.

    A run starts from a parsed document and takes any sequence of steps. `Clean` runs
    are those in which no connection asks for an article while it still holds one;
    `CheckPolls` says which runs are, and shows that others lose articles. */
module CheckTheorems {
  import opened Options
  import opened Slices
  import opened NzbFacts
  import opened CheckState
  import opened Accounting
  import opened Parsing
  import opened Recovery
  import opened EarlyStop
  import opened Verdicts
  import opened CheckRun
  import opened CheckSafety
  import opened CheckSteps

  function Held(cons: seq<Con>): set<ArticleId> {
    set con | con in cons && con.current.Some? :: con.current.value
  }

  function HeldElsewhere(cons: seq<Con>, i: nat): set<ArticleId> {
    set k | 0 <= k < |cons| && k != i && cons[k].current.Some? :: cons[k].current.value
  }

  ghost predicate HeldOnce(cons: seq<Con>) {
    forall i, k | 0 <= i < k < |cons| && cons[i].current.Some? :: cons[i].current != cons[k].current
  }

  /** Every listed article is in exactly one place and the check knows what was answered. */
  ghost predicate Good(l: Listing, r: Run) {
    && Core(l, r.check, Held(r.cons), r.answered, r.gone)
    && Kept(l, r.check, Held(r.cons), r.answered)
    && HeldOnce(r.cons) && forall con | con in r.cons :: AwaitsReply(con)
  }

  ghost predicate Clean(s: Server, r: Run, steps: seq<Step>)
    requires OwnersInRange(r.check)
  {
    steps == [] ||
    (var before, step := After(s, r, steps[..|steps| - 1]), steps[|steps| - 1];
     && Clean(s, r, steps[..|steps| - 1])
     && (step.con < |before.cons| ==> !Overwrites(s, before.cons[step.con], step.event)))
  }

  // ---- One step ----

  lemma HeldSplits(cons: seq<Con>, i: nat)
    requires i < |cons| && HeldOnce(cons)
    ensures Held(cons) == HeldBy(cons[i]) + HeldElsewhere(cons, i)
    ensures HeldBy(cons[i]) !! HeldElsewhere(cons, i)
  {
  }

  lemma HeldUpdates(cons: seq<Con>, i: nat, con: Con)
    requires i < |cons| && HeldOnce(cons) && HeldBy(con) !! HeldElsewhere(cons, i)
    ensures HeldOnce(cons[i := con]) && Held(cons[i := con]) == HeldBy(con) + HeldElsewhere(cons, i)
  {
    var cons' := cons[i := con];
    forall j, k | 0 <= j < k < |cons'| && cons'[j].current.Some? ensures cons'[j].current != cons'[k].current {
      if j == i && cons'[k].current.Some? {
        assert cons[k].current.value in HeldElsewhere(cons, i);
      } else if k == i && con.current.Some? {
        assert cons[j].current.value in HeldElsewhere(cons, i);
      }
    }
    HeldSplits(cons', i);
    SameElsewhere(cons, i, con);
  }

  lemma SameElsewhere(cons: seq<Con>, i: nat, con: Con)
    requires i < |cons|
    ensures HeldElsewhere(cons[i := con], i) == HeldElsewhere(cons, i)
  {
    var cons' := cons[i := con];
    forall id | id in HeldElsewhere(cons, i) ensures id in HeldElsewhere(cons', i) {
      var k :| 0 <= k < |cons| && k != i && cons[k].current.Some? && cons[k].current.value == id;
      assert cons'[k] == cons[k];
    }
  }

  lemma NextIs(s: Server, r: Run, step: Step)
    requires OwnersInRange(r.check) && step.con < |r.cons|
    ensures var (d, con') := Handle(s, r.check, r.cons[step.con], step.event);
            var a := AnswerOf(r.cons[step.con], step.event);
            Next(s, r, step)
            == Run(d, r.cons[step.con := con'], WithAnswer(r.answered, a), WithLoss(r.gone, a))
  {
  }

  lemma StepIsGood(s: Server, l: Listing, r: Run, step: Step)
    requires WellFormed(l) && Good(l, r) && OwnersInRange(r.check) && step.con < |r.cons|
    requires !Overwrites(s, r.cons[step.con], step.event)
    ensures Good(l, Next(s, r, step))
  {
    hide WellFormed, Core, OwnersInRange, Handle, Held, HeldElsewhere, HeldOnce, Waiting, AwaitsReply, HeldBy;
    hide Overwrites, Next, AnswerOf, WithAnswer, WithLoss, AllIds;
    var con, others := r.cons[step.con], HeldElsewhere(r.cons, step.con);
    var (d, con') := Handle(s, r.check, con, step.event);
    assert con in r.cons;
    HeldSplits(r.cons, step.con);
    HandleKeeps(s, l, r.check, con, others, r.answered, r.gone, step.event);
    HeldUpdates(r.cons, step.con, con');
    NextIs(s, r, step);
    KeptAfter(AllIds(l), Waiting(r.check), HeldBy(con), r.answered, others,
              Waiting(d), HeldBy(con'), WithAnswer(r.answered, AnswerOf(con, step.event)));
    AllAwait(r.cons, step.con, con');
  }

  lemma AllAwait(cons: seq<Con>, i: nat, con: Con)
    requires i < |cons| && AwaitsReply(con) && forall c | c in cons :: AwaitsReply(c)
    ensures forall c | c in cons[i := con] :: AwaitsReply(c)
  {
  }

  lemma KeptAfter(
    all: set<ArticleId>, waiting: set<ArticleId>, held: set<ArticleId>, answered: set<ArticleId>,
    others: set<ArticleId>, waiting': set<ArticleId>, held': set<ArticleId>, answered': set<ArticleId>)
    requires all <= waiting + (held + others) + answered
    requires waiting' + held' + answered' == waiting + held + answered
    ensures all <= waiting' + (held' + others) + answered'
  {
  }

  // ---- Every run ----

  lemma IdsAreValid(l: Listing)
    requires DistinctIds(l)
    ensures WellFormed(l)
  {
  }

  lemma StartIsGood(doc: NzbDocument, settings: Settings, connections: nat)
    requires DistinctIds(ListingOf(doc))
    ensures OwnersInRange(Parsed(doc, settings)) && WellFormed(ListingOf(doc))
    ensures Good(ListingOf(doc), Started(Parsed(doc, settings), connections))
  {
    hide DistinctIds, Accounts, Holds, WellFormed, Core, Kept, ListingOf, OwnersInRange, ReadFiles, IsValidMessageId;
    var l, c := ListingOf(doc), Parsed(doc, settings);
    ParsedAccounts(doc, settings);
    OwnersStayInRange(l, c, {}, {});
    IdsAreValid(l);
    NoneAnsweredYet(l, c);
    FreshCore(l, c);
    assert Held(Started(c, connections).cons) == {};
  }

  lemma NoneAnsweredYet(l: Listing, c: Check)
    requires Accounts(l, c, {}, {})
    ensures c.counts.par2Answered == 0
  {
    hide FilesAgree, IndexAgrees;
    NothingAnswered(c.volumes, l.volumes, {});
  }

  lemma FreshCore(l: Listing, c: Check)
    requires Accounts(l, c, {}, {}) && Holds(c.par2Queue, l.par2Ids) && Holds(c.dataQueue, l.dataIds)
    requires !c.par2PhaseDone && !c.earlyStop && c.counts.par2Answered == 0
    ensures Core(l, c, {}, {}, {}) && Kept(l, c, {}, {})
  {
    hide FilesAgree, VolumesAgree, IndexAgrees, NoDup, Elements;
    assert {} * l.par2Ids == {};
  }

  lemma NoSuchConnection(s: Server, r: Run, step: Step)
    requires OwnersInRange(r.check) && step.con >= |r.cons|
    ensures Next(s, r, step) == r
  {
  }

  /** Every state of a clean run is good. */
  lemma {:induction false} RunIsGood(s: Server, l: Listing, r: Run, steps: seq<Step>)
    requires WellFormed(l) && Good(l, r) && OwnersInRange(r.check) && Clean(s, r, steps)
    ensures Good(l, After(s, r, steps))
  {
    hide WellFormed, Good, Overwrites, OwnersInRange, Next;
    if steps != [] {
      var init, step := steps[..|steps| - 1], steps[|steps| - 1];
      RunIsGood(s, l, r, init);
      var before := After(s, r, init);
      SameFilesInRange(r.check, before.check);
      if step.con < |before.cons| {
        StepIsGood(s, l, before, step);
      } else {
        NoSuchConnection(s, before, step);
      }
    }
  }

  /** Conservation: the stacks, the articles in flight and the answers partition the
      articles listed, and no two connections ask about the same one. */
  lemma ArticlesAreConserved(l: Listing, r: Run)
    requires Good(l, r)
    ensures AllIds(l) == Waiting(r.check) + Held(r.cons) + r.answered
    ensures Waiting(r.check) !! Held(r.cons) && Waiting(r.check) !! r.answered && Held(r.cons) !! r.answered
    ensures NoDup(r.check.par2Queue) && NoDup(r.check.dataQueue) && HeldOnce(r.cons)
    ensures r.check.counts.checked == |r.answered|
  {
    hide NoDup, Elements, HeldOnce, FilesAgree, VolumesAgree, IndexAgrees, Par2First;
  }

  /** PAR2 first: while one PAR2 article is unanswered, no connection holds a data article
      and none has been answered. */
  lemma Par2ComesFirst(l: Listing, r: Run)
    requires Good(l, r) && !(l.par2Ids <= r.answered) && l.par2Ids !! l.dataIds
    ensures Held(r.cons) !! l.dataIds && r.answered !! l.dataIds
    ensures Elements(r.check.dataQueue) == l.dataIds && !r.check.par2PhaseDone
  {
    hide Sound, NoDup, Elements;
  }

  /** The NZB lists every part its subjects announce. */
  ghost predicate NothingAbsent(l: Listing) {
    && (forall e | e in l.data :: Absent(e) == 0)
    && (forall e | e in l.volumes :: Absent(e) == 0)
  }

  lemma {:induction false} SumIsZero(ns: seq<int>)
    requires forall i | 0 <= i < |ns| :: ns[i] >= 0
    ensures Sum(ns) == 0 <==> forall i | 0 <= i < |ns| :: ns[i] == 0
  {
    SumNonNegative(ns);
    if forall i | 0 <= i < |ns| :: ns[i] == 0 {
      if ns != [] {
        SumIsZero(ns[..|ns| - 1]);
      }
    }
  }

  lemma NoFileLoss(files: seq<NzbDataFile>, entries: seq<FileEntry>, gone: set<ArticleId>, blockSize: int)
    requires FilesAgree(files, entries, gone, blockSize)
    ensures Sum(Losses(files)) >= 0
    ensures Sum(Losses(files)) == 0 <==> (ListedIds(entries) !! gone && forall e | e in entries :: Absent(e) == 0)
  {
    SumNonNegative(Losses(files));
    SumIsZero(Losses(files));
    forall i | 0 <= i < |files|
      ensures Losses(files)[i] == 0 <==> (EntryIds(entries[i]) !! gone && Absent(entries[i]) == 0)
    {
      assert FileAgrees(files[i], entries[i], gone, blockSize);
      NoLoss(entries[i], gone);
    }
    hide FilesAgree, Losses, EntryIds, Absent;
    EachDisjoint(entries, gone);
  }

  lemma NoVolumeLoss(
    volumes: seq<Par2Volume>, entries: seq<FileEntry>, answered: set<ArticleId>, gone: set<ArticleId>)
    requires VolumesAgree(volumes, entries, answered, gone)
    ensures Sum(VolumeLosses(volumes)) >= 0
    ensures Sum(VolumeLosses(volumes)) == 0 <==> (ListedIds(entries) !! gone && forall e | e in entries :: Absent(e) == 0)
  {
    SumNonNegative(VolumeLosses(volumes));
    SumIsZero(VolumeLosses(volumes));
    forall i | 0 <= i < |volumes|
      ensures VolumeLosses(volumes)[i] == 0 <==> (EntryIds(entries[i]) !! gone && Absent(entries[i]) == 0)
    {
      assert volumes[i] == VolumeFacts(entries[i], answered, gone);
      NoLoss(entries[i], gone);
    }
    hide VolumesAgree, VolumeLosses, EntryIds, Absent;
    EachDisjoint(entries, gone);
  }

  lemma NoLoss(e: FileEntry, gone: set<ArticleId>)
    ensures Absent(e) + Tally(One, Accepted(e.segments), gone) == 0
       <==> (EntryIds(e) !! gone && Absent(e) == 0)
  {
    CountBelow(Accepted(e.segments), gone);
  }

  lemma EachDisjoint(entries: seq<FileEntry>, gone: set<ArticleId>)
    ensures ListedIds(entries) !! gone <==> forall i | 0 <= i < |entries| :: EntryIds(entries[i]) !! gone
  {
  }

  lemma NothingMissingIff(l: Listing, c: Check, answered: set<ArticleId>, gone: set<ArticleId>)
    requires DistinctIds(l) && Accounts(l, c, answered, gone) && gone <= AllIds(l)
    ensures c.counts.missing == 0 <==> gone == {} && NothingAbsent(l)
    ensures c.counts.listed == |AllIds(l)|
  {
    hide FilesAgree, VolumesAgree, IndexAgrees, DistinctIds, ListedIds, Absent, Losses, VolumeLosses;
    SidesAreDisjoint(l);
    assert |AllIds(l)| == |l.par2Ids| + |l.dataIds|;
    ListedAre(l);
    NoFileLoss(c.files, l.data, gone, c.settings.blockSize);
    NoVolumeLoss(c.volumes, l.volumes, answered, gone);
  }

  lemma ListedAre(l: Listing)
    requires DistinctIds(l)
    ensures l.dataIds == ListedIds(l.data) && l.par2Ids == ListedIds(l.volumes)
  {
  }

  /** `Complete` means it: every article the NZB announces is listed, every listed one was
      answered, and none of the answers was 430. Nothing else earns that status. */
  lemma CompleteIff(l: Listing, r: Run)
    requires DistinctIds(l) && Good(l, r)
    ensures Status(r.check) == Complete
       <==> !r.check.unusable && r.answered == AllIds(l) && r.gone == {} && NothingAbsent(l)
  {
    var c := r.check;
    hide DistinctIds, NothingAbsent, FilesAgree, VolumesAgree, IndexAgrees, Par2First, Verdict, NoDup, Elements;
    NothingMissingIff(l, c, r.answered, r.gone);
    SubsetSize(r.answered, AllIds(l));
    if |r.answered| == |AllIds(l)| {
      SameSize(r.answered, AllIds(l));
    }
    MissingDataIsMissing(l, c, r.answered, r.gone);
    if BeyondRepair(Verdict(c)) {
      DataIsMissing(c);
    }
  }

  /** The check is inconclusive exactly when it could not be attempted, or while it owes an
      answer it has not proved needless: it was not stopped, and an article still waits or
      is in flight. */
  lemma InconclusiveIff(l: Listing, r: Run)
    requires DistinctIds(l) && Good(l, r)
    ensures Status(r.check) == Inconclusive
       <==> r.check.unusable || (!r.check.earlyStop && Waiting(r.check) + Held(r.cons) != {})
  {
    hide DistinctIds, FilesAgree, VolumesAgree, IndexAgrees, Par2First, Verdict, NoDup, Elements, HeldOnce;
    ArticlesAreConserved(l, r);
    SidesAreDisjoint(l);
    assert |AllIds(l)| == |l.par2Ids| + |l.dataIds|;
    SubsetSize(r.answered, AllIds(l));
    if |r.answered| == |AllIds(l)| {
      SameSize(r.answered, AllIds(l));
    }
  }

  /** Unrecoverable is reported exactly when the verdict is beyond repair, once the run was
      stopped or has every answer. */
  lemma UnrecoverableIff(l: Listing, r: Run)
    requires DistinctIds(l) && Good(l, r)
    ensures Status(r.check) == Unrecoverable
       <==> !r.check.unusable && BeyondRepair(Verdict(r.check)) && (r.check.earlyStop || r.answered == AllIds(l))
  {
    var c := r.check;
    hide DistinctIds, FilesAgree, VolumesAgree, IndexAgrees, Par2First, Verdict, NoDup, Elements;
    InconclusiveIff(l, r);
    ArticlesAreConserved(l, r);
    MissingDataIsMissing(l, c, r.answered, r.gone);
    if BeyondRepair(Verdict(c)) {
      DataIsMissing(c);
    }
  }

  /** The run is stopped exactly when the PAR2 articles are all answered, the post is found
      beyond repair, and the user did not ask for everything: never sooner or later. */
  lemma StoppedIff(l: Listing, r: Run)
    requires Good(l, r)
    ensures r.check.earlyStop
       <==> r.check.par2PhaseDone && BeyondRepair(Verdict(r.check)) && !r.check.settings.checkFull
    ensures r.check.earlyStop ==> l.par2Ids <= r.answered
  {
    hide Accounts, OnePlace, Kept, HeldOnce, Verdict, BeyondRepair;
  }

  /** In any state of a run the verdict is the answer that the document and the replies so
      far call for; a favourable one has seen a base file of which nothing is missing. */
  lemma RunAnswerIs(l: Listing, r: Run)
    requires DistinctIds(l) && Good(l, r)
    ensures AnswerIs(Verdict(r.check), l, r.check.settings, r.answered, r.gone)
    ensures Verdict(r.check) == ProbablyRecoverable ==> IndexIsThere(l.volumes, r.answered, r.gone)
  {
    hide DistinctIds, Accounts, OnePlace, Par2First, Kept, HeldOnce, Verdict, StopsRightly, Covered, IndexIsThere, Exceeded, DataIsLost;
    VerdictIs(l, r.check, r.answered, r.gone);
  }

  lemma SameSize<T>(small: set<T>, big: set<T>)
    requires small <= big && |small| == |big|
    ensures small == big
  {
    assert big == small + (big - small);
  }

  // ---- A server that tells the truth ----

  /** It answers 430 exactly for the articles it does not have. */
  ghost predicate Tells(lost: set<ArticleId>, r: Run) {
    && r.gone <= r.answered && forall id | id in r.answered :: id in r.gone <==> id in lost
  }

  /** A run in which every reply to STAT is true. */
  ghost predicate Honest(s: Server, r: Run, steps: seq<Step>, lost: set<ArticleId>)
    requires OwnersInRange(r.check)
  {
    steps == [] ||
    (var before, step := After(s, r, steps[..|steps| - 1]), steps[|steps| - 1];
     && Honest(s, r, steps[..|steps| - 1], lost)
     && (step.con < |before.cons| ==>
           match AnswerOf(before.cons[step.con], step.event)
           case None => true
           case Some(Answer(id, gone)) => gone <==> id in lost))
  }

  lemma {:induction false} HonestRunTells(s: Server, l: Listing, r: Run, steps: seq<Step>, lost: set<ArticleId>)
    requires WellFormed(l) && Good(l, r) && OwnersInRange(r.check) && Clean(s, r, steps)
    requires Tells(lost, r) && Honest(s, r, steps, lost)
    ensures Tells(lost, After(s, r, steps))
  {
    hide WellFormed, Good, Overwrites, OwnersInRange, Next, AnswerOf;
    if steps != [] {
      var init, step := steps[..|steps| - 1], steps[|steps| - 1];
      HonestRunTells(s, l, r, init, lost);
      RunIsGood(s, l, r, init);
      var before := After(s, r, init);
      SameFilesInRange(r.check, before.check);
      if step.con < |before.cons| {
        AnswerIsNew(l, before, step);
        NextIs(s, before, step);
      } else {
        NoSuchConnection(s, before, step);
      }
    }
  }

  /** An article is answered at most once. */
  lemma AnswerIsNew(l: Listing, r: Run, step: Step)
    requires Good(l, r) && step.con < |r.cons|
    ensures var a := AnswerOf(r.cons[step.con], step.event);
            a.Some? ==> a.value.id !in r.answered && a.value.id in AllIds(l)
  {
    hide Sound, Par2First, NoDup, Elements;
    var con := r.cons[step.con];
    assert con in r.cons;
    assert con.current.Some? ==> con.current.value in Held(r.cons);
  }

  lemma TellingIsTruthful(l: Listing, r: Run, t: Truth)
    requires Good(l, r) && Tells(t.lost, r)
    ensures Truthful(t, r.answered, r.gone) && r.gone <= t.lost
  {
  }

  /** In any state of a run, the status Unrecoverable proves that the post cannot be
      repaired, early stop or not. */
  lemma UnrecoverableRunIsProof(l: Listing, r: Run, t: Truth)
    requires DistinctIds(l) && Good(l, r) && Tells(t.lost, r)
    requires Consistent(t, l, r.check.settings) && Justified(l, r.check, r.gone)
    requires Status(r.check) == Unrecoverable
    ensures TrueDamage(t) > TrueSurvivors(t)
  {
    UnrecoverableStatus(r.check);
    hide Status, DistinctIds, Consistent, Justified, Par2First, OnePlace, Kept, HeldOnce, Accounts, TrueDamage, TrueSurvivors, Verdict;
    TellingIsTruthful(l, r, t);
    UnrecoverableIsProof(l, r.check, t, r.answered, r.gone);
  }

  lemma UnrecoverableStatus(c: Check)
    requires Status(c) == Unrecoverable
    ensures BeyondRepair(Verdict(c))
  {
  }

  /** Once every article is answered, the verdict ProbablyRecoverable proves that the
      surviving blocks outnumber the damaged slices. */
  lemma RecoverableRunIsProof(l: Listing, r: Run, t: Truth)
    requires DistinctIds(l) && Good(l, r) && Tells(t.lost, r) && r.answered == AllIds(l)
    requires Consistent(t, l, r.check.settings)
    requires forall i | 0 <= i < |l.data| && l.data[i].expected == 0 ::
               |t.layout[i]| == |Accepted(l.data[i].segments)|
    requires Verdict(r.check) == ProbablyRecoverable && !CutInFavour(r.check)
    ensures TrueDamage(t) <= TrueSurvivors(t)
    ensures exists e :: e in l.volumes && !e.isVolume && EntryIds(e) !! t.lost && Absent(e) == 0 && e.expected > 0
  {
    IndexIsOnServer(l, r, t.lost);
    forall i | 0 <= i < |l.data| ensures AllLossesKnown(t.layout[i], l.data[i], r.gone, t.lost) {
      LossesAreKnown(l, r.answered, r.gone, t.lost, i);
    }
    hide DistinctIds, Par2First, OnePlace, Kept, HeldOnce, Accounts, TrueDamage, TrueSurvivors, Verdict;
    hide CutInFavour, AllLossesKnown, LayoutsFit;
    TellingIsTruthful(l, r, t);
    ProbablyRecoverableIsProof(l, r.check, t, r.answered, r.gone);
  }

  lemma IndexIsOnServer(l: Listing, r: Run, lost: set<ArticleId>)
    requires DistinctIds(l) && Good(l, r) && Tells(lost, r) && Verdict(r.check) == ProbablyRecoverable
    ensures exists e :: e in l.volumes && !e.isVolume && EntryIds(e) !! lost && Absent(e) == 0 && e.expected > 0
  {
    hide DistinctIds, Good, Verdict, EntryIds, Absent;
    RunAnswerIs(l, r);
    var e :| e in l.volumes && !e.isVolume && Unharmed(e, r.answered, r.gone);
    forall id | id in EntryIds(e) ensures id !in lost {
      assert id in r.answered && id !in r.gone;
    }
  }

  lemma LossesAreKnown(l: Listing, answered: set<ArticleId>, gone: set<ArticleId>, lost: set<ArticleId>, i: nat)
    requires l.dataIds == ListedIds(l.data) && answered == AllIds(l) && i < |l.data|
    requires forall id | id in answered :: id in gone <==> id in lost
    ensures lost * EntryIds(l.data[i]) == gone * EntryIds(l.data[i])
  {
  }

  /** Stopping early never changes the answer: a run that stopped and a run of the same
      post on the same server that asked about every article report the same status. */
  lemma EarlyStopIsHarmless(l: Listing, stopped: Run, full: Run, lost: set<ArticleId>)
    requires Good(l, stopped) && Good(l, full) && Tells(lost, stopped) && Tells(lost, full)
    requires stopped.check.settings.(checkFull := true) == full.check.settings.(checkFull := true)
    requires stopped.check.earlyStop && !stopped.check.unusable && !full.check.unusable
    requires DistinctIds(l) && full.answered == AllIds(l)
    ensures Status(stopped.check) == Status(full.check) == Unrecoverable
    ensures !stopped.check.settings.checkFull
  {
    hide FilesAgree, VolumesAgree, IndexAgrees, Par2First, Status, Verdict, NoDup, Elements, HeldOnce, DistinctIds;
    SidesAreDisjoint(l);
    assert |AllIds(l)| == |l.par2Ids| + |l.dataIds|;
    StoppingKeepsTheAnswer(l, stopped.check, full.check, stopped.answered, full.answered, stopped.gone, full.gone);
  }
}
