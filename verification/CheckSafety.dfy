/** What holds in every state a check can reach, whatever the server sends, whichever
    connections drop and in whatever order the events of its connections interleave. */
module CheckSafety {
  import opened Options
  import opened Slices
  import opened NzbFacts
  import opened CheckState
  import opened Accounting
  import opened Parsing
  import opened EarlyStop
  import opened CheckRun

  function AllIds(l: Listing): set<ArticleId> { l.par2Ids + l.dataIds }

  function Waiting(c: Check): set<ArticleId> { Elements(c.par2Queue) + Elements(c.dataQueue) }

  /** Every article is in one place at most: a stack, a connection, or answered. */
  ghost predicate OnePlace(
    l: Listing, par2Queue: seq<ArticleId>, dataQueue: seq<ArticleId>, held: set<ArticleId>, answered: set<ArticleId>)
  {
    && NoDup(par2Queue) && NoDup(dataQueue)
    && Elements(par2Queue) <= l.par2Ids && Elements(dataQueue) <= l.dataIds
    && held <= AllIds(l) && answered <= AllIds(l) && held !! answered
    && held !! Elements(par2Queue) && held !! Elements(dataQueue)
    && answered !! Elements(par2Queue) && answered !! Elements(dataQueue)
  }

  /** No data article leaves its stack before every PAR2 article is answered. */
  ghost predicate Par2First(
    l: Listing, dataQueue: seq<ArticleId>, n: Counts, par2PhaseDone: bool, answered: set<ArticleId>)
  {
    && n.par2Answered == |answered * l.par2Ids| && n.par2Articles == |l.par2Ids|
    && (par2PhaseDone ==> l.par2Ids <= answered)
    && (par2PhaseDone || Elements(dataQueue) == l.dataIds)
  }

  /** The run is stopped exactly when it is due: neither without proof, nor too late. */
  ghost predicate StopsRightly(c: Check) {
    c.earlyStop <==> StopIsDue(c)
  }

  /** The counters are right, and so is the early stop. */
  ghost predicate Sound(l: Listing, c: Check, answered: set<ArticleId>, gone: set<ArticleId>) {
    Accounts(l, c, answered, gone) && gone <= answered && StopsRightly(c)
  }

  ghost predicate Core(
    l: Listing, c: Check, held: set<ArticleId>, answered: set<ArticleId>, gone: set<ArticleId>)
  {
    && Sound(l, c, answered, gone)
    && OnePlace(l, c.par2Queue, c.dataQueue, held, answered)
    && Par2First(l, c.dataQueue, c.counts, c.par2PhaseDone, answered)
  }

  /** No article has been lost track of. */
  ghost predicate Kept(l: Listing, c: Check, held: set<ArticleId>, answered: set<ArticleId>) {
    AllIds(l) <= Waiting(c) + held + answered
  }

  ghost predicate WellFormed(l: Listing) {
    DistinctIds(l) && forall id | id in AllIds(l) :: IsValidMessageId(id)
  }

  // ---- Taking an article from the stacks ----

  lemma PopElements(queue: seq<ArticleId>)
    requires queue != [] && NoDup(queue)
    ensures var init, last := queue[..|queue| - 1], queue[|queue| - 1];
            NoDup(init) && Elements(init) == Elements(queue) - {last} && last in Elements(queue)
  {
    assert queue == queue[..|queue| - 1] + [queue[|queue| - 1]];
  }

  lemma PushElements(queue: seq<ArticleId>, id: ArticleId)
    requires NoDup(queue) && id !in Elements(queue)
    ensures NoDup(queue + [id]) && Elements(queue + [id]) == Elements(queue) + {id}
  {
    forall i | 0 <= i < |queue| ensures queue[i] != id {
      assert queue[i] in Elements(queue);
    }
  }

  lemma AllAnswered(ids: set<ArticleId>, answered: set<ArticleId>)
    requires |answered * ids| >= |ids|
    ensures ids <= answered
  {
    forall id | id in ids ensures id in answered {
      if id !in answered {
        SubsetSize(answered * ids, ids - {id});
      }
    }
  }

  /** Only the queues may differ. */
  lemma SameSound(l: Listing, c: Check, d: Check, answered: set<ArticleId>, gone: set<ArticleId>)
    requires Sound(l, c, answered, gone)
    requires d.files == c.files && d.volumes == c.volumes && d.index == c.index && d.counts == c.counts
    requires d.settings == c.settings && d.earlyStop == c.earlyStop && d.par2PhaseDone == c.par2PhaseDone
    ensures Sound(l, d, answered, gone)
  {
    SameVerdict(c, d);
    hide FilesAgree, VolumesAgree, IndexAgrees, CountersAgree, Verdict, BeyondRepair;
  }

  lemma SameVerdict(c: Check, d: Check)
    requires d.files == c.files && d.volumes == c.volumes && d.counts == c.counts && d.settings == c.settings
    ensures Verdict(d) == Verdict(c)
  {
    hide DamagedRange, UsableRange, TotalRecovery, HasIntactIndex;
  }

  lemma SameAccounts(l: Listing, c: Check, d: Check, answered: set<ArticleId>, gone: set<ArticleId>)
    requires Accounts(l, c, answered, gone)
    requires d.files == c.files && d.volumes == c.volumes && d.index == c.index && d.counts == c.counts
    requires d.settings == c.settings
    ensures Accounts(l, d, answered, gone)
  {
    hide FilesAgree, VolumesAgree, IndexAgrees, CountersAgree;
  }

  lemma PhaseClosedIs(c: Check)
    ensures var d := PhaseClosed(c);
            && d.par2Queue == c.par2Queue && d.dataQueue == c.dataQueue && d.counts == c.counts
            && (d.par2PhaseDone <==> c.par2PhaseDone || c.counts.par2Answered >= c.counts.par2Articles)
  {
    hide Verdict, BeyondRepair;
  }

  lemma PhaseClosedIsSound(l: Listing, c: Check, answered: set<ArticleId>, gone: set<ArticleId>)
    requires Sound(l, c, answered, gone)
    ensures Sound(l, PhaseClosed(c), answered, gone)
  {
    hide Accounts, Reevaluated, Verdict, BeyondRepair;
    var d := c.(par2PhaseDone := true);
    SameVerdict(c, d);
    SameAccounts(l, c, Reevaluated(d), answered, gone);
    ReevaluationStopsOnProof(d);
  }

  lemma PhaseClosedKeepsCore(
    l: Listing, c: Check, held: set<ArticleId>, answered: set<ArticleId>, gone: set<ArticleId>)
    requires Core(l, c, held, answered, gone)
    ensures Core(l, PhaseClosed(c), held, answered, gone)
    ensures PhaseClosed(c).par2Queue == c.par2Queue && PhaseClosed(c).dataQueue == c.dataQueue
  {
    hide Sound, OnePlace, PhaseClosed;
    PhaseClosedIs(c);
    PhaseClosedIsSound(l, c, answered, gone);
    if PhaseClosed(c).par2PhaseDone && !c.par2PhaseDone {
      AllAnswered(l.par2Ids, answered);
    }
  }

  lemma PopPar2(
    l: Listing, par2Queue: seq<ArticleId>, dataQueue: seq<ArticleId>, held: set<ArticleId>, answered: set<ArticleId>)
    requires OnePlace(l, par2Queue, dataQueue, held, answered) && l.par2Ids !! l.dataIds && par2Queue != []
    ensures var init, id := par2Queue[..|par2Queue| - 1], par2Queue[|par2Queue| - 1];
            && OnePlace(l, init, dataQueue, held + {id}, answered) && id !in held && id in AllIds(l)
            && Elements(init) + Elements(dataQueue) == Elements(par2Queue) + Elements(dataQueue) - {id}
            && id in Elements(par2Queue)
  {
    hide NoDup, Elements;
    PopElements(par2Queue);
  }

  lemma PopData(
    l: Listing, par2Queue: seq<ArticleId>, dataQueue: seq<ArticleId>, held: set<ArticleId>, answered: set<ArticleId>)
    requires OnePlace(l, par2Queue, dataQueue, held, answered) && l.par2Ids !! l.dataIds && dataQueue != []
    ensures var init, id := dataQueue[..|dataQueue| - 1], dataQueue[|dataQueue| - 1];
            && OnePlace(l, par2Queue, init, held + {id}, answered) && id !in held && id in AllIds(l)
            && Elements(par2Queue) + Elements(init) == Elements(par2Queue) + Elements(dataQueue) - {id}
            && id in Elements(dataQueue)
  {
    hide NoDup, Elements;
    PopElements(dataQueue);
  }

  lemma TakePar2(l: Listing, c: Check, held: set<ArticleId>, answered: set<ArticleId>, gone: set<ArticleId>)
    requires Core(l, c, held, answered, gone) && l.par2Ids !! l.dataIds && c.par2Queue != []
    ensures var d, id := c.(par2Queue := c.par2Queue[..|c.par2Queue| - 1]), c.par2Queue[|c.par2Queue| - 1];
            && Core(l, d, held + {id}, answered, gone) && id !in held && id in AllIds(l)
            && Waiting(d) == Waiting(c) - {id} && id in Waiting(c)
  {
    hide Sound, OnePlace, NoDup, Elements;
    PopPar2(l, c.par2Queue, c.dataQueue, held, answered);
    SameSound(l, c, c.(par2Queue := c.par2Queue[..|c.par2Queue| - 1]), answered, gone);
  }

  lemma TakeData(l: Listing, c: Check, held: set<ArticleId>, answered: set<ArticleId>, gone: set<ArticleId>)
    requires Core(l, c, held, answered, gone) && l.par2Ids !! l.dataIds && c.dataQueue != [] && c.par2PhaseDone
    ensures var d, id := c.(dataQueue := c.dataQueue[..|c.dataQueue| - 1]), c.dataQueue[|c.dataQueue| - 1];
            && Core(l, d, held + {id}, answered, gone) && id !in held && id in AllIds(l)
            && Waiting(d) == Waiting(c) - {id} && id in Waiting(c)
  {
    hide Sound, OnePlace, NoDup, Elements;
    PopData(l, c.par2Queue, c.dataQueue, held, answered);
    SameSound(l, c, c.(dataQueue := c.dataQueue[..|c.dataQueue| - 1]), answered, gone);
  }

  /** What comes off a stack was in no other place. */
  lemma NextKeepsCore(
    l: Listing, c: Check, held: set<ArticleId>, answered: set<ArticleId>, gone: set<ArticleId>)
    requires Core(l, c, held, answered, gone) && l.par2Ids !! l.dataIds
    ensures var (d, next) := NextArticle(c);
            match next
            case None => Core(l, d, held, answered, gone) && Waiting(d) == Waiting(c)
            case Some(id) =>
              && Core(l, d, held + {id}, answered, gone) && id !in held
              && Waiting(d) == Waiting(c) - {id} && id in Waiting(c) && id in AllIds(l)
  {
    hide Core, PhaseClosed, Elements;
    if !c.earlyStop && c.par2Queue != [] {
      TakePar2(l, c, held, answered, gone);
    } else if !c.earlyStop {
      PhaseClosedKeepsCore(l, c, held, answered, gone);
      var p := PhaseClosed(c);
      if p.par2PhaseDone && p.dataQueue != [] {
        TakeData(l, p, held, answered, gone);
      }
    }
  }

  // ---- Handing one back ----

  lemma RequeuedIs(l: Listing, c: Check, id: ArticleId)
    requires DistinctIds(l) && IndexAgrees(c.index, l) && id in AllIds(l)
    ensures Requeued(c, id) == if id in l.par2Ids then c.(par2Queue := c.par2Queue + [id])
                                                  else c.(dataQueue := c.dataQueue + [id])
  {
    OwnerIs(l, c.index, id);
  }

  lemma PushBack(
    l: Listing, par2Queue: seq<ArticleId>, dataQueue: seq<ArticleId>, held: set<ArticleId>,
    answered: set<ArticleId>, id: ArticleId)
    requires OnePlace(l, par2Queue, dataQueue, held, answered) && l.par2Ids !! l.dataIds && id in held
    ensures id in l.par2Ids ==>
              && OnePlace(l, par2Queue + [id], dataQueue, held - {id}, answered)
              && Elements(par2Queue + [id]) == Elements(par2Queue) + {id}
    ensures id in l.dataIds ==>
              && OnePlace(l, par2Queue, dataQueue + [id], held - {id}, answered)
              && Elements(dataQueue + [id]) == Elements(dataQueue) + {id}
  {
    hide NoDup, Elements;
    PushElements(par2Queue, id);
    PushElements(dataQueue, id);
  }

  /** A data article is only held once the PAR2 phase is over. */
  lemma HeldDataMeansPhaseDone(
    l: Listing, c: Check, held: set<ArticleId>, answered: set<ArticleId>, gone: set<ArticleId>, id: ArticleId)
    requires Core(l, c, held, answered, gone) && id in l.dataIds && id !in Elements(c.dataQueue)
    ensures c.par2PhaseDone && l.par2Ids <= answered
  {
  }

  lemma SoundIndex(l: Listing, c: Check, answered: set<ArticleId>, gone: set<ArticleId>)
    requires Sound(l, c, answered, gone)
    ensures IndexAgrees(c.index, l) && OwnersInRange(c)
  {
    OwnersStayInRange(l, c, answered, gone);
  }

  lemma SameFilesInRange(c: Check, d: Check)
    requires OwnersInRange(c) && SameFiles(c, d)
    ensures OwnersInRange(d)
  {
  }

  lemma HeldIsListed(l: Listing, c: Check, held: set<ArticleId>, answered: set<ArticleId>, id: ArticleId)
    requires OnePlace(l, c.par2Queue, c.dataQueue, held, answered) && id in held
    ensures id in AllIds(l) && id !in Elements(c.dataQueue)
  {
  }

  lemma SidesAreDisjoint(l: Listing)
    requires DistinctIds(l)
    ensures l.par2Ids !! l.dataIds
  {
  }

  lemma RequeueKeepsPlaces(
    l: Listing, c: Check, held: set<ArticleId>, answered: set<ArticleId>, id: ArticleId)
    requires OnePlace(l, c.par2Queue, c.dataQueue, held, answered) && l.par2Ids !! l.dataIds && id in held
    requires Requeued(c, id) == if id in l.par2Ids then c.(par2Queue := c.par2Queue + [id])
                                                   else c.(dataQueue := c.dataQueue + [id])
    ensures var d := Requeued(c, id);
            OnePlace(l, d.par2Queue, d.dataQueue, held - {id}, answered) && Waiting(d) == Waiting(c) + {id}
  {
    hide OnePlace, Elements, NoDup, Requeued;
    HeldIsListed(l, c, held, answered, id);
    PushBack(l, c.par2Queue, c.dataQueue, held, answered, id);
  }

  lemma RequeueKeepsCore(
    l: Listing, c: Check, held: set<ArticleId>, answered: set<ArticleId>, gone: set<ArticleId>, id: ArticleId)
    requires Core(l, c, held, answered, gone) && DistinctIds(l) && id in held
    ensures Core(l, Requeued(c, id), held - {id}, answered, gone)
    ensures Waiting(Requeued(c, id)) == Waiting(c) + {id}
  {
    hide Sound, Elements, NoDup, Requeued, IndexAgrees, OwnersInRange, DistinctIds, OnePlace, Par2First, Waiting, AllIds;
    SoundIndex(l, c, answered, gone);
    HeldIsListed(l, c, held, answered, id);
    RequeuedIs(l, c, id);
    SidesAreDisjoint(l);
    RequeueKeepsPlaces(l, c, held, answered, id);
    RequeuedIsSound(l, c, answered, gone, id);
    if id !in l.par2Ids {
      ListedOnOneSide(l, id);
      HeldDataMeansPhaseDone(l, c, held, answered, gone, id);
    }
    Par2StaysFirst(l, c, Requeued(c, id), answered);
  }

  lemma ListedOnOneSide(l: Listing, id: ArticleId)
    requires id in AllIds(l) && id !in l.par2Ids
    ensures id in l.dataIds
  {
  }

  lemma Par2StaysFirst(l: Listing, c: Check, d: Check, answered: set<ArticleId>)
    requires Par2First(l, c.dataQueue, c.counts, c.par2PhaseDone, answered)
    requires d.counts == c.counts && d.par2PhaseDone == c.par2PhaseDone
    requires d.dataQueue == c.dataQueue || c.par2PhaseDone
    ensures Par2First(l, d.dataQueue, d.counts, d.par2PhaseDone, answered)
  {
  }

  lemma RequeuedIsSound(l: Listing, c: Check, answered: set<ArticleId>, gone: set<ArticleId>, id: ArticleId)
    requires Sound(l, c, answered, gone)
    ensures Sound(l, Requeued(c, id), answered, gone)
  {
    hide Sound;
    SameSound(l, c, Requeued(c, id), answered, gone);
  }

  // ---- An answer ----

  lemma CountMissingIs(c: Check, id: ArticleId)
    requires OwnersInRange(c)
    ensures var d := CountMissing(c, id);
            && d.earlyStop == c.earlyStop && d.par2PhaseDone == c.par2PhaseDone
            && d.par2Queue == c.par2Queue && d.dataQueue == c.dataQueue
            && d.counts.par2Answered == c.counts.par2Answered
            && d.counts.par2Articles == c.counts.par2Articles
  {
    hide OwnersInRange, VolumeLosing, FileLosing;
  }

  lemma MissingArticleIs(c: Check, id: ArticleId)
    requires OwnersInRange(c)
    ensures var d := MissingArticle(c, id);
            && d.par2PhaseDone == c.par2PhaseDone
            && d.par2Queue == c.par2Queue && d.dataQueue == c.dataQueue
            && d.counts.par2Answered == c.counts.par2Answered
            && d.counts.par2Articles == c.counts.par2Articles
  {
    hide OwnersInRange, CountMissing, Verdict;
    CountMissingIs(c, id);
  }

  lemma ArticleCheckedIs(c: Check, id: ArticleId)
    requires OwnersInRange(c)
    ensures var d := ArticleChecked(c, id);
            && d.earlyStop == c.earlyStop && d.par2PhaseDone == c.par2PhaseDone
            && d.par2Queue == c.par2Queue && d.dataQueue == c.dataQueue
            && d.counts.par2Articles == c.counts.par2Articles
            && d.counts.par2Answered
               == c.counts.par2Answered + if OwnerOf(c, id).Some? && OwnerOf(c, id).value.Volume? then 1 else 0
  {
    hide OwnersInRange, VolumeAnswering;
  }

  lemma LossIsSound(l: Listing, c: Check, answered: set<ArticleId>, gone: set<ArticleId>, id: ArticleId)
    requires DistinctIds(l) && Accounts(l, c, answered, gone) && id in AllIds(l) && id !in gone
    requires StopsRightly(c)
    ensures OwnersInRange(c) && StopsRightly(MissingArticle(c, id))
    ensures Accounts(l, MissingArticle(c, id), answered, gone + {id})
  {
    hide Verdict, BeyondRepair, CountMissing, DistinctIds;
    assert id in c.index.owner;
    hide IndexAgrees, FilesAgree, VolumesAgree, CountersAgree;
    MissingIsCounted(l, c, answered, gone, id);
    CountMissingIs(c, id);
    var d := CountMissing(c, id);
    if c.earlyStop {
      VerdictIsFinal(l, c, d, answered, answered, gone, gone + {id});
    }
    ReevaluationStopsOnProof(d);
  }

  lemma AnswerIsRight(l: Listing, c: Check, answered: set<ArticleId>, gone: set<ArticleId>, id: ArticleId)
    requires DistinctIds(l) && Accounts(l, c, answered, gone) && id in AllIds(l) && id !in answered
    requires StopsRightly(c)
    ensures OwnersInRange(c) && StopsRightly(ArticleChecked(c, id))
    ensures Accounts(l, ArticleChecked(c, id), answered + {id}, gone)
  {
    hide Verdict, BeyondRepair, ArticleChecked, DistinctIds;
    assert id in c.index.owner;
    hide Accounts;
    AnswerIsCounted(l, c, answered, gone, id);
    ArticleCheckedIs(c, id);
    if BeyondRepair(Verdict(c)) {
      VerdictIsFinal(l, c, ArticleChecked(c, id), answered, answered + {id}, gone, gone);
    } else if BeyondRepair(Verdict(ArticleChecked(c, id))) {
      VerdictIsFinal(l, ArticleChecked(c, id), c, answered + {id}, answered, gone, gone);
    }
  }

  lemma AnsweredIsSound(
    l: Listing, c: Check, answered: set<ArticleId>, gone: set<ArticleId>, id: ArticleId, lost: bool)
    requires DistinctIds(l) && Sound(l, c, answered, gone) && id in AllIds(l) && id !in answered
    ensures OwnersInRange(c)
    ensures Sound(l, Answered(c, id, lost), answered + {id}, if lost then gone + {id} else gone)
  {
    hide Accounts, DistinctIds, StopsRightly, MissingArticle, ArticleChecked;
    if lost {
      LossIsSound(l, c, answered, gone, id);
      AnswerIsRight(l, MissingArticle(c, id), answered, gone + {id}, id);
    } else {
      AnswerIsRight(l, c, answered, gone, id);
    }
  }

  lemma AnsweredIs(l: Listing, c: Check, id: ArticleId, lost: bool)
    requires OwnersInRange(c) && DistinctIds(l) && IndexAgrees(c.index, l) && id in AllIds(l)
    ensures var d := Answered(c, id, lost);
            && d.par2Queue == c.par2Queue && d.dataQueue == c.dataQueue && d.par2PhaseDone == c.par2PhaseDone
            && d.counts.par2Articles == c.counts.par2Articles
            && d.counts.par2Answered == c.counts.par2Answered + if id in l.par2Ids then 1 else 0
  {
    hide OwnersInRange, DistinctIds, MissingArticle, ArticleChecked, OwnerAgrees;
    OwnerIs(l, c.index, id);
    if lost {
      MissingArticleIs(c, id);
      SameFilesInRange(c, MissingArticle(c, id));
      ArticleCheckedIs(MissingArticle(c, id), id);
    } else {
      ArticleCheckedIs(c, id);
    }
  }

  lemma OneMoreAnswered(answered: set<ArticleId>, ids: set<ArticleId>, id: ArticleId)
    requires id !in answered
    ensures |(answered + {id}) * ids| == |answered * ids| + if id in ids then 1 else 0
  {
    if id in ids {
      assert (answered + {id}) * ids == answered * ids + {id};
    } else {
      assert (answered + {id}) * ids == answered * ids;
    }
  }

  lemma AnswerKeepsOnePlace(
    l: Listing, par2Queue: seq<ArticleId>, dataQueue: seq<ArticleId>, held: set<ArticleId>,
    answered: set<ArticleId>, id: ArticleId)
    requires OnePlace(l, par2Queue, dataQueue, held, answered) && id in held
    ensures OnePlace(l, par2Queue, dataQueue, held - {id}, answered + {id}) && id !in answered
  {
    hide NoDup, Elements;
  }

  /** The article a connection holds is answered: it leaves the connection for good. */
  lemma AnswerKeepsCore(
    l: Listing, c: Check, held: set<ArticleId>, answered: set<ArticleId>, gone: set<ArticleId>,
    id: ArticleId, lost: bool)
    requires DistinctIds(l) && Core(l, c, held, answered, gone) && id in held
    ensures OwnersInRange(c) && Waiting(Answered(c, id, lost)) == Waiting(c)
    ensures Core(l, Answered(c, id, lost), held - {id}, answered + {id}, if lost then gone + {id} else gone)
  {
    hide Sound, IndexAgrees, DistinctIds, Answered, OwnersInRange, OnePlace;
    HeldIsListed(l, c, held, answered, id);
    SoundIndex(l, c, answered, gone);
    AnswerKeepsOnePlace(l, c.par2Queue, c.dataQueue, held, answered, id);
    AnsweredIsSound(l, c, answered, gone, id, lost);
    AnsweredIs(l, c, id, lost);
    OneMoreAnswered(answered, l.par2Ids, id);
  }
}
