/** A run that loses an article: the condition of the theorems about clean runs is needed.

    One of two connections waits for the PAR2 answers when both lose their transport. Its
    timer fires while it reconnects, takes the article the other one handed back, and the
    next greeting makes it ask again. */
module StalePoll {
  import opened Options
  import opened NzbFacts
  import opened Accounting
  import Parsing
  import CheckSafety
  import opened CheckState
  import opened CheckRun
  import opened CheckSteps
  import opened CheckTheorems

  /** A check at its start, with this one PAR2 article and some data articles. */
  predicate OnePar2Article(c: Check, p: ArticleId) {
    && c.par2Queue == [p] && c.dataQueue != [] && IsValidMessageId(p)
    && p in c.index.owner && c.index.owner[p].Volume?
    && c.counts.par2Answered < c.counts.par2Articles && !c.par2PhaseDone && !c.earlyStop
  }

  function Connect(i: nat): seq<Step> { [Step(i, Start(false)), Step(i, Opened(false)), Step(i, Line(200))] }

  const BOTH_DROP: seq<Step> := [Step(1, Dropped), Step(0, Dropped), Step(1, Poll)]

  function LosingSteps(): seq<Step> { ((Connect(0) + Connect(1)) + BOTH_DROP) + Connect(1) }

  function Taken(c: Check): Check { c.(par2Queue := []) }

  const WAITING: Con := Con(Up, false, Idle, None, 0, 1, 1, false)

  function Asking(p: ArticleId): Con { Con(Up, false, CheckingArticle, Some(p), 0, 0, 0, true) }

  function Retrying(polls: nat, waits: nat): Con { Con(Starting, false, NotConnected, None, 1, waits, polls, false) }

  function Stray(p: ArticleId): Con { Con(Starting, false, CheckingArticle, Some(p), 1, 0, 0, false) }

  lemma TakesTheArticle(c: Check, p: ArticleId)
    requires OnePar2Article(c, p)
    ensures NextArticle(c) == (Taken(c), Some(p)) && NextArticle(Taken(c)) == (Taken(c), None)
    ensures WaitingForPar2(Taken(c)) && HasArticlesLeft(Taken(c)) && Requeued(Taken(c), p) == c
    ensures HasArticlesLeft(c)
  {
  }

  /** Connecting to a server without authentication leads straight to the next article. */
  lemma Connects(s: Server, c: Check, con: Con)
    requires OwnersInRange(c) && con.link.Starting? && !con.handshaking && !s.hasUser
    ensures var up := con.(link := Up, phase := Connected, watchdog := true);
            && Handle(s, c, con, Start(false)) == (c, con.(link := Connecting, watchdog := true))
            && Handle(s, c, con.(link := Connecting, watchdog := true), Opened(false)) == (c, up)
            && Handle(s, c, up, Line(200)) == CheckNext(s, c, up.(phase := Idle, watchdog := false))
  {
  }

  lemma FirstHolds(s: Server, c: Check, p: ArticleId)
    requires OwnersInRange(c) && OnePar2Article(c, p) && !s.hasUser
    ensures CheckNext(s, c, FRESH.(link := Up, phase := Idle)) == (Taken(c), Asking(p))
  {
  }

  lemma SecondWaits(s: Server, c: Check, p: ArticleId)
    requires OwnersInRange(c) && OnePar2Article(c, p) && !s.hasUser && s.waitBound > 0
    ensures CheckNext(s, Taken(c), FRESH.(link := Up, phase := Idle)) == (Taken(c), WAITING)
  {
  }

  lemma BothDrop(s: Server, c: Check, p: ArticleId)
    requires OwnersInRange(c) && OnePar2Article(c, p) && s.maxRetries > 0
    ensures Handle(s, Taken(c), WAITING, Dropped) == (Taken(c), Retrying(1, 1))
    ensures Handle(s, Taken(c), Asking(p), Dropped) == (c, Retrying(0, 0))
  {
    hide OwnersInRange, IsValidMessageId;
    TakesTheArticle(c, p);
  }

  lemma StrayPoll(s: Server, c: Check, p: ArticleId)
    requires OwnersInRange(c) && OnePar2Article(c, p)
    ensures Handle(s, c, Retrying(1, 1), Poll) == (Taken(c), Stray(p))
  {
  }

  lemma Overwritten(s: Server, c: Check, p: ArticleId)
    requires OwnersInRange(c) && OnePar2Article(c, p) && !s.hasUser && s.waitBound > 0
    ensures CheckNext(s, Taken(c), Stray(p).(link := Up, phase := Idle))
         == (Taken(c), Con(Up, false, Idle, None, 1, 1, 1, false))
  {
  }

  lemma Steps3(s: Server, r: Run, a: Step, b: Step, d: Step)
    requires OwnersInRange(r.check)
    ensures After(s, r, [a, b, d]) == Next(s, Next(s, Next(s, r, a), b), d)
  {
    hide OwnersInRange, Next;
    var r1 := Next(s, r, a);
    CheckSafety.SameFilesInRange(r.check, r1.check);
    CheckSafety.SameFilesInRange(r1.check, Next(s, r1, b).check);
    assert [a, b, d][..2] == [a, b] && [a, b][..1] == [a] && [a][..0] == [];
    assert After(s, r, [a]) == Next(s, r, a);
    assert After(s, r, [a, b]) == Next(s, Next(s, r, a), b);
  }

  lemma {:induction false} AfterAppend(s: Server, r: Run, a: seq<Step>, b: seq<Step>)
    requires OwnersInRange(r.check)
    ensures OwnersInRange(After(s, r, a).check)
    ensures After(s, r, a + b) == After(s, After(s, r, a), b)
  {
    hide OwnersInRange, Next;
    CheckSafety.SameFilesInRange(r.check, After(s, r, a).check);
    if b == [] {
      assert a + b == a;
    } else {
      AfterAppend(s, r, a, b[..|b| - 1]);
      assert (a + b)[..|a + b| - 1] == a + b[..|b| - 1];
    }
  }

  /** Three steps of one connection that ends in the wait or with an article. */
  lemma ConnectRun(s: Server, r: Run, i: nat)
    requires OwnersInRange(r.check) && i < |r.cons| && !s.hasUser
    requires r.cons[i].link.Starting? && !r.cons[i].handshaking
    requires r.cons[i].current.None? || !r.cons[i].phase.Connected?
    ensures var (d, con') := CheckNext(s, r.check, r.cons[i].(link := Up, phase := Idle, watchdog := false));
            After(s, r, Connect(i))
            == Run(d, r.cons[i := con'], r.answered, r.gone)
  {
    hide OwnersInRange, CheckNext, Next, Handle;
    var con := r.cons[i];
    Connects(s, r.check, con);
    Steps3(s, r, Step(i, Start(false)), Step(i, Opened(false)), Step(i, Line(200)));
    NextIs(s, r, Step(i, Start(false)));
    var r1 := r.(cons := r.cons[i := con.(link := Connecting, watchdog := true)]);
    assert Next(s, r, Step(i, Start(false))) == r1;
    NextIs(s, r1, Step(i, Opened(false)));
    var r2 := r.(cons := r.cons[i := con.(link := Up, phase := Connected, watchdog := true)]);
    assert r1.cons[i := r2.cons[i]] == r2.cons;
    assert Next(s, r1, Step(i, Opened(false))) == r2;
    NextIs(s, r2, Step(i, Line(200)));
  }

  lemma DropRun(s: Server, c: Check, p: ArticleId, r: Run)
    requires OwnersInRange(c) && OnePar2Article(c, p) && s.maxRetries > 0
    requires r == Run(Taken(c), [Asking(p), WAITING], {}, {}) && OwnersInRange(r.check)
    ensures After(s, r, BOTH_DROP)
         == Run(Taken(c), [Retrying(0, 0), Stray(p)], {}, {})
  {
    hide OwnersInRange, OnePar2Article, CheckNext, Next, Handle, Taken;
    Steps3(s, r, Step(1, Dropped), Step(0, Dropped), Step(1, Poll));
    BothDrop(s, c, p);
    StrayPoll(s, c, p);
    NextIs(s, r, Step(1, Dropped));
    var r1 := Run(Taken(c), [Asking(p), Retrying(1, 1)], {}, {});
    assert Next(s, r, Step(1, Dropped)) == r1;
    NextIs(s, r1, Step(0, Dropped));
    var r2 := Run(c, [Retrying(0, 0), Retrying(1, 1)], {}, {});
    assert Next(s, r1, Step(0, Dropped)) == r2;
    NextIs(s, r2, Step(1, Poll));
  }

  lemma TakenInRange(c: Check)
    requires OwnersInRange(c)
    ensures OwnersInRange(Taken(c))
  {
  }

  /** After these steps the article is in no stack and on no connection, and it was never
      answered: nothing will ever ask about it again. */
  lemma StalePollLosesArticle(s: Server, c: Check, p: ArticleId)
    requires OwnersInRange(c) && OnePar2Article(c, p)
    requires !s.hasUser && s.waitBound > 0 && s.maxRetries > 0
    ensures var r := After(s, Started(c, 2), LosingSteps());
            && r == Run(Taken(c), [Retrying(0, 0), WAITING.(retries := 1)], {}, {})
            && r.check.par2Queue == [] && r.check.dataQueue == c.dataQueue && Held(r.cons) == {}
  {
    hide OwnersInRange, OnePar2Article, CheckNext, Next, After;
    var r0 := Started(c, 2);
    TakenInRange(c);
    assert r0.cons == [FRESH, FRESH];
    ConnectRun(s, r0, 0);
    FirstHolds(s, c, p);
    var r1 := Run(Taken(c), [Asking(p), FRESH], {}, {});
    assert After(s, r0, Connect(0)) == r1;
    ConnectRun(s, r1, 1);
    SecondWaits(s, c, p);
    var r2 := Run(Taken(c), [Asking(p), WAITING], {}, {});
    assert After(s, r1, Connect(1)) == r2;
    DropRun(s, c, p, r2);
    var r3 := Run(Taken(c), [Retrying(0, 0), Stray(p)], {}, {});
    assert After(s, r2, BOTH_DROP) == r3;
    ConnectRun(s, r3, 1);
    Overwritten(s, c, p);
    AfterAppend(s, r0, Connect(0), Connect(1));
    AfterAppend(s, r0, Connect(0) + Connect(1), BOTH_DROP);
    AfterAppend(s, r0, (Connect(0) + Connect(1)) + BOTH_DROP, Connect(1));
  }

  /** Every document with one PAR2 article and some data article starts that way. */
  lemma StartsWithOnePar2Article(doc: NzbDocument, settings: Settings, p: ArticleId)
    requires DistinctIds(ListingOf(doc)) && ListingOf(doc).par2Ids == {p} && ListingOf(doc).dataIds != {}
    ensures OnePar2Article(Parsed(doc, settings), p) && OwnersInRange(Parsed(doc, settings))
  {
    hide DistinctIds, Parsed, ListingOf, OwnersInRange, Accounts, IsValidMessageId;
    var l, c := ListingOf(doc), Parsed(doc, settings);
    Parsing.ParsedAccounts(doc, settings);
    IdsAreValid(l);
    OwnersStayInRange(l, c, {}, {});
    NoneAnsweredYet(l, c);
    StartCounts(l, c, p);
    OneElement(c.par2Queue, p);
    assert c.dataQueue != [] by { assert Parsing.Elements(c.dataQueue) != {}; }
    assert p in CheckSafety.AllIds(l);
  }

  lemma StartCounts(l: Listing, c: Check, p: ArticleId)
    requires DistinctIds(l) && Accounts(l, c, {}, {}) && l.par2Ids == {p}
    ensures p in c.index.owner && c.index.owner[p].Volume? && c.counts.par2Articles == 1
  {
    hide DistinctIds, FilesAgree, VolumesAgree;
    OwnerIs(l, c.index, p);
  }

  lemma OneElement(queue: seq<ArticleId>, p: ArticleId)
    requires Parsing.Holds(queue, {p})
    ensures queue == [p]
  {
    Parsing.NoDupSize(queue);
    assert queue[0] in Parsing.Elements(queue);
  }
}
