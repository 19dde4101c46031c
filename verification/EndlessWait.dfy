/** The 16-bit wait counter. The bound on the wait for the PAR2 phase is the socket timeout
    in units of 25 ms; a counter that wraps at 65536 never reaches a larger one. Once no
    connection owes an answer, such a check polls for ever. */
module EndlessWait {
  import opened Options
  import opened NzbFacts
  import opened CheckState
  import opened CheckRun
  import opened CheckTheorems
  import opened CheckEnd
  import opened StalePoll

  /** The connection waits with its timer set, owes no reply and has no watchdog. */
  predicate Waits(con: Con) {
    con == Con(Up, false, Idle, None, con.retries, con.waits, 1, false) && con.waits < WAITS_WRAP
  }

  /** Every connection waits for a PAR2 article that nobody will ask about. */
  ghost predicate AllWait(r: Run) {
    && WaitingForPar2(r.check) && r.check.par2Queue == []
    && r.check.counts.par2Answered < r.check.counts.par2Articles
    && forall con | con in r.cons :: Waits(con)
  }

  /** The run that loses an article, with its other connection back: both wait. */
  lemma LosingRunWaits(s: Server, c: Check, p: ArticleId)
    requires OwnersInRange(c) && OnePar2Article(c, p)
    requires !s.hasUser && s.waitBound > 0 && s.maxRetries > 0
    ensures AllWait(After(s, Started(c, 2), LosingSteps() + Connect(0)))
  {
    StalePollLosesArticle(s, c, p);
    var lost := After(s, Started(c, 2), LosingSteps());
    OtherWaits(s, c, p);
    TakesTheArticle(c, p);
    TakenInRange(c);
    hide OwnersInRange, CheckNext, Next, After, LosingSteps, NextArticle;
    ConnectRun(s, lost, 0);
    AfterAppend(s, Started(c, 2), LosingSteps(), Connect(0));
    assert After(s, lost, Connect(0)) == lost.(cons := lost.cons[0 := WAITING.(retries := 1)]);
  }

  lemma OtherWaits(s: Server, c: Check, p: ArticleId)
    requires OwnersInRange(c) && OnePar2Article(c, p) && s.waitBound > 0
    ensures OwnersInRange(Taken(c))
    ensures CheckNext(s, Taken(c), Retrying(0, 0).(link := Up, phase := Idle)) == (Taken(c), WAITING.(retries := 1))
  {
    hide NextArticle;
    TakesTheArticle(c, p);
    TakenInRange(c);
  }

  /** In such a state only the timers are left to fire, unless a transport fails: no reply
      is owed, so the server need not send any, and no watchdog is armed. */
  lemma OnlyTimersAreLeft(r: Run, con: Con, e: Event)
    requires AllWait(r) && con in r.cons && Effective(con, e)
    ensures e.Poll? || e.SocketFailed? || e.Dropped?
  {
    assert Waits(con);
  }

  /** With a bound the counter cannot reach, the timers can fire in any order and any number
      of times: every connection still waits, and the check is where it was. */
  lemma {:induction false} WaitsForEver(s: Server, r: Run, steps: seq<Step>)
    requires OwnersInRange(r.check) && AllWait(r) && s.waitBound >= WAITS_WRAP
    requires forall step | step in steps :: step.event.Poll? && step.con < |r.cons|
    ensures AllWait(After(s, r, steps)) && After(s, r, steps).check == r.check
    ensures EffectiveRun(s, r, steps)
  {
    hide OwnersInRange, Next, AllWait, Effective;
    if steps != [] {
      var init, step := steps[..|steps| - 1], steps[|steps| - 1];
      assert step in steps;
      WaitsForEver(s, r, init);
      PollAgain(s, After(s, r, init), step);
    }
  }

  lemma PollAgain(s: Server, r: Run, step: Step)
    requires OwnersInRange(r.check) && AllWait(r) && s.waitBound >= WAITS_WRAP
    requires step.event.Poll? && step.con < |r.cons|
    ensures Effective(r.cons[step.con], Poll)
    ensures AllWait(Next(s, r, step)) && Next(s, r, step).check == r.check
  {
    hide OwnersInRange, Next;
    var con := r.cons[step.con];
    assert con in r.cons && Waits(con);
    PollOnce(s, r.check, con);
    NextIs(s, r, step);
  }

  lemma PollOnce(s: Server, c: Check, con: Con)
    requires OwnersInRange(c) && Waits(con) && s.waitBound >= WAITS_WRAP
    requires WaitingForPar2(c) && c.par2Queue == [] && c.counts.par2Answered < c.counts.par2Articles
    ensures Handle(s, c, con, Poll) == (c, con.(waits := (con.waits + 1) % WAITS_WRAP))
  {
    hide OwnersInRange;
  }
}
