/** Which runs lose no article.

    A connection that waits for the PAR2 answers sets a timer that nothing cancels. If
    its transport is lost before the timer fires, the timer finds the connection in
    another state, and may make it ask for an article while it holds one. */
module CheckPolls {
  import opened Options
  import opened NzbFacts
  import opened CheckState
  import opened Accounting
  import opened CheckRun
  import opened CheckSafety
  import opened CheckSteps
  import opened CheckTheorems

  /** At most one timer, and only while the socket is connected with nothing in hand; an
      article in hand is one whose reply is awaited. */
  predicate Aligned(con: Con) {
    && (con.current.Some? ==> con.phase.CheckingArticle? && con.IsConnected() && !con.handshaking)
    && (con.phase.CheckingArticle? && con.IsConnected() ==> con.current.Some?)
    && (con.link.Starting? || con.link.Connecting? ==> con.phase.NotConnected?)
    && (con.handshaking ==> con.IsConnected() && con.phase.NotConnected?)
    && con.polls <= 1
    && (con.polls == 1 ==> con.IsConnected() && con.phase.Idle? && con.current.None?
                            && !con.handshaking && !con.watchdog)
  }

  /** The transport does not fail while a wait timer is set. */
  predicate Quiet(con: Con, e: Event) {
    con.polls > 0 ==> !e.SocketFailed? && !e.Dropped?
  }

  lemma AlignedNeverOverwrites(s: Server, con: Con, e: Event)
    requires Aligned(con)
    ensures !Overwrites(s, con, e)
  {
  }

  lemma FinishStaysAligned(s: Server, c: Check, con: Con)
    requires con.polls == 0
    ensures Aligned(FinishOrRetry(s, c, con).1)
  {
  }

  lemma CloseStaysAligned(s: Server, c: Check, con: Con)
    requires con.polls == 0 && (con.handshaking ==> con.phase.NotConnected?)
    requires con.current.Some? ==> con.phase.CheckingArticle? && con.IsConnected()
    requires con.phase.CheckingArticle? && con.IsConnected() ==> con.current.Some?
    ensures Aligned(CloseConnection(s, c, con).1)
  {
  }

  lemma {:induction false} CheckNextStaysAligned(s: Server, c: Check, con: Con)
    requires OwnersInRange(c) && con.IsConnected() && con.phase.Idle? && !con.handshaking && con.polls == 0
    requires !con.watchdog
    ensures Aligned(CheckNext(s, c, con).1)
    decreases |c.par2Queue| + |c.dataQueue|
  {
    hide OwnersInRange, MissingArticle, ArticleChecked, IsValidMessageId, NextArticle;
    var (d, next) := NextArticle(c);
    SameFilesInRange(c, d);
    if next.Some? && !IsValidMessageId(next.value) {
      var id := next.value;
      NextShrinks(c);
      MissingArticleIs(d, id);
      SameFilesInRange(d, MissingArticle(d, id));
      ArticleCheckedIs(MissingArticle(d, id), id);
      SameFilesInRange(MissingArticle(d, id), ArticleChecked(MissingArticle(d, id), id));
      CheckNextStaysAligned(s, ArticleChecked(MissingArticle(d, id), id), con.(current := None));
    }
  }

  lemma HandleStaysAligned(s: Server, c: Check, con: Con, e: Event)
    requires OwnersInRange(c) && Aligned(con) && Quiet(con, e)
    ensures Aligned(Handle(s, c, con, e).1)
  {
    hide OwnersInRange, CheckNext, FinishOrRetry, CloseConnection, Answered;
    if Enabled(con, e) {
      match e
      case Line(code) =>
        var quiet := con.(watchdog := false);
        match con.phase {
          case CheckingArticle =>
            var id := con.current.value;
            SameFilesInRange(c, Answered(c, id, code == 430));
            CheckNextStaysAligned(s, Answered(c, id, code == 430), quiet.(current := None, retries := 0, phase := Idle));
          case Connected =>
            CloseStaysAligned(s, c, quiet);
            CheckNextStaysAligned(s, c, quiet.(phase := Idle));
            CloseStaysAligned(s, c, quiet.(phase := AuthUser));
          case AuthUser =>
            CloseStaysAligned(s, c, quiet);
            CloseStaysAligned(s, c, quiet.(phase := AuthPass));
          case AuthPass =>
            CloseStaysAligned(s, c, quiet);
            CheckNextStaysAligned(s, c, quiet.(phase := Idle));
          case _ =>
        }
      case SocketFailed => CloseStaysAligned(s, c, con);
      case Dropped | WatchdogFired => FinishStaysAligned(s, c, con.(watchdog := false));
      case Poll => CheckNextStaysAligned(s, c, con.(polls := con.polls - 1));
      case _ =>
    }
  }

  // ---- Whole runs ----

  ghost predicate QuietRun(s: Server, r: Run, steps: seq<Step>)
    requires OwnersInRange(r.check)
  {
    steps == [] ||
    (var before, step := After(s, r, steps[..|steps| - 1]), steps[|steps| - 1];
     && QuietRun(s, r, steps[..|steps| - 1])
     && (step.con < |before.cons| ==> Quiet(before.cons[step.con], step.event)))
  }

  ghost predicate AllAligned(cons: seq<Con>) {
    forall con | con in cons :: Aligned(con)
  }

  lemma StepStaysAligned(s: Server, r: Run, step: Step)
    requires OwnersInRange(r.check) && AllAligned(r.cons)
    requires step.con < |r.cons| ==> Quiet(r.cons[step.con], step.event)
    ensures AllAligned(Next(s, r, step).cons)
  {
    hide OwnersInRange, Aligned, Quiet, Handle;
    if step.con < |r.cons| {
      HandleStaysAligned(s, r.check, r.cons[step.con], step.event);
      NextIs(s, r, step);
    }
  }

  /** If no connection loses its transport while it waits, none ever asks for an article
      while it holds one, so every theorem about clean runs applies. */
  lemma {:induction false} QuietRunsAreClean(s: Server, r: Run, steps: seq<Step>)
    requires OwnersInRange(r.check) && AllAligned(r.cons) && QuietRun(s, r, steps)
    ensures Clean(s, r, steps) && AllAligned(After(s, r, steps).cons)
  {
    hide OwnersInRange, Aligned, Quiet, Next, Overwrites;
    if steps != [] {
      var init, step := steps[..|steps| - 1], steps[|steps| - 1];
      QuietRunsAreClean(s, r, init);
      var before := After(s, r, init);
      SameFilesInRange(r.check, before.check);
      StepStaysAligned(s, before, step);
      if step.con < |before.cons| {
        AlignedNeverOverwrites(s, before.cons[step.con], step.event);
      }
    }
  }

  lemma StartIsAligned(c: Check, connections: nat)
    ensures AllAligned(Started(c, connections).cons)
  {
  }

  /** A check of any document without a repeated id, over any number of connections: every
      state of every quiet run is good. */
  lemma EveryQuietCheckIsGood(s: Server, doc: NzbDocument, settings: Settings, connections: nat, steps: seq<Step>)
    requires DistinctIds(ListingOf(doc))
    ensures OwnersInRange(Parsed(doc, settings)) && WellFormed(ListingOf(doc))
    ensures QuietRun(s, Started(Parsed(doc, settings), connections), steps) ==>
              Good(ListingOf(doc), After(s, Started(Parsed(doc, settings), connections), steps))
  {
    hide DistinctIds, WellFormed, Good, OwnersInRange, Parsed, QuietRun, Clean;
    StartIsGood(doc, settings, connections);
    var start := Started(Parsed(doc, settings), connections);
    if QuietRun(s, start, steps) {
      StartIsAligned(Parsed(doc, settings), connections);
      QuietRunsAreClean(s, start, steps);
      RunIsGood(s, ListingOf(doc), start, steps);
    }
  }

  /** A step keeps every article, if and only if it does not make a connection ask for
      one while it holds another. */
  lemma StepConservesIff(s: Server, l: Listing, r: Run, step: Step)
    requires WellFormed(l) && Good(l, r) && OwnersInRange(r.check) && step.con < |r.cons|
    ensures var next := Next(s, r, step);
            Kept(l, next.check, Held(next.cons), next.answered)
            <==> !Overwrites(s, r.cons[step.con], step.event)
  {
    hide WellFormed, Core, OwnersInRange, Handle, Held, HeldElsewhere, HeldOnce, Waiting, AwaitsReply, HeldBy;
    hide Overwrites, Next, AnswerOf, AllIds;
    var con, others := r.cons[step.con], HeldElsewhere(r.cons, step.con);
    if Overwrites(s, con, step.event) {
      var (d, con') := Handle(s, r.check, con, step.event);
      HeldSplits(r.cons, step.con);
      OverwritingLoses(s, l, r.check, con, others, r.answered, r.gone, step.event);
      HeldUpdates(r.cons, step.con, con');
      NextIs(s, r, step);
    } else {
      StepIsGood(s, l, r, step);
    }
  }

  // ---- Starting twice ----

  /** A connection that is about to start again is told to start once more: the source
      then makes two sockets and keeps one. */
  predicate StartsTwice(s: Server, c: Check, con: Con, e: Event)
    requires OwnersInRange(c)
  {
    con.link.Starting? && Handle(s, c, con, e).1.link.Starting? && Handle(s, c, con, e).1.retries > con.retries
  }

  /** That happens exactly when a timer left over from a wait fires there, with nothing to
      hand out before the PAR2 answers, no wait left and a try left. */
  lemma StartsTwiceIff(s: Server, c: Check, con: Con, e: Event)
    requires OwnersInRange(c) && con.link.Starting? && con.current.None?
    requires NextArticle(c).1.Some? ==> IsValidMessageId(NextArticle(c).1.value)
    ensures StartsTwice(s, c, con, e) <==>
              && e.Poll? && con.polls > 0 && NextArticle(c).1.None? && WaitingForPar2(NextArticle(c).0)
              && con.waits >= s.waitBound && con.retries < s.maxRetries
  {
    hide OwnersInRange, IsValidMessageId;
    if e.Poll? && con.polls > 0 {
      NextShrinks(c);
    }
  }

  /** No connection of a quiet run ever starts twice. */
  lemma QuietRunsStartOnce(s: Server, r: Run, steps: seq<Step>, con: Con, e: Event)
    requires OwnersInRange(r.check) && AllAligned(r.cons) && QuietRun(s, r, steps)
    requires con in After(s, r, steps).cons
    ensures OwnersInRange(After(s, r, steps).check) && !StartsTwice(s, After(s, r, steps).check, con, e)
  {
    hide OwnersInRange, CheckNext, After, QuietRun;
    QuietRunsAreClean(s, r, steps);
    SameFilesInRange(r.check, After(s, r, steps).check);
    assert Aligned(con);
  }
}
