/** A connection of a check always has something ahead of it: its article is the next one
    after a failure, its retries are per incident, it is never silent, and it gives up only
    when it has to (src/NntpCheckCon.cpp). */
module CheckProgress {
  import opened Options
  import opened NzbFacts
  import opened CheckState
  import opened CheckRun
  import opened CheckSafety
  import opened CheckTheorems
  import opened CheckPolls

  // ---- The stacks ----

  /** An article handed back is the next one handed out: at once if it is a PAR2 article,
      else once the PAR2 articles are through. */
  lemma RequeuedComesNext(c: Check, id: ArticleId)
    requires !c.earlyStop
    requires match OwnerOf(c, id) case Some(Volume(_)) => true case _ => c.par2Queue == [] && c.par2PhaseDone
    ensures NextArticle(Requeued(c, id)) == (c, Some(id))
  {
    assert (c.par2Queue + [id])[..|c.par2Queue|] == c.par2Queue;
    assert (c.dataQueue + [id])[..|c.dataQueue|] == c.dataQueue;
  }

  /** Nothing is handed out exactly when the check was stopped, when nothing is left, or
      when only data is left and the PAR2 phase is still open. */
  lemma NothingToHandOutIff(c: Check)
    ensures var (d, next) := NextArticle(c);
            && (next.None? <==> d.earlyStop || (c.par2Queue == [] && (c.dataQueue == [] || !d.par2PhaseDone)))
            && (d.par2PhaseDone <==>
                  c.par2PhaseDone || (!c.earlyStop && c.par2Queue == [] && c.counts.par2Answered >= c.counts.par2Articles))
  {
    hide Verdict, BeyondRepair;
  }

  // ---- Never silent ----

  /** Something is bound to happen without the server: the start is queued, the socket is
      being closed, the watchdog is armed or a wait timer is set; or all is over. While the
      connection is up with nothing to wait for, a timer is set. */
  predicate IsWatched(con: Con) {
    && (con.link.Connecting? || con.link.Up? ==> con.watchdog || con.polls > 0)
    && (con.link.Up? && !con.handshaking && (con.phase.Idle? || con.phase.NotConnected?) ==> con.polls > 0)
  }

  lemma CloseIsWatched(s: Server, c: Check, con: Con)
    ensures IsWatched(CloseConnection(s, c, con).1)
  {
  }

  lemma {:induction false} CheckNextIsWatched(s: Server, c: Check, con: Con)
    requires OwnersInRange(c)
    ensures IsWatched(CheckNext(s, c, con).1)
    decreases |c.par2Queue| + |c.dataQueue|
  {
    hide OwnersInRange, MissingArticle, ArticleChecked, IsValidMessageId, NextArticle, CloseConnection, WaitingForPar2;
    var (d, next) := NextArticle(c);
    SameFilesInRange(c, d);
    var quiet := con.(current := None, watchdog := false, phase := Idle);
    CloseIsWatched(s, d, quiet);
    CloseIsWatched(s, d, quiet.(waits := (con.waits + 1) % WAITS_WRAP));
    if next.Some? && !IsValidMessageId(next.value) {
      var id := next.value;
      NextShrinks(c);
      MissingArticleIs(d, id);
      SameFilesInRange(d, MissingArticle(d, id));
      ArticleCheckedIs(MissingArticle(d, id), id);
      SameFilesInRange(MissingArticle(d, id), ArticleChecked(MissingArticle(d, id), id));
      CheckNextIsWatched(s, ArticleChecked(MissingArticle(d, id), id), con.(current := None));
    }
  }

  lemma HandleIsWatched(s: Server, c: Check, con: Con, e: Event)
    requires OwnersInRange(c) && IsWatched(con)
    ensures IsWatched(Handle(s, c, con, e).1)
  {
    hide OwnersInRange, CheckNext, CloseConnection, Answered;
    if Enabled(con, e) {
      match e
      case Line(code) => LineIsWatched(s, c, con, code);
      case SocketFailed => CloseIsWatched(s, c, con);
      case Poll => CheckNextIsWatched(s, c, con.(polls := con.polls - 1));
      case _ =>
    }
  }

  lemma LineIsWatched(s: Server, c: Check, con: Con, code: nat)
    requires OwnersInRange(c) && IsWatched(con) && Enabled(con, Line(code))
    ensures IsWatched(ReadLine(s, c, con.(watchdog := false), code).1)
  {
    hide OwnersInRange, CheckNext, CloseConnection, Answered;
    var quiet := con.(watchdog := false);
    CloseIsWatched(s, c, quiet);
    CloseIsWatched(s, c, quiet.(phase := AuthUser));
    CloseIsWatched(s, c, quiet.(phase := AuthPass));
    CheckNextIsWatched(s, c, quiet.(phase := Idle));
    if con.phase.CheckingArticle? {
      var id := if con.current.Some? then con.current.value else "";
      SameFilesInRange(c, Answered(c, id, code == 430));
      CheckNextIsWatched(s, Answered(c, id, code == 430), quiet.(current := None, retries := 0, phase := Idle));
    }
  }

  ghost predicate AllWatched(cons: seq<Con>) { forall con | con in cons :: IsWatched(con) }

  /** On every run, whatever fails and whatever timers are left: no connection ever waits
      for the server alone. */
  lemma {:induction false} NeverSilent(s: Server, c: Check, connections: nat, steps: seq<Step>, con: Con)
    requires OwnersInRange(c) && con in After(s, Started(c, connections), steps).cons
    ensures IsWatched(con)
    ensures con.link.Starting? || con.link.Closing? || con.link.Finished? || con.watchdog || con.polls > 0
  {
    hide OwnersInRange, IsWatched;
    RunsAreWatched(s, Started(c, connections), steps) by { FreshIsWatched(c, connections); }
    MeansWatched(con);
  }

  lemma MeansWatched(con: Con)
    requires IsWatched(con)
    ensures con.link.Starting? || con.link.Closing? || con.link.Finished? || con.watchdog || con.polls > 0
  {
  }

  lemma FreshIsWatched(c: Check, connections: nat)
    ensures AllWatched(Started(c, connections).cons)
  {
  }

  lemma {:induction false} RunsAreWatched(s: Server, r: Run, steps: seq<Step>)
    requires OwnersInRange(r.check) && AllWatched(r.cons)
    ensures AllWatched(After(s, r, steps).cons)
  {
    hide OwnersInRange, IsWatched, Next, Handle;
    if steps != [] {
      var init, step := steps[..|steps| - 1], steps[|steps| - 1];
      RunsAreWatched(s, r, init);
      var before := After(s, r, init);
      SameFilesInRange(r.check, before.check);
      if step.con < |before.cons| {
        HandleIsWatched(s, before.check, before.cons[step.con], step.event);
        NextIs(s, before, step);
      } else {
        NoSuchConnection(s, before, step);
      }
    }
  }

  // ---- Retries ----

  /** A reply to STAT. */
  predicate IsReply(con: Con, e: Event) { e.Line? && Enabled(con, e) && con.phase.CheckingArticle? }

  /** A reply gives the connection its whole budget back. Otherwise it can only lose a
      transport: then it starts again, at the cost of one try, exactly when articles are
      left and its budget allows, and is over if not. */
  lemma GivesUpIff(s: Server, c: Check, con: Con, e: Event)
    requires OwnersInRange(c) && Aligned(con) && Quiet(con, e)
    ensures var (d, con') := Handle(s, c, con, e);
            && (IsReply(con, e) ==> con'.retries == 0)
            && (!IsReply(con, e) ==>
                  con'.retries == con.retries + if con'.link.Starting? && !con.link.Starting? then 1 else 0)
            && (con'.link.Starting? && !con.link.Starting? ==> con'.retries <= s.maxRetries && HasArticlesLeft(d))
            && (con'.link.Finished? && !con.link.Finished? && !e.Start? ==>
                  !HasArticlesLeft(d) || con.retries >= s.maxRetries)
  {
    hide OwnersInRange, CheckNext, ReadLine, HasArticlesLeft;
    if Enabled(con, e) {
      match e
      case Line(code) => LineKeepsBudget(s, c, con, code);
      case Poll => ConnectedAsks(s, c, con.(polls := con.polls - 1));
      case _ =>
    }
  }

  lemma LineKeepsBudget(s: Server, c: Check, con: Con, code: nat)
    requires OwnersInRange(c) && con.IsConnected()
    ensures var con' := ReadLine(s, c, con.(watchdog := false), code).1;
            con'.IsConnected() && con'.retries == if con.phase.CheckingArticle? then 0 else con.retries
  {
    hide OwnersInRange, CheckNext, Answered, FinishOrRetry;
    var quiet := con.(watchdog := false);
    if con.phase.CheckingArticle? {
      var id := if con.current.Some? then con.current.value else "";
      SameFilesInRange(c, Answered(c, id, code == 430));
      ConnectedAsks(s, Answered(c, id, code == 430), quiet.(current := None, retries := 0, phase := Idle));
    }
    ConnectedAsks(s, c, quiet.(phase := Idle));
  }

  /** Asking over a connected socket never gives the transport up at once. */
  lemma {:induction false} ConnectedAsks(s: Server, c: Check, con: Con)
    requires OwnersInRange(c) && con.IsConnected()
    ensures var con' := CheckNext(s, c, con).1; con'.retries == con.retries && con'.IsConnected()
    decreases |c.par2Queue| + |c.dataQueue|
  {
    hide OwnersInRange, MissingArticle, ArticleChecked, IsValidMessageId, NextArticle, WaitingForPar2, FinishOrRetry;
    var (d, next) := NextArticle(c);
    SameFilesInRange(c, d);
    if next.Some? && !IsValidMessageId(next.value) {
      var id := next.value;
      NextShrinks(c);
      MissingArticleIs(d, id);
      SameFilesInRange(d, MissingArticle(d, id));
      ArticleCheckedIs(MissingArticle(d, id), id);
      SameFilesInRange(MissingArticle(d, id), ArticleChecked(MissingArticle(d, id), id));
      ConnectedAsks(s, ArticleChecked(MissingArticle(d, id), id), con.(current := None));
    }
  }

  /** How often this connection started again since its last reply. */
  function RestartsSinceReply(s: Server, r: Run, steps: seq<Step>, k: nat): nat
    requires OwnersInRange(r.check) && k < |r.cons|
  {
    if steps == [] then 0 else
      var init, step := steps[..|steps| - 1], steps[|steps| - 1];
      var before, after := After(s, r, init), After(s, r, steps);
      if step.con == k && IsReply(before.cons[k], step.event) then 0
      else
        RestartsSinceReply(s, r, init, k)
        + if after.cons[k].link.Starting? && !before.cons[k].link.Starting? then 1 else 0
  }

  /** The budget is per incident: on every quiet run, the tries a connection has used are
      its restarts since the last reply it got. */
  lemma {:induction false} BudgetIsPerIncident(s: Server, c: Check, connections: nat, steps: seq<Step>, k: nat)
    requires OwnersInRange(c) && k < connections && QuietRun(s, Started(c, connections), steps)
    ensures var r := Started(c, connections);
            After(s, r, steps).cons[k].retries == RestartsSinceReply(s, r, steps, k)
  {
    hide OwnersInRange, Aligned, Quiet, Handle, IsReply;
    var r := Started(c, connections);
    if steps != [] {
      var init, step := steps[..|steps| - 1], steps[|steps| - 1];
      BudgetIsPerIncident(s, c, connections, init, k);
      StartIsAligned(c, connections);
      QuietRunsAreClean(s, r, init);
      var before := After(s, r, init);
      SameFilesInRange(r.check, before.check);
      if step.con < |before.cons| {
        NextIs(s, before, step);
        if step.con == k {
          GivesUpIff(s, before.check, before.cons[k], step.event);
        }
      } else {
        NoSuchConnection(s, before, step);
      }
    }
  }

  // ---- Getting to ask ----

  /** While it logs in, a connection is closed exactly on a wrong reply or an identity it
      cannot send; it asks for an article exactly when the login is over. */
  lemma LoginIff(s: Server, c: Check, con: Con, code: nat)
    requires OwnersInRange(c) && con.link.Up? && !con.handshaking && con.current.None?
    requires con.phase.Connected? || con.phase.AuthUser? || con.phase.AuthPass?
    ensures var (d, con') := Handle(s, c, con, Line(code));
            var asks := (con.phase.Connected? && code == 200 && !s.hasUser) || (con.phase.AuthPass? && code / 10 == 28);
            && (asks ==> (d, con') == CheckNext(s, c, con.(watchdog := false, phase := Idle)))
            && (!asks ==> d == c && con'.current.None?)
            && (con'.phase.AuthUser? && con'.link.Up? && con'.watchdog <==>
                  con.phase.Connected? && code == 200 && s.hasUser && s.userSendable)
            && (con'.phase.AuthPass? && con'.link.Up? && con'.watchdog <==>
                  con.phase.AuthUser? && code / 10 == 38 && s.passSendable)
            && (!asks && !con'.watchdog ==> con'.link.Closing?)
  {
    hide OwnersInRange;
    CheckNextLeavesLogin(s, c, con.(watchdog := false, phase := Idle));
  }

  lemma {:induction false} CheckNextLeavesLogin(s: Server, c: Check, con: Con)
    requires OwnersInRange(c) && con.IsConnected() && con.phase.Idle?
    ensures var con' := CheckNext(s, c, con).1; con'.phase.Idle? || con'.phase.CheckingArticle?
    decreases |c.par2Queue| + |c.dataQueue|
  {
    hide OwnersInRange, MissingArticle, ArticleChecked, IsValidMessageId, NextArticle, WaitingForPar2, FinishOrRetry;
    var (d, next) := NextArticle(c);
    SameFilesInRange(c, d);
    if next.Some? && !IsValidMessageId(next.value) {
      var id := next.value;
      NextShrinks(c);
      MissingArticleIs(d, id);
      SameFilesInRange(d, MissingArticle(d, id));
      ArticleCheckedIs(MissingArticle(d, id), id);
      SameFilesInRange(MissingArticle(d, id), ArticleChecked(MissingArticle(d, id), id));
      CheckNextLeavesLogin(s, ArticleChecked(MissingArticle(d, id), id), con.(current := None));
    }
  }

  /** With an article to ask about, the connection asks, with its watchdog armed. With none
      it waits exactly while the PAR2 phase keeps data back and its waits are not used up;
      otherwise it closes. */
  lemma AsksIff(s: Server, c: Check, con: Con)
    requires OwnersInRange(c) && con.link.Up? && con.current.None?
    requires NextArticle(c).1.Some? ==> IsValidMessageId(NextArticle(c).1.value)
    ensures var (d, con') := CheckNext(s, c, con);
            var next := NextArticle(c).1;
            var waits := next.None? && !d.earlyStop && !d.par2PhaseDone && d.dataQueue != [] && con.waits < s.waitBound;
            && (next.Some? <==> con'.current.Some?)
            && (next.Some? ==>
                  con'.current == next && con'.watchdog && con'.phase.CheckingArticle? && con'.link.Up? && con'.waits == 0)
            && (con'.polls == con.polls + 1 <==> waits)
            && (waits ==> con'.link.Up? && !con'.watchdog && con'.waits == (con.waits + 1) % 0x1_0000)
            && (con'.link.Closing? <==> next.None? && !waits)
  {
    hide OwnersInRange, IsValidMessageId, NextArticle;
  }

  /** A start opens a watched transport unless it is refused; once connected, and encrypted
      if it is to be, the connection awaits the greeting. */
  lemma OpensIff(s: Server, c: Check, con: Con, refused: bool, tls: bool)
    requires OwnersInRange(c)
    ensures con.link.Starting? ==>
              var con' := Handle(s, c, con, Start(refused)).1;
              (refused ==> con'.link.Finished?) && (!refused ==> con'.link.Connecting? && con'.watchdog)
    ensures con.link.Connecting? ==>
              var con' := Handle(s, c, con, Opened(tls)).1;
              con'.link.Up? && (tls ==> con'.handshaking) && (!tls ==> con'.phase.Connected?)
    ensures con.link.Up? && con.handshaking ==>
              var con' := Handle(s, c, con, Encrypted).1; con'.phase.Connected? && !con'.handshaking && con'.link.Up?
  {
    hide OwnersInRange;
  }

  /** A transport that is lost, or silent for too long, hands its article back and is given
      up for good or for another try; an error closes a connected one first. */
  lemma LosesIff(s: Server, c: Check, con: Con, e: Event)
    requires OwnersInRange(c) && Enabled(con, e) && (e.Dropped? || e.WatchdogFired? || e.SocketFailed?)
    ensures var (d, con') := Handle(s, c, con, e);
            if e.SocketFailed? && con.IsConnected() then con'.link.Closing? && con'.current == con.current && d == c
            else
              && con'.current.None? && d == (if con.current.Some? then Requeued(c, con.current.value) else c)
              && (con'.link.Starting? <==> HasArticlesLeft(d) && con.retries < s.maxRetries)
              && (con'.link.Finished? <==> !con'.link.Starting?)
  {
    hide OwnersInRange;
  }

  /** A line nobody asked for changes nothing, but that the watchdog is no longer armed. */
  lemma UnaskedLineIsIgnored(s: Server, c: Check, con: Con, code: nat)
    requires OwnersInRange(c) && con.IsConnected() && !con.handshaking && (con.phase.Idle? || con.phase.NotConnected?)
    ensures Handle(s, c, con, Line(code)) == (c, con.(watchdog := false))
  {
    hide OwnersInRange;
  }
}
