/** Every event of a connection keeps the state of the check sound, and loses no article
    unless it makes the connection take one while it still holds another. */
module CheckSteps {
  import opened Options
  import opened NzbFacts
  import opened CheckState
  import opened CheckRun
  import opened CheckSafety

  function HeldBy(con: Con): set<ArticleId> {
    if con.current.Some? then {con.current.value} else {}
  }

  /** The connection asks for an article while it still holds one. */
  predicate Overwrites(s: Server, con: Con, e: Event) {
    && Enabled(con, e) && con.current.Some?
    && (|| e.Poll?
        || (e.Line? && con.phase.Connected? && e.code == 200 && !s.hasUser)
        || (e.Line? && con.phase.AuthPass? && e.code / 10 == 28))
  }

  /** A reply is only awaited for an article. */
  predicate AwaitsReply(con: Con) {
    con.phase.CheckingArticle? && !con.link.Finished? ==> con.current.Some?
  }

  /** What this connection holds, no other does. */
  ghost predicate Holding(
    l: Listing, c: Check, con: Con, others: set<ArticleId>, answered: set<ArticleId>, gone: set<ArticleId>)
  {
    Core(l, c, HeldBy(con) + others, answered, gone) && HeldBy(con) !! others
  }

  lemma Forget(
    l: Listing, c: Check, con: Con, others: set<ArticleId>, answered: set<ArticleId>, gone: set<ArticleId>)
    requires Holding(l, c, con, others, answered, gone)
    ensures Core(l, c, others, answered, gone)
    ensures HeldBy(con) !! Waiting(c) && HeldBy(con) !! answered && HeldBy(con) <= AllIds(l)
  {
  }

  lemma FinishKeeps(
    s: Server, l: Listing, c: Check, con: Con, others: set<ArticleId>, answered: set<ArticleId>, gone: set<ArticleId>)
    requires DistinctIds(l) && Holding(l, c, con, others, answered, gone)
    ensures var (d, con') := FinishOrRetry(s, c, con);
            && Core(l, d, others, answered, gone) && con'.current.None? && AwaitsReply(con')
            && Waiting(d) == Waiting(c) + HeldBy(con)
  {
    hide Core, DistinctIds, Waiting, HasArticlesLeft, Requeued;
    if con.current.Some? {
      RequeueKeepsCore(l, c, HeldBy(con) + others, answered, gone, con.current.value);
      assert HeldBy(con) + others - {con.current.value} == others;
    } else {
      assert HeldBy(con) + others == others;
    }
  }

  lemma CloseKeeps(
    s: Server, l: Listing, c: Check, con: Con, others: set<ArticleId>, answered: set<ArticleId>, gone: set<ArticleId>)
    requires DistinctIds(l) && Holding(l, c, con, others, answered, gone)
    ensures var (d, con') := CloseConnection(s, c, con);
            && Holding(l, d, con', others, answered, gone) && (AwaitsReply(con) ==> AwaitsReply(con'))
            && Waiting(d) + HeldBy(con') == Waiting(c) + HeldBy(con)
  {
    hide Core, DistinctIds, Waiting, FinishOrRetry;
    if !con.IsConnected() {
      FinishKeeps(s, l, c, con, others, answered, gone);
      assert {} + others == others;
    }
  }

  /** The branch that refuses to send a malformed id is never taken: parsing left such ids
      out, so whatever comes off a stack can be sent. */
  lemma NothingToRefuse(l: Listing, c: Check, held: set<ArticleId>, answered: set<ArticleId>, gone: set<ArticleId>)
    requires WellFormed(l) && Core(l, c, held, answered, gone)
    ensures NextArticle(c).1.Some? ==> IsValidMessageId(NextArticle(c).1.value)
  {
    hide Core, DistinctIds, Waiting, NextArticle, IsValidMessageId;
    SidesAreDisjoint(l);
    NextKeepsCore(l, c, held, answered, gone);
  }

  /** Asking for the next article with empty hands. */
  lemma CheckNextKeeps(
    s: Server, l: Listing, c: Check, con: Con, others: set<ArticleId>, answered: set<ArticleId>, gone: set<ArticleId>)
    requires WellFormed(l) && Core(l, c, others, answered, gone) && OwnersInRange(c)
    ensures var (d, con') := CheckNext(s, c, con);
            && Holding(l, d, con', others, answered, gone)
            && Waiting(d) + HeldBy(con') == Waiting(c)
            && (AwaitsReply(con.(current := None)) ==> AwaitsReply(con'))
  {
    hide Core, DistinctIds, Waiting, NextArticle, IsValidMessageId, CloseConnection, WaitingForPar2;
    SidesAreDisjoint(l);
    NothingToRefuse(l, c, others, answered, gone);
    NextKeepsCore(l, c, others, answered, gone);
    var (d, next) := NextArticle(c);
    match next
    case None =>
      var empty := con.(current := None);
      assert HeldBy(empty) + others == others;
      var waiting := empty.(waits := (con.waits + 1) % WAITS_WRAP);
      CloseKeeps(s, l, d, waiting.(watchdog := false, phase := Idle), others, answered, gone);
      CloseKeeps(s, l, d, empty.(watchdog := false, phase := Idle), others, answered, gone);
      hide OwnersInRange;
    case Some(id) =>
      assert {id} + others == others + {id};
      hide OwnersInRange;
  }

  /** The sets after an answer. */
  function WithAnswer(answered: set<ArticleId>, a: Option<Answer>): set<ArticleId> {
    if a.Some? then answered + {a.value.id} else answered
  }

  function WithLoss(gone: set<ArticleId>, a: Option<Answer>): set<ArticleId> {
    if a.Some? && a.value.gone then gone + {a.value.id} else gone
  }

  /** What a step leaves behind. Nothing is lost: what waited or was held by this
      connection now waits, is held by it, or is answered. */
  ghost predicate StepKeeps(
    l: Listing, c: Check, con: Con, d: Check, con': Con, a: Option<Answer>, others: set<ArticleId>,
    answered: set<ArticleId>, gone: set<ArticleId>)
  {
    && Holding(l, d, con', others, WithAnswer(answered, a), WithLoss(gone, a))
    && AwaitsReply(con')
    && Waiting(d) + HeldBy(con') + WithAnswer(answered, a) == Waiting(c) + HeldBy(con) + answered
  }

  lemma ReplyKeeps(
    s: Server, l: Listing, c: Check, con: Con, others: set<ArticleId>, answered: set<ArticleId>, gone: set<ArticleId>,
    lost: bool)
    requires WellFormed(l) && Holding(l, c, con, others, answered, gone) && OwnersInRange(c)
    requires con.current.Some?
    ensures var id := con.current.value;
            var (d, con') := TakeReply(s, c, con, id, lost);
            StepKeeps(l, c, con, d, con', Some(Answer(id, lost)), others, answered, gone)
  {
    hide Core, WellFormed, Waiting, CheckNext, Answered, OwnersInRange;
    var id := con.current.value;
    DistinctOf(l);
    AnswerKeepsCore(l, c, HeldBy(con) + others, answered, gone, id, lost);
    assert HeldBy(con) + others - {id} == others;
    InRangeStill(c, id, lost);
    CheckNextKeeps(s, l, Answered(c, id, lost), con.(current := None, retries := 0, phase := Idle), others,
                   answered + {id}, if lost then gone + {id} else gone);
  }

  lemma DistinctOf(l: Listing)
    requires WellFormed(l)
    ensures NzbFacts.DistinctIds(l)
  {
  }

  lemma InRangeStill(c: Check, id: ArticleId, lost: bool)
    requires OwnersInRange(c)
    ensures OwnersInRange(Answered(c, id, lost))
  {
  }

  lemma LineKeeps(
    s: Server, l: Listing, c: Check, con: Con, others: set<ArticleId>, answered: set<ArticleId>, gone: set<ArticleId>,
    code: nat)
    requires WellFormed(l) && Holding(l, c, con, others, answered, gone) && OwnersInRange(c)
    requires Enabled(con, Line(code)) && AwaitsReply(con) && !Overwrites(s, con, Line(code))
    ensures var (d, con') := ReadLine(s, c, con.(watchdog := false), code);
            StepKeeps(l, c, con, d, con', AnswerOf(con, Line(code)), others, answered, gone)
  {
    hide Core, WellFormed, Waiting, CheckNext, TakeReply, OwnersInRange, CloseConnection;
    DistinctOf(l);
    var quiet := con.(watchdog := false);
    match con.phase
    case CheckingArticle =>
      ReplyKeeps(s, l, c, quiet, others, answered, gone, code == 430);
    case Connected =>
      CloseKeeps(s, l, c, quiet, others, answered, gone);
      CloseKeeps(s, l, c, quiet.(phase := AuthUser), others, answered, gone);
      if con.current.None? {
        Forget(l, c, con, others, answered, gone);
        CheckNextKeeps(s, l, c, quiet.(phase := Idle), others, answered, gone);
      }
    case AuthUser =>
      CloseKeeps(s, l, c, quiet, others, answered, gone);
      CloseKeeps(s, l, c, quiet.(phase := AuthPass), others, answered, gone);
    case AuthPass =>
      CloseKeeps(s, l, c, quiet, others, answered, gone);
      if con.current.None? {
        Forget(l, c, con, others, answered, gone);
        CheckNextKeeps(s, l, c, quiet.(phase := Idle), others, answered, gone);
      }
    case _ =>
  }

  /** Any event that does not make the connection drop an article loses none. */
  lemma HandleKeeps(
    s: Server, l: Listing, c: Check, con: Con, others: set<ArticleId>, answered: set<ArticleId>, gone: set<ArticleId>,
    e: Event)
    requires WellFormed(l) && Holding(l, c, con, others, answered, gone) && OwnersInRange(c)
    requires AwaitsReply(con) && !Overwrites(s, con, e)
    ensures var (d, con') := Handle(s, c, con, e);
            StepKeeps(l, c, con, d, con', AnswerOf(con, e), others, answered, gone)
  {
    hide Core, WellFormed, Waiting, CheckNext, OwnersInRange, CloseConnection, FinishOrRetry, ReadLine;
    DistinctOf(l);
    if Enabled(con, e) {
      match e
      case Line(code) => LineKeeps(s, l, c, con, others, answered, gone, code);
      case SocketFailed => CloseKeeps(s, l, c, con, others, answered, gone);
      case Dropped | WatchdogFired =>
        FinishKeeps(s, l, c, con.(watchdog := false), others, answered, gone);
        NoneHeld(others);
      case Poll =>
        Forget(l, c, con, others, answered, gone);
        CheckNextKeeps(s, l, c, con.(polls := con.polls - 1), others, answered, gone);
      case _ =>
    }
  }

  lemma NoneHeld(others: set<ArticleId>)
    ensures {} + others == others
  {
  }

  /** One that does loses it: it is in no stack, on no connection and never answered. */
  lemma OverwritingLoses(
    s: Server, l: Listing, c: Check, con: Con, others: set<ArticleId>, answered: set<ArticleId>, gone: set<ArticleId>,
    e: Event)
    requires WellFormed(l) && Holding(l, c, con, others, answered, gone) && OwnersInRange(c)
    requires Overwrites(s, con, e)
    ensures var (d, con') := Handle(s, c, con, e);
            && Holding(l, d, con', others, answered, gone)
            && AnswerOf(con, e).None? && con.current.value in AllIds(l)
            && con.current.value !in Waiting(d) + HeldBy(con') + others + answered
  {
    hide Core, WellFormed, Waiting, CheckNext, OwnersInRange, CloseConnection;
    Forget(l, c, con, others, answered, gone);
    var asking := if e.Poll? then con.(polls := con.polls - 1) else con.(watchdog := false, phase := Idle);
    CheckNextKeeps(s, l, c, asking, others, answered, gone);
  }
}
