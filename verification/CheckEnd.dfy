/** The run ends, whatever fails and whichever timers are left over, as long as the server
    sends no line it was not asked for. An answer gives its connection its whole retry
    budget back, and so does the reply a stray timer left without an article; the measure
    pays for both with the articles still alive. */
module CheckEnd {
  import opened Options
  import opened Arithmetic
  import opened Slices
  import opened NzbFacts
  import opened CheckState
  import opened Accounting
  import opened CheckRun
  import opened CheckSafety
  import opened CheckTheorems

  /** A line a closing connection refuses once more. */
  predicate RefusedAgain(con: Con, code: nat) {
    && con.link.Closing?
    && (|| (con.phase.Connected? && code != 200)
        || (con.phase.AuthUser? && code / 10 != 38)
        || (con.phase.AuthPass? && code / 10 != 28))
  }

  /** An event that can happen, other than a line nobody asked for or one more error of
      a connection that is closing already. */
  predicate Effective(con: Con, e: Event) {
    && Enabled(con, e)
    && (e.Line? ==> !con.phase.Idle? && !con.phase.NotConnected? && !RefusedAgain(con, e.code))
    && (e.SocketFailed? ==> !con.link.Closing?)
  }

  // ---- Articles alive ----

  function Queued(c: Check): nat { |c.par2Queue| + |c.dataQueue| }

  function InHand(con: Con): nat { if con.current.Some? then 1 else 0 }

  /** A connection that awaits a reply to nothing: the reply will be counted, and give the
      connection its retries back. */
  function AwaitsNothing(con: Con): nat {
    if con.phase.CheckingArticle? && con.current.None? && !con.link.Finished? then 1 else 0
  }

  function Hands(con: Con): nat { 2 * InHand(con) + AwaitsNothing(con) }

  // ---- What is left for one connection ----

  function WaitsLeft(s: Server, con: Con): nat {
    if con.waits < s.waitBound then s.waitBound - con.waits else 0
  }

  /** How far the transport still has to go. */
  function PhaseRank(con: Con): nat {
    if con.handshaking then 10 else
      match con.phase
      case Connected => 8
      case AuthUser => 6
      case AuthPass => 4
      case _ => 2
  }

  function Stage(con: Con): nat {
    match con.link
    case Starting => 13
    case Connecting => 12
    case Up => PhaseRank(con) + 1
    case Closing => PhaseRank(con)
    case Finished => if con.watchdog then 1 else 0
  }

  /** More than one step of a stage can give back in polls and waits. */
  function PerStage(s: Server): nat { s.waitBound + 2 }

  /** More than a new transport can give back. */
  function PerTry(s: Server): nat { 14 * PerStage(s) }

  function TriesLeft(s: Server, con: Con): nat {
    if con.retries < s.maxRetries then s.maxRetries - con.retries else 0
  }

  function Left(s: Server, con: Con): nat {
    TriesLeft(s, con) * PerTry(s) + Stage(con) * PerStage(s) + con.polls * (s.waitBound + 1) + WaitsLeft(s, con)
  }

  /** More than a connection can be given back when an article is gone for good. */
  function PerArticle(s: Server): nat { s.maxRetries * PerTry(s) + 2 * PerTry(s) }

  lemma StageIsBounded(con: Con)
    ensures Stage(con) <= 13
  {
  }

  /** A step forward in a transport pays for one more timer, or for all the waits. */
  lemma StageFalls(s: Server, con: Con, con': Con)
    requires TriesLeft(s, con') == TriesLeft(s, con) && Stage(con') < Stage(con)
    requires con'.polls <= con.polls || (con'.polls == con.polls + 1 && WaitsLeft(s, con') <= WaitsLeft(s, con))
    ensures Left(s, con') < Left(s, con)
  {
    hide Stage, TriesLeft, PerTry;
    MulOrder(Stage(con'), Stage(con) - 1, PerStage(s));
    MulSum(Stage(con), -1, 0, PerStage(s));
    MulSum(con.polls, 1, 0, s.waitBound + 1);
    MulOrder(con'.polls, con.polls, s.waitBound + 1);
  }

  /** A timer that fired pays for all the waits. */
  lemma PollFalls(s: Server, con: Con, con': Con)
    requires TriesLeft(s, con') == TriesLeft(s, con) && Stage(con') <= Stage(con)
    requires con'.polls < con.polls || (con'.polls == con.polls && WaitsLeft(s, con') < WaitsLeft(s, con))
    ensures Left(s, con') < Left(s, con)
  {
    hide Stage, TriesLeft, PerTry;
    MulOrder(Stage(con'), Stage(con), PerStage(s));
    MulSum(con.polls, -1, 0, s.waitBound + 1);
    if con'.polls < con.polls {
      MulOrder(con'.polls, con.polls - 1, s.waitBound + 1);
    }
  }

  /** A retry pays for a whole transport. */
  lemma TryFalls(s: Server, con: Con, con': Con)
    requires con'.retries == con.retries + 1 <= s.maxRetries && con'.polls <= con.polls
    ensures Left(s, con') < Left(s, con)
  {
    StageIsBounded(con');
    hide Stage;
    MulSum(TriesLeft(s, con), -1, 0, PerTry(s));
    MulOrder(Stage(con'), 13, PerStage(s));
    MulOrder(0, Stage(con), PerStage(s));
    MulOrder(con'.polls, con.polls, s.waitBound + 1);
  }

  /** Whatever an answer gives back, it is less than an article is worth. */
  lemma AnswerPays(s: Server, con: Con, con': Con)
    requires con'.polls <= con.polls + 1
    ensures Left(s, con') < Left(s, con) + PerArticle(s)
  {
    StageIsBounded(con');
    hide Stage;
    MulOrder(TriesLeft(s, con'), s.maxRetries, PerTry(s));
    MulOrder(0, TriesLeft(s, con), PerTry(s));
    MulOrder(Stage(con'), 13, PerStage(s));
    MulOrder(0, Stage(con), PerStage(s));
    MulSum(con.polls, 1, 0, s.waitBound + 1);
    MulOrder(con'.polls, con.polls + 1, s.waitBound + 1);
  }

  // ---- The steps ----

  /** The transport is given up: no more, or one more try. */
  predicate GivenUp(s: Server, con: Con, con': Con) {
    || (con'.retries == con.retries && con'.link.Finished? && con'.watchdog == con.watchdog)
    || (con'.retries == con.retries + 1 <= s.maxRetries && con'.link.Starting?)
  }

  lemma FinishGivesUp(s: Server, c: Check, con: Con)
    ensures var (d, con') := FinishOrRetry(s, c, con);
            && Queued(d) == Queued(c) + InHand(con) && Hands(con') == 0
            && con'.polls == con.polls && con'.waits == con.waits && GivenUp(s, con, con')
  {
    hide HasArticlesLeft;
  }

  predicate TookOne(con: Con, con': Con) {
    && con'.current.Some? && con'.phase.CheckingArticle? && con'.link == con.link
    && con'.handshaking == con.handshaking && con'.retries == con.retries && con'.polls == con.polls
    && (con.link.Finished? ==> con'.watchdog == con.watchdog)
  }

  predicate Waited(s: Server, con: Con, con': Con) {
    && con.waits < s.waitBound && con'.waits == (con.waits + 1) % WAITS_WRAP && con'.link == con.link
    && con'.handshaking == con.handshaking && con'.phase == con.phase && con'.retries == con.retries
    && con'.polls == con.polls + 1 && !con'.watchdog
  }

  predicate Closed(s: Server, con: Con, con': Con) {
    && con'.polls == con.polls
    && if con.IsConnected() then
         && con'.link.Closing? && con'.phase.Idle? && con'.retries == con.retries
         && con'.handshaking == con.handshaking
       else GivenUp(s, con.(watchdog := false), con')
  }

  /** What asking for an article can lead to, and that it makes none. */
  predicate Asked(s: Server, c: Check, con: Con, d: Check, con': Con) {
    && Queued(d) + InHand(con') <= Queued(c)
    && AwaitsNothing(con') <= AwaitsNothing(con.(current := None))
    && (TookOne(con, con') || Waited(s, con, con') || Closed(s, con, con'))
  }

  lemma {:induction false} CheckNextAsks(s: Server, c: Check, con: Con)
    requires OwnersInRange(c)
    ensures var (d, con') := CheckNext(s, c, con); Asked(s, c, con, d, con')
    decreases |c.par2Queue| + |c.dataQueue|
  {
    hide OwnersInRange, MissingArticle, ArticleChecked, IsValidMessageId, NextArticle, WaitOrClose;
    var (d, next) := NextArticle(c);
    SameFilesInRange(c, d);
    NextShrinks(c);
    match next
    case None => WaitOrCloseAsks(s, d, con.(current := None));
    case Some(id) =>
      if !IsValidMessageId(id) {
        RefusedOne(d, id);
        SameFilesInRange(d, MissingArticle(d, id));
        CheckNextAsks(s, ArticleChecked(MissingArticle(d, id), id), con.(current := None));
      }
  }

  lemma WaitOrCloseAsks(s: Server, c: Check, con: Con)
    requires con.current.None?
    ensures var (d, con') := WaitOrClose(s, c, con); Asked(s, c, con, d, con')
  {
    hide WaitingForPar2, FinishOrRetry;
    var quiet := con.(watchdog := false, phase := Idle);
    FinishGivesUp(s, c, quiet);
    FinishGivesUp(s, c, quiet.(waits := (con.waits + 1) % WAITS_WRAP));
  }

  lemma RefusedOne(c: Check, id: ArticleId)
    requires OwnersInRange(c)
    ensures var d := ArticleChecked(MissingArticle(c, id), id);
            OwnersInRange(d) && d.par2Queue == c.par2Queue && d.dataQueue == c.dataQueue
  {
    hide OwnersInRange;
    MissingArticleIs(c, id);
    SameFilesInRange(c, MissingArticle(c, id));
    ArticleCheckedIs(MissingArticle(c, id), id);
    SameFilesInRange(MissingArticle(c, id), ArticleChecked(MissingArticle(c, id), id));
  }

  /** What a step costs: a whole article, or some of what its connection has left. */
  predicate Costs(s: Server, c: Check, con: Con, d: Check, con': Con) {
    var before, after := 2 * Queued(c) + Hands(con), 2 * Queued(d) + Hands(con');
    || (after < before && Left(s, con') < Left(s, con) + PerArticle(s))
    || (after <= before && Left(s, con') < Left(s, con))
  }

  lemma FinishCosts(s: Server, c: Check, con: Con, quiet: Con)
    requires quiet == con || quiet == con.(watchdog := false)
    requires con.link.Connecting? || con.IsConnected() || (con.link.Finished? && con.watchdog && !quiet.watchdog)
    ensures var (d, con') := FinishOrRetry(s, c, quiet); Costs(s, c, con, d, con')
  {
    hide FinishOrRetry, Left, PerArticle, PerStage, PerTry;
    FinishGivesUp(s, c, quiet);
    var con' := FinishOrRetry(s, c, quiet).1;
    if con'.retries == con.retries {
      StageFalls(s, con, con');
    } else {
      TryFalls(s, con, con');
    }
  }

  lemma CloseCosts(s: Server, c: Check, con: Con)
    requires con.link.Connecting? || con.link.Up?
    ensures var (d, con') := CloseConnection(s, c, con); Costs(s, c, con, d, con')
  {
    hide FinishOrRetry, Left, PerArticle, PerStage, PerTry;
    if con.link.Connecting? {
      FinishCosts(s, c, con, con);
    } else {
      StageFalls(s, con, CloseConnection(s, c, con).1);
    }
  }

  lemma PollCosts(s: Server, c: Check, con: Con)
    requires OwnersInRange(c) && con.polls > 0 && s.waitBound < WAITS_WRAP
    ensures var (d, con') := CheckNext(s, c, con.(polls := con.polls - 1)); Costs(s, c, con, d, con')
  {
    hide OwnersInRange, CheckNext, Left, PerArticle, PerStage, PerTry;
    var fired := con.(polls := con.polls - 1);
    CheckNextAsks(s, c, fired);
    var (d, con') := CheckNext(s, c, fired);
    if con'.retries == con.retries {
      if Waited(s, fired, con') {
        assert (con.waits + 1) % WAITS_WRAP == con.waits + 1;
      }
      PollFalls(s, con, con');
    } else {
      TryFalls(s, con, con');
    }
  }

  /** A line that makes the connection ask for its first article. */
  lemma ReadyCosts(s: Server, c: Check, con: Con)
    requires OwnersInRange(c) && con.IsConnected() && !con.handshaking && s.waitBound < WAITS_WRAP
    requires con.phase.Connected? || con.phase.AuthPass?
    ensures var (d, con') := CheckNext(s, c, con.(watchdog := false, phase := Idle)); Costs(s, c, con, d, con')
  {
    hide OwnersInRange, CheckNext, Left, PerArticle, PerStage, PerTry;
    var ready := con.(watchdog := false, phase := Idle);
    CheckNextAsks(s, c, ready);
    var (d, con') := CheckNext(s, c, ready);
    if Waited(s, ready, con') {
      assert (con.waits + 1) % WAITS_WRAP == con.waits + 1;
    }
    StageFalls(s, con, con');
  }

  lemma ReplyCosts(s: Server, c: Check, con: Con, code: nat)
    requires OwnersInRange(c) && con.IsConnected() && con.phase.CheckingArticle?
    ensures var (d, con') := ReadLine(s, c, con.(watchdog := false), code); Costs(s, c, con, d, con')
  {
    hide OwnersInRange, CheckNext, Left, PerArticle, PerStage, PerTry, Answered;
    var id := if con.current.Some? then con.current.value else "";
    var answered := Answered(c, id, code == 430);
    var idle := con.(watchdog := false, current := None, retries := 0, phase := Idle);
    AnsweredQueues(c, id, code == 430);
    CheckNextAsks(s, answered, idle);
    AnswerPays(s, con, CheckNext(s, answered, idle).1);
  }

  lemma AnsweredQueues(c: Check, id: ArticleId, gone: bool)
    requires OwnersInRange(c)
    ensures var d := Answered(c, id, gone);
            OwnersInRange(d) && d.par2Queue == c.par2Queue && d.dataQueue == c.dataQueue
  {
    hide OwnersInRange, MissingArticle, ArticleChecked;
    if gone {
      RefusedOne(c, id);
    } else {
      ArticleCheckedIs(c, id);
      SameFilesInRange(c, ArticleChecked(c, id));
    }
  }

  lemma LineCosts(s: Server, c: Check, con: Con, code: nat)
    requires OwnersInRange(c) && Effective(con, Line(code)) && s.waitBound < WAITS_WRAP
    ensures var (d, con') := ReadLine(s, c, con.(watchdog := false), code); Costs(s, c, con, d, con')
  {
    hide OwnersInRange, CheckNext, FinishOrRetry, TakeReply, Left, PerArticle, PerStage, PerTry, Costs;
    var (d, con') := ReadLine(s, c, con.(watchdog := false), code);
    match con.phase
    case CheckingArticle => ReplyCosts(s, c, con, code);
    case Connected =>
      if code == 200 && !s.hasUser {
        ReadyCosts(s, c, con);
      } else {
        StageCosts(s, c, con, con');
      }
    case AuthUser => StageCosts(s, c, con, con');
    case AuthPass =>
      if code / 10 == 28 {
        ReadyCosts(s, c, con);
      } else {
        StageCosts(s, c, con, con');
      }
    case _ =>
  }

  lemma StageCosts(s: Server, c: Check, con: Con, con': Con)
    requires con'.retries == con.retries && con'.polls == con.polls && Stage(con') < Stage(con)
    requires Hands(con') <= Hands(con)
    ensures Costs(s, c, con, c, con')
  {
    hide Left, PerArticle, PerStage, PerTry, Stage;
    StageFalls(s, con, con');
  }

  /** Every effective event costs something. */
  lemma EventCosts(s: Server, c: Check, con: Con, e: Event)
    requires OwnersInRange(c) && Effective(con, e) && s.waitBound < WAITS_WRAP
    ensures var (d, con') := Handle(s, c, con, e); Costs(s, c, con, d, con')
  {
    hide OwnersInRange, CheckNext, FinishOrRetry, CloseConnection, ReadLine, Costs;
    var (d, con') := Handle(s, c, con, e);
    match e
    case Start(_) => StageCosts(s, c, con, con');
    case Opened(_) => StageCosts(s, c, con, con');
    case Encrypted => StageCosts(s, c, con, con');
    case Line(code) => LineCosts(s, c, con, code);
    case SocketFailed => CloseCosts(s, c, con);
    case Dropped => FinishCosts(s, c, con, con.(watchdog := false));
    case WatchdogFired => FinishCosts(s, c, con, con.(watchdog := false));
    case Poll => PollCosts(s, c, con);
  }

  // ---- The whole run ----

  function AllHands(cons: seq<Con>): (ns: seq<int>)
    ensures |ns| == |cons| && forall i | 0 <= i < |ns| :: ns[i] == Hands(cons[i])
  {
    seq(|cons|, i requires 0 <= i < |cons| => Hands(cons[i]))
  }

  function AllLeft(s: Server, cons: seq<Con>): (ns: seq<int>)
    ensures |ns| == |cons| && forall i | 0 <= i < |ns| :: ns[i] == Left(s, cons[i])
  {
    seq(|cons|, i requires 0 <= i < |cons| => Left(s, cons[i]))
  }

  /** The articles still alive, twice, and the replies awaited for none. */
  function Alive(r: Run): int { 2 * Queued(r.check) + Sum(AllHands(r.cons)) }

  /** A bound on the events still to come. */
  function Measure(s: Server, r: Run): int {
    Alive(r) * PerArticle(s) + Sum(AllLeft(s, r.cons))
  }

  lemma MeasureIsNatural(s: Server, r: Run)
    ensures Measure(s, r) >= 0
  {
    hide Left, Hands;
    SumNonNegative(AllHands(r.cons));
    SumNonNegative(AllLeft(s, r.cons));
    MulOrder(0, Alive(r) + 1, PerArticle(s) + 1);
  }

  lemma StepCosts(s: Server, r: Run, step: Step)
    requires OwnersInRange(r.check) && step.con < |r.cons| && s.waitBound < WAITS_WRAP
    requires Effective(r.cons[step.con], step.event)
    ensures Measure(s, Next(s, r, step)) < Measure(s, r)
  {
    hide OwnersInRange, Handle, Effective, Next, Left, Hands, PerArticle, Queued;
    var con := r.cons[step.con];
    var (d, con') := Handle(s, r.check, con, step.event);
    EventCosts(s, r.check, con, step.event);
    NextIs(s, r, step);
    SumUpdate(AllLeft(s, r.cons), step.con, Left(s, con'));
    SumUpdate(AllHands(r.cons), step.con, Hands(con'));
    var cons := r.cons[step.con := con'];
    assert AllLeft(s, cons) == AllLeft(s, r.cons)[step.con := Left(s, con')];
    assert AllHands(cons) == AllHands(r.cons)[step.con := Hands(con')];
    PerArticleIsPositive(s);
    var next := Next(s, r, step);
    if Alive(next) < Alive(r) {
      MulOrder(Alive(next), Alive(r) - 1, PerArticle(s));
      MulSum(Alive(r), -1, 0, PerArticle(s));
    } else {
      assert Alive(next) == Alive(r);
    }
  }

  lemma PerArticleIsPositive(s: Server)
    ensures PerArticle(s) > 0
  {
    MulOrder(0, s.maxRetries, PerTry(s));
  }

  ghost predicate EffectiveRun(s: Server, r: Run, steps: seq<Step>)
    requires OwnersInRange(r.check)
  {
    steps == [] ||
    (var before, step := After(s, r, steps[..|steps| - 1]), steps[|steps| - 1];
     && EffectiveRun(s, r, steps[..|steps| - 1])
     && step.con < |before.cons| && Effective(before.cons[step.con], step.event))
  }

  /** From any state, no run is longer than its measure: transports lost at any moment,
      stray timers and articles they lose included. */
  lemma {:induction false} RunsEnd(s: Server, r: Run, steps: seq<Step>)
    requires OwnersInRange(r.check) && EffectiveRun(s, r, steps) && s.waitBound < WAITS_WRAP
    ensures |steps| + Measure(s, After(s, r, steps)) <= Measure(s, r)
    ensures |steps| <= Measure(s, r)
  {
    hide OwnersInRange, Next, Effective, Measure;
    if steps != [] {
      var init, step := steps[..|steps| - 1], steps[|steps| - 1];
      RunsEnd(s, r, init);
      var before := After(s, r, init);
      SameFilesInRange(r.check, before.check);
      StepCosts(s, before, step);
    }
    MeasureIsNatural(s, After(s, r, steps));
  }

  /** Nothing more can happen to a connection if and only if it has been reported as
      finished and no timer of it is left: a run that cannot go on is over. */
  lemma StuckIffFinished(con: Con)
    ensures (forall e :: !Effective(con, e)) <==> con.link.Finished? && !con.watchdog && con.polls == 0
  {
    match con.link
    case Starting => assert Effective(con, Start(false));
    case Connecting => assert Effective(con, SocketFailed);
    case Up => assert Effective(con, SocketFailed);
    case Closing => assert Effective(con, Dropped);
    case Finished =>
      if con.watchdog {
        assert Effective(con, WatchdogFired);
      } else if con.polls > 0 {
        assert Effective(con, Poll);
      }
  }
}
