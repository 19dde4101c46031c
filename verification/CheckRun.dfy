/** One connection of a check, and the run of several over one server
    (src/NntpCheckCon.cpp). `Handle` is what one event does to a connection and to the
    check it shares with the others; a run is any sequence of events. */
module CheckRun {
  import opened Options
  import opened NzbFacts
  import opened CheckState

  datatype Server = Server(
    hasUser: bool, userSendable: bool, passSendable: bool, maxRetries: nat, waitBound: nat)

  /** Starting: startConnection is queued. Connecting: a socket, not connected yet.
      Closing: still connected, so lines that were received before can be read. Finished:
      reported as disconnected. */
  datatype Link = Starting | Connecting | Up | Closing | Finished

  datatype Phase = NotConnected | Connected | AuthUser | AuthPass | Idle | CheckingArticle

  /** `polls` counts the wait timers still to fire; nothing cancels them. */
  datatype Con = Con(
    link: Link, handshaking: bool, phase: Phase, current: Option<ArticleId>,
    retries: nat, waits: nat, polls: nat, watchdog: bool)
  {
    predicate HasSocket() { link.Connecting? || IsConnected() }

    predicate IsConnected() { link.Up? || link.Closing? }
  }

  const FRESH: Con := Con(Starting, false, NotConnected, None, 0, 0, 0, false)

  /** What can happen to a connection. `code` is the status of a reply line. A queued
      start is delivered before the watchdog, which has the whole timeout to go. */
  datatype Event =
    | Start(refused: bool) | Opened(tls: bool) | Encrypted | Line(code: nat)
    | SocketFailed | Dropped | WatchdogFired | Poll

  datatype Answer = Answer(id: ArticleId, gone: bool)

  /** The wait counter is an unsigned 16-bit number. */
  const WAITS_WRAP: nat := 0x1_0000

  function FinishOrRetry(s: Server, c: Check, con: Con): (r: (Check, Con))
    ensures SameFiles(c, r.0)
  {
    var c := if con.current.Some? then Requeued(c, con.current.value) else c;
    var con := con.(current := None, handshaking := false);
    if HasArticlesLeft(c) && con.retries < s.maxRetries then
      (c, con.(retries := con.retries + 1, phase := NotConnected, link := Starting))
    else
      (c, con.(link := Finished))
  }

  function CloseConnection(s: Server, c: Check, con: Con): (r: (Check, Con))
    ensures SameFiles(c, r.0)
  {
    if con.IsConnected() then (c, con.(link := Closing)) else FinishOrRetry(s, c, con)
  }

  /** Handing an article out makes the stacks shorter. */
  lemma NextShrinks(c: Check)
    ensures var (d, next) := NextArticle(c);
            && |d.par2Queue| + |d.dataQueue| == |c.par2Queue| + |c.dataQueue| - if next.Some? then 1 else 0
  {
  }

  /** Nothing was handed out: wait for the PAR2 answers, or close. */
  function WaitOrClose(s: Server, c: Check, con: Con): (r: (Check, Con))
    ensures SameFiles(c, r.0)
  {
    var waiting := WaitingForPar2(c);
    var next := if waiting then con.(waits := (con.waits + 1) % WAITS_WRAP) else con;
    if waiting && con.waits < s.waitBound then
      (c, next.(watchdog := false, polls := con.polls + 1))
    else
      CloseConnection(s, c, next.(watchdog := false, phase := Idle))
  }

  function CheckNext(s: Server, c: Check, con: Con): (r: (Check, Con))
    requires OwnersInRange(c)
    ensures SameFiles(c, r.0)
    decreases |c.par2Queue| + |c.dataQueue|
  {
    var (d, next) := NextArticle(c);
    match next
    case None => WaitOrClose(s, d, con.(current := None))
    case Some(article) =>
      if IsValidMessageId(article) then
        (d, con.(current := next, phase := CheckingArticle, waits := 0,
                 watchdog := con.watchdog || con.HasSocket()))
      else
        CheckNext(s, ArticleChecked(MissingArticle(d, article), article), con.(current := None))
  }

  /** The reply to STAT: anything but 430 means the article is there. */
  function Answered(c: Check, article: ArticleId, gone: bool): (r: Check)
    requires OwnersInRange(c)
    ensures SameFiles(c, r)
  {
    ArticleChecked(if gone then MissingArticle(c, article) else c, article)
  }

  function TakeReply(s: Server, c: Check, con: Con, article: ArticleId, gone: bool): (r: (Check, Con))
    requires OwnersInRange(c)
    ensures SameFiles(c, r.0)
  {
    CheckNext(s, Answered(c, article, gone), con.(current := None, retries := 0, phase := Idle))
  }

  function ReadLine(s: Server, c: Check, con: Con, code: nat): (r: (Check, Con))
    requires OwnersInRange(c)
    ensures SameFiles(c, r.0)
  {
    match con.phase
    case CheckingArticle =>
      TakeReply(s, c, con, if con.current.Some? then con.current.value else "", code == 430)
    case Connected =>
      if code != 200 then CloseConnection(s, c, con)
      else if !s.hasUser then CheckNext(s, c, con.(phase := Idle))
      else if !s.userSendable then CloseConnection(s, c, con.(phase := AuthUser))
      else (c, con.(phase := AuthUser, watchdog := true))
    case AuthUser =>
      if code / 10 != 38 then CloseConnection(s, c, con)
      else if !s.passSendable then CloseConnection(s, c, con.(phase := AuthPass))
      else (c, con.(phase := AuthPass, watchdog := true))
    case AuthPass =>
      if code / 10 != 28 then CloseConnection(s, c, con) else CheckNext(s, c, con.(phase := Idle))
    case _ => (c, con)
  }

  /** The event can happen to this connection now. */
  predicate Enabled(con: Con, e: Event) {
    match e
    case Start(_) => con.link.Starting?
    case Opened(_) => con.link.Connecting?
    case Encrypted => con.link.Up? && con.handshaking
    case Line(_) => con.IsConnected() && !con.handshaking
    case SocketFailed => con.HasSocket()
    case Dropped => con.IsConnected()
    case WatchdogFired => con.watchdog && !con.link.Starting?
    case Poll => con.polls > 0
  }

  function Handle(s: Server, c: Check, con: Con, e: Event): (r: (Check, Con))
    requires OwnersInRange(c)
    ensures SameFiles(c, r.0)
  {
    if !Enabled(con, e) then (c, con) else
      match e
      case Start(refused) =>
        (c, if refused then con.(link := Finished) else con.(link := Connecting, watchdog := true))
      case Opened(tls) =>
        (c, if tls then con.(link := Up, handshaking := true) else con.(link := Up, phase := Connected))
      case Encrypted => (c, con.(handshaking := false, phase := Connected))
      case Line(code) => ReadLine(s, c, con.(watchdog := false), code)
      case SocketFailed => CloseConnection(s, c, con)
      case Dropped => FinishOrRetry(s, c, con.(watchdog := false))
      case WatchdogFired => FinishOrRetry(s, c, con.(watchdog := false))
      case Poll => CheckNext(s, c, con.(polls := con.polls - 1))
  }

  /** The article this event answers, and how. */
  function AnswerOf(con: Con, e: Event): Option<Answer> {
    if e.Line? && Enabled(con, e) && con.phase.CheckingArticle? && con.current.Some?
    then Some(Answer(con.current.value, e.code == 430)) else None
  }

  // ---- Several connections ----

  /** `answered` and `gone` record what the server has said so far. */
  datatype Run = Run(check: Check, cons: seq<Con>, answered: set<ArticleId>, gone: set<ArticleId>)

  datatype Step = Step(con: nat, event: Event)

  function Next(s: Server, r: Run, step: Step): (next: Run)
    requires OwnersInRange(r.check)
    ensures SameFiles(r.check, next.check) && |next.cons| == |r.cons|
  {
    if step.con >= |r.cons| then r else
      var con := r.cons[step.con];
      var (check, con') := Handle(s, r.check, con, step.event);
      var cons := r.cons[step.con := con'];
      match AnswerOf(con, step.event)
      case None => Run(check, cons, r.answered, r.gone)
      case Some(Answer(id, gone)) =>
        Run(check, cons, r.answered + {id}, if gone then r.gone + {id} else r.gone)
  }

  function After(s: Server, r: Run, steps: seq<Step>): (end: Run)
    requires OwnersInRange(r.check)
    ensures SameFiles(r.check, end.check) && |end.cons| == |r.cons|
  {
    if steps == [] then r else
      Next(s, After(s, r, steps[..|steps| - 1]), steps[|steps| - 1])
  }

  function Started(c: Check, connections: nat): Run {
    Run(c, seq(connections, _ => FRESH), {}, {})
  }
}
