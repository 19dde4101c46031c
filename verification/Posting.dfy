/** One posting connection (src/NntpConnection.cpp), the article it holds, and a log of
    what it did with it: what every run of events keeps. */
module Posting {
  import opened Options

  /** `msgId` is what id() reports: the UUID of the last body written, or nothing once a
      new one was asked for; a retry draws a UUID and leaves it as it was. */
  datatype Article = Article(key: nat, uuid: nat, msgId: Option<nat>, tries: nat)

  datatype Link = Down | Connecting | Up | Closing

  datatype Phase =
    | NotConnected | Connected | AuthUser | AuthPass | Idle | SendingArticle | WaitingAnswer | NoMoreFiles

  /** What others can see of the connection. */
  datatype Mark =
    | Took(key: nat)
    | Wrote(key: nat, uuid: nat)
    | Replied(code: nat)
    | Unknown(key: nat, msgId: Option<nat>)
    | Posted(key: nat)
    | Failed(key: nat)

  /** Newest mark outermost. */
  datatype Log = Empty | Then(before: Log, last: Mark)

  datatype Con = Con(
    link: Link, handshaking: bool, phase: Phase, current: Option<Article>, preserved: bool,
    nbDisconnected: nat, authRejected: bool, log: Log)
  {
    predicate IsConnected() { link.Up? || link.Closing? }

    function Marks(m: Mark): Con { this.(log := Then(log, m)) }
  }

  /** The pause flag each time it is read, and what Poster::getNextArticle returns. */
  datatype Supply = Supply(pausedBefore: bool, pausedAfter: bool, next: Option<Article>)

  datatype Settings = Settings(hasUser: bool, userSendable: bool, passSendable: bool, maxTries: nat)

  datatype Event =
    | Start(paused: bool, refused: bool)
    | Opened(tls: bool)
    | Encrypted
    | Line(code: nat, supply: Supply)
    | TransportFailed(posting: bool, paused: bool)
    | TlsRejected
    | Dropped(posting: bool, paused: bool)
    | Kill

  const FRESH: Con := Con(Down, false, NotConnected, None, false, 0, false, Empty)

  // ---- The steps ----

  /** The identifier of an attempt that may have reached the server is recorded before it
      is replaced. */
  function Preserve(con: Con): Con {
    if con.current.None? || con.preserved then con else
      var a := con.current.value;
      con.(preserved := true, current := Some(a.(uuid := a.uuid + 1, msgId := None)))
      .Marks(Unknown(a.key, a.msgId))
  }

  /** onDisconnected: both ways out keep the article. */
  function LoseTransport(s: Settings, con: Con, posting: bool, paused: bool): Con {
    var mayRetry := posting && !paused && con.phase != NoMoreFiles && !con.authRejected;
    Preserve(con.(link := Down, handshaking := false,
                  nbDisconnected := if mayRetry then con.nbDisconnected + 1 else con.nbDisconnected))
  }

  function CloseConnection(con: Con): Con {
    if con.IsConnected() then con.(link := Closing)
    else Preserve(con.(link := Down, handshaking := false))
  }

  function SendNext(con: Con, supply: Supply): Con {
    if supply.pausedBefore then con else
      var con :=
        if con.current.Some? then con
        else if supply.next.Some? then
          con.(current := supply.next, preserved := false).Marks(Took(supply.next.value.key))
        else con.(preserved := false);
      if supply.pausedAfter then con
      else if con.current.Some? then con.(phase := SendingArticle)
      else CloseConnection(con.(phase := NoMoreFiles))
  }

  /** The reply to POST: 340 sends the body. */
  function PostReply(con: Con, code: nat): Con
    requires con.current.Some?
  {
    var a := con.current.value;
    if code == 340 then
      con.(phase := WaitingAnswer, preserved := false,
           current := Some(a.(tries := a.tries + 1, msgId := Some(a.uuid))))
      .Marks(Wrote(a.key, a.uuid))
    else
      CloseConnection(con.(phase := NotConnected))
  }

  /** The reply to the body is final, one way or the other, or buys another try. */
  function ArticleReply(s: Settings, con: Con, code: nat, supply: Supply): Con
    requires con.current.Some?
  {
    var a, con := con.current.value, con.Marks(Replied(code));
    if code == 240 then
      SendNext(con.(phase := Idle, current := None, preserved := false).Marks(Posted(a.key)), supply)
    else if a.tries < s.maxTries then
      con.(phase := SendingArticle, current := Some(a.(uuid := a.uuid + 1)))
    else
      SendNext(con.(phase := Idle, current := None, preserved := false).Marks(Failed(a.key)), supply)
  }

  function Reject(con: Con): Con { CloseConnection(con.(authRejected := true)) }

  function ReadLine(s: Settings, con: Con, code: nat, supply: Supply): Con
    requires con.phase.SendingArticle? || con.phase.WaitingAnswer? ==> con.current.Some?
  {
    match con.phase
    case SendingArticle => PostReply(con, code)
    case WaitingAnswer => ArticleReply(s, con, code, supply)
    case Connected =>
      if code != 200 then CloseConnection(con)
      else if !s.hasUser then SendNext(con.(phase := Idle), supply)
      else if !s.userSendable then Reject(con.(phase := AuthUser))
      else con.(phase := AuthUser)
    case AuthUser =>
      if code / 10 != 38 then Reject(con)
      else if !s.passSendable then Reject(con.(phase := AuthPass))
      else con.(phase := AuthPass)
    case AuthPass =>
      if code / 10 != 28 then Reject(con) else SendNext(con.(phase := Idle), supply)
    case _ => con
  }

  predicate Enabled(con: Con, e: Event) {
    match e
    case Start(_, _) => con.link.Down?
    case Opened(_) => con.link.Connecting?
    case Encrypted => con.link.Up? && con.handshaking
    case Line(_, _) => con.IsConnected() && !con.handshaking
    case TransportFailed(_, _) => con.link.Up? || con.link.Connecting?
    case TlsRejected => con.link.Up? && con.handshaking
    case Dropped(_, _) => con.IsConnected()
    case Kill => true
  }

  function Handle(s: Settings, con: Con, e: Event): (next: Con)
    requires Sane(con)
    ensures Sane(next)
  {
    if !Enabled(con, e) then con else
      match e
      case Start(paused, refused) =>
        if paused then con
        else if refused then con.(authRejected := false)
        else con.(authRejected := false, link := Connecting)
      case Opened(tls) =>
        if tls then con.(link := Up, handshaking := true) else con.(link := Up, phase := Connected)
      case Encrypted => con.(handshaking := false, phase := Connected)
      case Line(code, supply) => ReadLine(s, con, code, supply)
      case TransportFailed(posting, paused) =>
        if con.IsConnected() then LoseTransport(s, con, posting, paused) else CloseConnection(con)
      case TlsRejected => CloseConnection(con)
      case Dropped(posting, paused) => LoseTransport(s, con, posting, paused)
      case Kill => Preserve(con.(link := Down, handshaking := false))
  }

  // ---- What the log must show ----

  /** The body the server has neither answered nor been declared lost. */
  function Pending(log: Log): Option<(nat, nat)> {
    match log
    case Empty => None
    case Then(before, Wrote(key, uuid)) => Some((key, uuid))
    case Then(before, Replied(_)) => None
    case Then(before, Unknown(key, msgId)) =>
      var p := Pending(before);
      if p.Some? && p.value.0 == key && msgId == Some(p.value.1) then None else p
    case Then(before, _) => Pending(before)
  }

  /** An article can be marked unknown since it was taken or last written. */
  predicate MarkIsDue(log: Log) {
    match log
    case Empty => false
    case Then(_, Took(_)) => true
    case Then(_, Wrote(_, _)) => true
    case Then(_, Unknown(_, _)) => false
    case Then(before, _) => MarkIsDue(before)
  }

  predicate HasOutcome(log: Log, key: nat) {
    match log
    case Empty => false
    case Then(before, last) => HasOutcome(before, key) || last == Posted(key) || last == Failed(key)
  }

  predicate Mentions(log: Log, key: nat) {
    match log
    case Empty => false
    case Then(before, Replied(_)) => Mentions(before, key)
    case Then(before, last) => Mentions(before, key) || last.key == key
  }

  /** Every body of this article was written under a smaller UUID. */
  predicate UsedBelow(log: Log, key: nat, uuid: nat) {
    match log
    case Empty => true
    case Then(before, last) => UsedBelow(before, key, uuid) && (last.Wrote? && last.key == key ==> last.uuid < uuid)
  }

  /** The promises, mark by mark:
      - a body is only written when none is pending, and under a UUID never used before;
      - an article is marked unknown once per attempt at most;
      - it is reported posted only right after a 240 to its own pending body;
      - it gets at most one outcome. */
  predicate Promised(log: Log) {
    match log
    case Empty => true
    case Then(before, last) =>
      && Promised(before)
      && match last
         case Wrote(key, uuid) => Pending(before).None? && UsedBelow(before, key, uuid)
         case Unknown(key, msgId) => MarkIsDue(before)
         case Posted(key) =>
           && !HasOutcome(before, key)
           && before.Then? && before.last == Replied(240)
           && Pending(before.before).Some? && Pending(before.before).value.0 == key
         case Failed(key) => !HasOutcome(before, key)
         case _ => true
  }

  /** A reply to POST or to a body concerns an article in hand. */
  predicate Sane(con: Con) {
    con.phase.SendingArticle? || con.phase.WaitingAnswer? ==> con.current.Some?
  }

  /** The body that is pending is the one whose answer the connection awaits. */
  predicate AwaitsAnswer(con: Con) {
    con.phase.WaitingAnswer? && con.IsConnected() && !con.handshaking
  }

  predicate Inv(con: Con) {
    && Sane(con) && Promised(con.log)
    && (con.handshaking ==> con.IsConnected())
    && (if AwaitsAnswer(con) then
          var a := con.current.value;
          !con.preserved && Pending(con.log) == Some((a.key, a.uuid)) && a.msgId == Some(a.uuid)
        else Pending(con.log).None?)
    && (con.current.Some? ==>
          var a := con.current.value;
          && (!con.preserved ==> MarkIsDue(con.log))
          && !HasOutcome(con.log, a.key)
          && UsedBelow(con.log, a.key, if AwaitsAnswer(con) then a.uuid + 1 else a.uuid))
  }

  /** Articles handed out are new to this connection. */
  predicate SuppliesNew(con: Con, e: Event) {
    e.Line? && e.supply.next.Some? ==> !Mentions(con.log, e.supply.next.value.key)
  }

  lemma PreserveKeeps(con: Con)
    requires Sane(con) && Promised(con.log) && (con.handshaking ==> con.IsConnected())
    requires !AwaitsAnswer(con)
    requires con.current.Some? ==>
               var a := con.current.value;
               && (!con.preserved ==> MarkIsDue(con.log)) && !HasOutcome(con.log, a.key)
               && UsedBelow(con.log, a.key, a.uuid + 1)
    requires Pending(con.log).Some? ==>
               && con.current.Some? && !con.preserved
               && var a := con.current.value;
                  Pending(con.log) == Some((a.key, a.uuid)) && a.msgId == Some(a.uuid)
    requires con.current.Some? && Pending(con.log).None? ==>
               UsedBelow(con.log, con.current.value.key, con.current.value.uuid)
    ensures Inv(Preserve(con))
  {
  }

  lemma {:induction false} UsedMonotone(log: Log, key: nat, small: nat, big: nat)
    requires UsedBelow(log, key, small) && small <= big
    ensures UsedBelow(log, key, big)
  {
    if log.Then? {
      UsedMonotone(log.before, key, small, big);
    }
  }

  lemma {:induction false} NewIsUnused(log: Log, key: nat, uuid: nat)
    requires !Mentions(log, key)
    ensures !HasOutcome(log, key) && UsedBelow(log, key, uuid)
  {
    if log.Then? {
      NewIsUnused(log.before, key, uuid);
    }
  }

  lemma CloseKeeps(con: Con)
    requires Inv(con)
    ensures Inv(CloseConnection(con))
  {
    KillKeeps(con);
  }

  lemma SendNextKeeps(con: Con, supply: Supply)
    requires Inv(con) && con.phase.Idle?
    requires supply.next.Some? ==> !Mentions(con.log, supply.next.value.key)
    ensures Inv(SendNext(con, supply))
  {
    hide CloseConnection, Promised;
    if con.current.None? && supply.next.Some? {
      NewIsUnused(con.log, supply.next.value.key, supply.next.value.uuid);
      assert Promised(Then(con.log, Took(supply.next.value.key))) by { TookIsPromised(con.log, supply.next.value.key); }
    }
    if con.current.None? && supply.next.None? {
      CloseKeeps(con.(preserved := false, phase := NoMoreFiles));
    }
  }

  lemma TookIsPromised(log: Log, key: nat)
    requires Promised(log)
    ensures Promised(Then(log, Took(key)))
  {
  }

  lemma PostReplyKeeps(con: Con, code: nat)
    requires Inv(con) && con.phase.SendingArticle? && con.IsConnected() && !con.handshaking
    ensures Inv(PostReply(con, code))
  {
    if code != 340 {
      CloseKeeps(con.(phase := NotConnected));
    } else {
      UsedMonotone(con.log, con.current.value.key, con.current.value.uuid, con.current.value.uuid + 1);
    }
  }

  /** The state once a final reply is logged. */
  function Settled(con: Con, code: nat, outcome: Mark): Con {
    con.Marks(Replied(code)).(phase := Idle, current := None, preserved := false).Marks(outcome)
  }

  lemma SettledKeeps(con: Con, code: nat, outcome: Mark)
    requires Inv(con) && AwaitsAnswer(con)
    requires var key := con.current.value.key; outcome == Failed(key) || (outcome == Posted(key) && code == 240)
    ensures Inv(Settled(con, code, outcome))
    ensures forall key :: Mentions(Settled(con, code, outcome).log, key)
                       <==> Mentions(con.log, key) || key == con.current.value.key
  {
  }

  lemma {:induction false} PendingIsMentioned(log: Log)
    requires Pending(log).Some?
    ensures Mentions(log, Pending(log).value.0)
  {
    if log.Then? && !log.last.Wrote? {
      PendingIsMentioned(log.before);
    }
  }

  lemma ArticleReplyKeeps(s: Settings, con: Con, code: nat, supply: Supply)
    requires Inv(con) && AwaitsAnswer(con)
    requires supply.next.Some? ==> !Mentions(con.log, supply.next.value.key)
    ensures Inv(ArticleReply(s, con, code, supply))
  {
    var a := con.current.value;
    PendingIsMentioned(con.log);
    hide SendNext;
    if code == 240 {
      SettledKeeps(con, code, Posted(a.key));
      hide Inv, Mentions;
      SendNextKeeps(Settled(con, code, Posted(a.key)), supply);
    } else if a.tries >= s.maxTries {
      SettledKeeps(con, code, Failed(a.key));
      hide Inv, Mentions;
      SendNextKeeps(Settled(con, code, Failed(a.key)), supply);
    }
  }

  lemma LineKeeps(s: Settings, con: Con, code: nat, supply: Supply)
    requires Inv(con) && Enabled(con, Line(code, supply)) && SuppliesNew(con, Line(code, supply))
    ensures Inv(ReadLine(s, con, code, supply))
  {
    hide SendNext, CloseConnection, PostReply, ArticleReply, Promised, Mentions;
    match con.phase
    case SendingArticle => PostReplyKeeps(con, code);
    case WaitingAnswer => ArticleReplyKeeps(s, con, code, supply);
    case Connected =>
      CloseKeeps(con);
      CloseKeeps(con.(phase := AuthUser, authRejected := true));
      SendNextKeeps(con.(phase := Idle), supply);
    case AuthUser =>
      CloseKeeps(con.(authRejected := true));
      CloseKeeps(con.(phase := AuthPass, authRejected := true));
    case AuthPass =>
      CloseKeeps(con.(authRejected := true));
      SendNextKeeps(con.(phase := Idle), supply);
    case _ =>
  }

  /** Every event keeps every promise. */
  lemma HandleKeeps(s: Settings, con: Con, e: Event)
    requires Inv(con) && SuppliesNew(con, e)
    ensures Inv(Handle(s, con, e))
  {
    hide SendNext, CloseConnection, ReadLine, Promised, Mentions, Preserve;
    if Enabled(con, e) {
      match e
      case Line(code, supply) => LineKeeps(s, con, code, supply);
      case TransportFailed(posting, paused) =>
        if con.IsConnected() { LossKeeps(s, con, posting, paused); } else { CloseKeeps(con); }
      case TlsRejected => CloseKeeps(con);
      case Dropped(posting, paused) => LossKeeps(s, con, posting, paused);
      case Kill => KillKeeps(con);
      case _ =>
    }
  }

  lemma KillKeeps(con: Con)
    requires Inv(con)
    ensures Inv(Preserve(con.(link := Down, handshaking := false)))
  {
    hide Promised, Preserve;
    if con.current.Some? {
      var a := con.current.value;
      if !AwaitsAnswer(con) {
        UsedMonotone(con.log, a.key, a.uuid, a.uuid + 1);
      }
    }
    PreserveKeeps(con.(link := Down, handshaking := false));
  }

  lemma LossKeeps(s: Settings, con: Con, posting: bool, paused: bool)
    requires Inv(con)
    ensures Inv(LoseTransport(s, con, posting, paused))
  {
    hide Promised, Preserve;
    var mayRetry := posting && !paused && con.phase != NoMoreFiles && !con.authRejected;
    KillKeeps(if mayRetry then con.(nbDisconnected := con.nbDisconnected + 1) else con);
  }

  // ---- Every run ----

  function After(s: Settings, events: seq<Event>): (con: Con)
    ensures Sane(con)
  {
    if events == [] then FRESH else Handle(s, After(s, events[..|events| - 1]), events[|events| - 1])
  }

  lemma {:induction false} RunsKeepPromises(s: Settings, events: seq<Event>)
    requires forall i | 0 <= i < |events| :: SuppliesNew(After(s, events[..i]), events[i])
    ensures Inv(After(s, events))
  {
    if events != [] {
      var init := events[..|events| - 1];
      forall i | 0 <= i < |init| ensures SuppliesNew(After(s, init[..i]), init[i]) {
        assert init[..i] == events[..i];
      }
      RunsKeepPromises(s, init);
      hide Inv, SuppliesNew, Handle;
      HandleKeeps(s, After(s, init), events[|events| - 1]);
    }
  }

  // ---- What the promises mean for two marks any distance apart ----

  /** `older` is what the log was at some moment. */
  predicate Extends(log: Log, older: Log) {
    log == older || (log.Then? && Extends(log.before, older))
  }

  /** Since `older`, the server replied or the attempt was marked unknown. */
  predicate SettledSince(log: Log, older: Log, key: nat, uuid: nat) {
    && log != older && log.Then?
    && (log.last.Replied? || log.last == Unknown(key, Some(uuid)) || SettledSince(log.before, older, key, uuid))
  }

  lemma {:induction false} WrittenIsPendingOrSettled(log: Log, before: Log, key: nat, uuid: nat)
    requires Promised(log) && Extends(log, Then(before, Wrote(key, uuid)))
    ensures SettledSince(log, Then(before, Wrote(key, uuid)), key, uuid) || Pending(log) == Some((key, uuid))
  {
    if log != Then(before, Wrote(key, uuid)) {
      WrittenIsPendingOrSettled(log.before, before, key, uuid);
    }
  }

  /** An ambiguous attempt is never forgotten: a body the server has not answered is marked
      unknown, under the identifier it was written with, as soon as the transport is gone
      and in any case before another body is written. */
  lemma AmbiguousIsMarked(con: Con, before: Log, key: nat, uuid: nat)
    requires Inv(con) && Extends(con.log, Then(before, Wrote(key, uuid)))
    requires !AwaitsAnswer(con)
    ensures SettledSince(con.log, Then(before, Wrote(key, uuid)), key, uuid)
  {
    WrittenIsPendingOrSettled(con.log, before, key, uuid);
  }

  lemma NextBodyComesAfter(log: Log, before: Log, key: nat, uuid: nat)
    requires Promised(log) && log.Then? && log.last.Wrote?
    requires Extends(log.before, Then(before, Wrote(key, uuid)))
    ensures SettledSince(log.before, Then(before, Wrote(key, uuid)), key, uuid)
    ensures log.last.key == key ==> uuid < log.last.uuid
  {
    WrittenIsPendingOrSettled(log.before, before, key, uuid);
    if log.last.key == key {
      OlderBodyIsBelow(log.before, before, key, uuid, log.last.uuid);
    }
  }

  lemma {:induction false} OlderBodyIsBelow(log: Log, before: Log, key: nat, uuid: nat, bound: nat)
    requires UsedBelow(log, key, bound) && Extends(log, Then(before, Wrote(key, uuid)))
    ensures uuid < bound
  {
    if log != Then(before, Wrote(key, uuid)) {
      OlderBodyIsBelow(log.before, before, key, uuid, bound);
    }
  }

  /** A second mark needs a new attempt. */
  predicate AttemptSince(log: Log, older: Log) {
    && log != older && log.Then?
    && (log.last.Took? || log.last.Wrote? || AttemptSince(log.before, older))
  }

  lemma {:induction false} MarkedOncePerAttempt(log: Log, before: Log, key: nat, msgId: Option<nat>)
    requires Promised(log) && Extends(log, Then(before, Unknown(key, msgId)))
    ensures MarkIsDue(log) ==> AttemptSince(log, Then(before, Unknown(key, msgId)))
  {
    if log != Then(before, Unknown(key, msgId)) {
      MarkedOncePerAttempt(log.before, before, key, msgId);
    }
  }

  /** One outcome per article, on the whole log. */
  lemma {:induction false} OneOutcome(log: Log, before: Log, key: nat, outcome: Mark)
    requires Promised(log) && (outcome == Posted(key) || outcome == Failed(key))
    requires Extends(log, Then(before, outcome))
    ensures HasOutcome(log, key) && !HasOutcome(before, key)
    ensures log.last == Posted(key) || log.last == Failed(key) ==> log == Then(before, outcome)
  {
    if log != Then(before, outcome) {
      OneOutcome(log.before, before, key, outcome);
    }
  }

  /** An article is reported posted only right after a 240, and to a body of its own that
      was pending. */
  lemma {:induction false} PostedAfterAccept(log: Log, before: Log, key: nat)
    requires Promised(log) && Extends(log, Then(before, Posted(key)))
    ensures before.Then? && before.last == Replied(240)
    ensures Pending(before.before).Some? && Pending(before.before).value.0 == key
  {
    if log != Then(before, Posted(key)) {
      PostedAfterAccept(log.before, before, key);
    }
  }

  // ---- When an article is given up ----

  /** How often a body of this article was written. */
  function Written(log: Log, key: nat): nat {
    match log
    case Empty => 0
    case Then(before, last) => Written(before, key) + if last.Wrote? && last.key == key then 1 else 0
  }

  /** An article is reported failed only right after a reply other than 240 to a body of its
      own that was pending, and only once its tries are used up. */
  predicate FailsFairly(log: Log, maxTries: nat) {
    match log
    case Empty => true
    case Then(before, last) =>
      && FailsFairly(before, maxTries)
      && (last.Failed? ==>
            && before.Then? && before.last.Replied? && before.last.code != 240
            && Pending(before.before).Some? && Pending(before.before).value.0 == last.key
            && Written(before, last.key) >= maxTries)
  }

  /** The tries of the article in hand are the bodies of it that were written. */
  predicate TriesAreCounted(con: Con) {
    con.current.Some? ==> con.current.value.tries == Written(con.log, con.current.value.key)
  }

  predicate Fair(s: Settings, con: Con) { FailsFairly(con.log, s.maxTries) && TriesAreCounted(con) }

  /** Articles handed out have not been tried. */
  predicate SuppliesUntried(con: Con, e: Event) {
    SuppliesNew(con, e) && (e.Line? && e.supply.next.Some? ==> e.supply.next.value.tries == 0)
  }

  lemma {:induction false} NewIsUnwritten(log: Log, key: nat)
    requires !Mentions(log, key)
    ensures Written(log, key) == 0
  {
    if log.Then? {
      NewIsUnwritten(log.before, key);
    }
  }

  lemma PreserveIsFair(s: Settings, con: Con)
    requires Fair(s, con)
    ensures Fair(s, Preserve(con))
  {
  }

  lemma CloseIsFair(s: Settings, con: Con)
    requires Fair(s, con)
    ensures Fair(s, CloseConnection(con))
  {
    hide FailsFairly, Preserve;
    PreserveIsFair(s, con.(link := Down, handshaking := false));
  }

  lemma SendNextIsFair(s: Settings, con: Con, supply: Supply)
    requires Fair(s, con)
    requires supply.next.Some? ==> !Mentions(con.log, supply.next.value.key) && supply.next.value.tries == 0
    ensures Fair(s, SendNext(con, supply))
  {
    hide CloseConnection;
    if supply.next.Some? {
      NewIsUnwritten(con.log, supply.next.value.key);
    }
    CloseIsFair(s, con.(preserved := false, phase := NoMoreFiles));
  }

  lemma ArticleReplyIsFair(s: Settings, con: Con, code: nat, supply: Supply)
    requires Inv(con) && AwaitsAnswer(con) && Fair(s, con)
    requires supply.next.Some? ==> !Mentions(con.log, supply.next.value.key) && supply.next.value.tries == 0
    ensures Fair(s, ArticleReply(s, con, code, supply))
  {
    var key := con.current.value.key;
    PendingIsMentioned(con.log);
    hide SendNext, Promised;
    assert FailsFairly(Then(con.log, Replied(code)), s.maxTries);
    assert Written(Then(con.log, Replied(code)), key) == Written(con.log, key);
    if code == 240 {
      SendNextIsFair(s, Settled(con, code, Posted(key)), supply);
    } else if con.current.value.tries >= s.maxTries {
      SendNextIsFair(s, Settled(con, code, Failed(key)), supply);
    }
  }

  lemma HandleIsFair(s: Settings, con: Con, e: Event)
    requires Inv(con) && Fair(s, con) && SuppliesUntried(con, e)
    ensures Fair(s, Handle(s, con, e))
  {
    hide SendNext, CloseConnection, ArticleReply, Preserve, Promised, Mentions, FailsFairly;
    if Enabled(con, e) {
      match e
      case Line(code, supply) => LineIsFair(s, con, code, supply);
      case TransportFailed(posting, paused) =>
        CloseIsFair(s, con);
        LossIsFair(s, con, posting, paused);
      case TlsRejected => CloseIsFair(s, con);
      case Dropped(posting, paused) => LossIsFair(s, con, posting, paused);
      case Kill => PreserveIsFair(s, con.(link := Down, handshaking := false));
      case _ =>
    }
  }

  lemma LossIsFair(s: Settings, con: Con, posting: bool, paused: bool)
    requires Fair(s, con)
    ensures Fair(s, LoseTransport(s, con, posting, paused))
  {
    hide Preserve, FailsFairly;
    var lost := con.(link := Down, handshaking := false);
    PreserveIsFair(s, lost);
    PreserveIsFair(s, lost.(nbDisconnected := con.nbDisconnected + 1));
  }

  lemma LineIsFair(s: Settings, con: Con, code: nat, supply: Supply)
    requires Inv(con) && Fair(s, con) && Enabled(con, Line(code, supply)) && SuppliesUntried(con, Line(code, supply))
    ensures Fair(s, ReadLine(s, con, code, supply))
  {
    hide SendNext, CloseConnection, ArticleReply, Promised, Mentions;
    match con.phase
    case SendingArticle => CloseIsFair(s, con.(phase := NotConnected));
    case WaitingAnswer => ArticleReplyIsFair(s, con, code, supply);
    case Connected =>
      CloseIsFair(s, con);
      CloseIsFair(s, con.(phase := AuthUser, authRejected := true));
      SendNextIsFair(s, con.(phase := Idle), supply);
    case AuthUser =>
      CloseIsFair(s, con.(authRejected := true));
      CloseIsFair(s, con.(phase := AuthPass, authRejected := true));
    case AuthPass =>
      CloseIsFair(s, con.(authRejected := true));
      SendNextIsFair(s, con.(phase := Idle), supply);
    case _ =>
  }

  lemma {:induction false} RunsAreFair(s: Settings, events: seq<Event>)
    requires forall i | 0 <= i < |events| :: SuppliesUntried(After(s, events[..i]), events[i])
    ensures Inv(After(s, events)) && Fair(s, After(s, events))
  {
    if events != [] {
      var init := events[..|events| - 1];
      forall i | 0 <= i < |init| ensures SuppliesUntried(After(s, init[..i]), init[i]) {
        assert init[..i] == events[..i];
      }
      RunsAreFair(s, init);
      hide Inv, Fair, Handle;
      HandleIsFair(s, After(s, init), events[|events| - 1]);
      hide SuppliesNew;
      HandleKeeps(s, After(s, init), events[|events| - 1]);
    }
  }

  /** At any point of a run, an article is reported failed only right after a reply other
      than 240 to a body of its own that was pending, and only when as many bodies of it
      were written as it may have tries. */
  lemma {:induction false} FailedAfterLastTry(log: Log, before: Log, key: nat, maxTries: nat)
    requires FailsFairly(log, maxTries) && Extends(log, Then(before, Failed(key)))
    ensures before.Then? && before.last.Replied? && before.last.code != 240
    ensures Pending(before.before).Some? && Pending(before.before).value.0 == key && Written(before, key) >= maxTries
  {
    if log != Then(before, Failed(key)) {
      FailedAfterLastTry(log.before, before, key, maxTries);
    }
  }

  /** The answer to a body decides: 240 posts it, another reply fails it if its tries are
      used up, and otherwise it is kept, to be posted again under an identifier no body of
      it ever had. Once it is settled the connection goes on with the next article, outside
      a pause, and closes when there is none. */
  lemma AnswerDecides(s: Settings, con: Con, code: nat, supply: Supply)
    requires Inv(con) && Fair(s, con) && AwaitsAnswer(con)
    requires supply.next.Some? ==> !Mentions(con.log, supply.next.value.key)
    ensures var d, key := Handle(s, con, Line(code, supply)), con.current.value.key;
            && (HasMark(d.log, Posted(key)) <==> code == 240)
            && (HasMark(d.log, Failed(key)) <==> code != 240 && Written(con.log, key) >= s.maxTries)
            && (code != 240 && Written(con.log, key) < s.maxTries ==>
                  && d.phase.SendingArticle? && d.link == con.link && d.current.Some? && d.current.value.key == key
                  && UsedBelow(d.log, key, d.current.value.uuid) && d.log == Then(con.log, Replied(code)))
            && (code == 240 || Written(con.log, key) >= s.maxTries ==>
                  && (d.phase.SendingArticle? <==> !supply.pausedBefore && !supply.pausedAfter && supply.next.Some?)
                  && d.current == (if supply.pausedBefore then None else supply.next)
                  && (d.phase.NoMoreFiles? <==> !supply.pausedBefore && !supply.pausedAfter && supply.next.None?)
                  && (d.phase.NoMoreFiles? ==> d.link.Closing?))
  {
    hide Promised;
    var key := con.current.value.key;
    NoOutcomeNoMark(con.log, key);
    PendingIsMentioned(con.log);
    var replied := Then(con.log, Replied(code));
    assert !HasMark(replied, Posted(key)) && !HasMark(replied, Failed(key));
    assert UsedBelow(replied, key, con.current.value.uuid + 1);
    assert HasMark(Then(replied, Posted(key)), Posted(key)) && !HasMark(Then(replied, Posted(key)), Failed(key));
    assert HasMark(Then(replied, Failed(key)), Failed(key)) && !HasMark(Then(replied, Failed(key)), Posted(key));
  }

  predicate HasMark(log: Log, mark: Mark) { log.Then? && (log.last == mark || HasMark(log.before, mark)) }

  lemma {:induction false} NoOutcomeNoMark(log: Log, key: nat)
    requires !HasOutcome(log, key)
    ensures !HasMark(log, Posted(key)) && !HasMark(log, Failed(key))
  {
    if log.Then? {
      NoOutcomeNoMark(log.before, key);
    }
  }

  /** A 340 sends the body, under the identifier the article has; anything else to a POST
      keeps the article and gives up the connection. */
  lemma PermissionIffWritten(s: Settings, con: Con, code: nat, supply: Supply)
    requires Inv(con) && con.phase.SendingArticle? && con.link.Up? && !con.handshaking
    ensures var d, a := Handle(s, con, Line(code, supply)), con.current.value;
            && (code == 340 ==> AwaitsAnswer(d) && d.log == Then(con.log, Wrote(a.key, a.uuid)) && d.link.Up?)
            && (code != 340 ==> d.link.Closing? && d.current == con.current && d.log == con.log)
  {
  }

  // ---- No article is dropped ----

  predicate WasTaken(log: Log, key: nat) { log.Then? && (log.last == Took(key) || WasTaken(log.before, key)) }

  /** Every article taken is in hand or has its outcome. */
  ghost predicate NoneDropped(con: Con) {
    forall key :: WasTaken(con.log, key) ==>
                    HasOutcome(con.log, key) || (con.current.Some? && con.current.value.key == key)
  }

  lemma PreserveDropsNone(con: Con)
    requires NoneDropped(con)
    ensures NoneDropped(Preserve(con))
  {
  }

  lemma CloseDropsNone(con: Con)
    requires NoneDropped(con)
    ensures NoneDropped(CloseConnection(con))
  {
    hide Preserve, NoneDropped;
    SameLogDropsNone(con, con.(link := Closing));
    SameLogDropsNone(con, con.(link := Down, handshaking := false));
    PreserveDropsNone(con.(link := Down, handshaking := false));
  }

  lemma SameLogDropsNone(con: Con, d: Con)
    requires NoneDropped(con) && d.log == con.log && d.current == con.current
    ensures NoneDropped(d)
  {
  }

  lemma SendNextDropsNone(con: Con, supply: Supply)
    requires NoneDropped(con)
    ensures NoneDropped(SendNext(con, supply))
  {
    hide CloseConnection, HasOutcome;
    if con.current.None? && supply.next.Some? {
      TakingDropsNone(con, supply.next.value);
    }
    CloseDropsNone(con.(preserved := false, phase := NoMoreFiles));
  }

  lemma TakingDropsNone(con: Con, a: Article)
    requires NoneDropped(con) && con.current.None?
    ensures NoneDropped(con.(current := Some(a)).Marks(Took(a.key)))
  {
  }

  lemma MarkDropsNone(con: Con, mark: Mark, d: Con)
    requires NoneDropped(con) && !mark.Took? && d.log == Then(con.log, mark)
    requires con.current.Some? && d.current.Some? && d.current.value.key == con.current.value.key
    ensures NoneDropped(d)
  {
    assert forall key :: WasTaken(d.log, key) <==> WasTaken(con.log, key);
    assert forall key :: HasOutcome(con.log, key) ==> HasOutcome(d.log, key);
  }

  lemma PostReplyDropsNone(con: Con, code: nat)
    requires NoneDropped(con) && con.current.Some?
    ensures NoneDropped(PostReply(con, code))
  {
    hide CloseConnection, NoneDropped;
    SameLogDropsNone(con, con.(phase := NotConnected));
    CloseDropsNone(con.(phase := NotConnected));
    if code == 340 {
      MarkDropsNone(con, Wrote(con.current.value.key, con.current.value.uuid), PostReply(con, code));
    }
  }

  /** The article in hand gets its outcome. */
  lemma SettledDropsNone(con: Con, code: nat, outcome: Mark)
    requires NoneDropped(con) && con.current.Some?
    requires outcome == Posted(con.current.value.key) || outcome == Failed(con.current.value.key)
    ensures NoneDropped(Settled(con, code, outcome))
  {
    var log := Then(con.log, Replied(code));
    assert forall key :: WasTaken(log, key) <==> WasTaken(con.log, key);
    assert forall key :: HasOutcome(log, key) <==> HasOutcome(con.log, key);
  }

  lemma ArticleReplyDropsNone(s: Settings, con: Con, code: nat, supply: Supply)
    requires NoneDropped(con) && con.current.Some?
    ensures NoneDropped(ArticleReply(s, con, code, supply))
  {
    var key := con.current.value.key;
    hide SendNext;
    if code == 240 {
      SettledDropsNone(con, code, Posted(key));
      SendNextDropsNone(Settled(con, code, Posted(key)), supply);
    } else if con.current.value.tries >= s.maxTries {
      SettledDropsNone(con, code, Failed(key));
      SendNextDropsNone(Settled(con, code, Failed(key)), supply);
    } else {
      MarkDropsNone(con, Replied(code), ArticleReply(s, con, code, supply));
    }
  }

  lemma LineDropsNone(s: Settings, con: Con, code: nat, supply: Supply)
    requires Sane(con) && NoneDropped(con)
    ensures NoneDropped(ReadLine(s, con, code, supply))
  {
    hide SendNext, CloseConnection, ArticleReply, PostReply, NoneDropped;
    match con.phase
    case SendingArticle => PostReplyDropsNone(con, code);
    case WaitingAnswer => ArticleReplyDropsNone(s, con, code, supply);
    case Connected =>
      SameLogDropsNone(con, con.(phase := AuthUser));
      SameLogDropsNone(con, con.(phase := AuthUser, authRejected := true));
      SameLogDropsNone(con, con.(phase := Idle));
      CloseDropsNone(con);
      CloseDropsNone(con.(phase := AuthUser, authRejected := true));
      SendNextDropsNone(con.(phase := Idle), supply);
    case AuthUser =>
      SameLogDropsNone(con, con.(phase := AuthPass));
      SameLogDropsNone(con, con.(authRejected := true));
      SameLogDropsNone(con, con.(phase := AuthPass, authRejected := true));
      CloseDropsNone(con.(authRejected := true));
      CloseDropsNone(con.(phase := AuthPass, authRejected := true));
    case AuthPass =>
      SameLogDropsNone(con, con.(authRejected := true));
      SameLogDropsNone(con, con.(phase := Idle));
      CloseDropsNone(con.(authRejected := true));
      SendNextDropsNone(con.(phase := Idle), supply);
    case _ =>
  }

  lemma HandleDropsNone(s: Settings, con: Con, e: Event)
    requires Sane(con) && NoneDropped(con)
    ensures NoneDropped(Handle(s, con, e))
  {
    hide SendNext, CloseConnection, ReadLine, Preserve;
    if Enabled(con, e) {
      var down := con.(link := Down, handshaking := false);
      match e
      case Line(code, supply) => LineDropsNone(s, con, code, supply);
      case TransportFailed(_, _) | Dropped(_, _) =>
        CloseDropsNone(con);
        PreserveDropsNone(down);
        PreserveDropsNone(down.(nbDisconnected := con.nbDisconnected + 1));
      case TlsRejected => CloseDropsNone(con);
      case Kill => PreserveDropsNone(down);
      case _ =>
    }
  }

  /** On every run, each article that was taken is still in hand, or was reported posted or
      failed. */
  lemma {:induction false} NothingIsDropped(s: Settings, events: seq<Event>)
    requires forall i | 0 <= i < |events| :: SuppliesNew(After(s, events[..i]), events[i])
    ensures NoneDropped(After(s, events))
  {
    if events != [] {
      var init := events[..|events| - 1];
      forall i | 0 <= i < |init| ensures SuppliesNew(After(s, init[..i]), init[i]) {
        assert init[..i] == events[..i];
      }
      NothingIsDropped(s, init);
      RunsKeepPromises(s, init);
      hide Inv, SuppliesNew, Handle, NoneDropped;
      HandleDropsNone(s, After(s, init), events[|events| - 1]);
    }
  }

  // ---- Getting to post ----

  /** A connection that logs in is refused exactly on a wrong reply or an identity it cannot
      send; otherwise it goes on, and asks for work exactly when the login is over. */
  lemma LoginIff(s: Settings, con: Con, code: nat, supply: Supply)
    requires Inv(con) && con.link.Up? && !con.handshaking && con.current.None? && !supply.pausedBefore
    requires con.phase.Connected? || con.phase.AuthUser? || con.phase.AuthPass?
    requires supply.next.Some? && !supply.pausedAfter
    ensures var d := Handle(s, con, Line(code, supply));
            && (d.phase.SendingArticle? <==>
                  (con.phase.Connected? && code == 200 && !s.hasUser) || (con.phase.AuthPass? && code / 10 == 28))
            && (d.phase.AuthUser? && d.link.Up? <==> con.phase.Connected? && code == 200 && s.hasUser && s.userSendable)
            && (d.phase.AuthPass? && d.link.Up? <==> con.phase.AuthUser? && code / 10 == 38 && s.passSendable)
            && (d.link.Closing? <==> !d.phase.SendingArticle? && !((d.phase.AuthUser? || d.phase.AuthPass?) && d.link.Up?))
            && (d.authRejected <==> con.authRejected || (d.link.Closing? && !(con.phase.Connected? && code != 200)))
  {
  }

  /** However a transport is lost, the connection is without one, and the article in hand
      stays in hand: marked, once since its last attempt, under the identifier that attempt
      had, and with a fresh one. A rejected certificate closes the transport first. */
  lemma LosesIff(s: Settings, con: Con, e: Event)
    requires Inv(con) && Enabled(con, e) && (e.TransportFailed? || e.Dropped? || e.Kill?)
    ensures var d := Handle(s, con, e);
            && d.link.Down? && !d.handshaking
            && (con.current.None? || con.preserved ==>
                  d.current == con.current && d.log == con.log && d.preserved == con.preserved)
            && (con.current.Some? && !con.preserved ==>
                  var a := con.current.value;
                  && d.preserved && d.log == Then(con.log, Unknown(a.key, a.msgId))
                  && d.current == Some(Article(a.key, a.uuid + 1, None, a.tries)))
    ensures con.link.Up? && con.handshaking ==>
              Handle(s, con, TlsRejected) == con.(link := Closing)
  {
  }

  /** Between two articles: outside a pause the one in hand is sent again, otherwise the
      next one, and the connection closes for good only when there is none. */
  lemma SendsNextIff(con: Con, supply: Supply)
    requires con.link.Up? && con.phase.Idle?
    ensures var d := SendNext(con, supply);
            && (d.phase.SendingArticle? <==>
                  !supply.pausedBefore && !supply.pausedAfter && (con.current.Some? || supply.next.Some?))
            && (d.link.Closing? <==>
                  !supply.pausedBefore && !supply.pausedAfter && con.current.None? && supply.next.None?)
            && (con.current.Some? ==> d.current == con.current && d.log == con.log)
            && (con.current.None? && !supply.pausedBefore ==> d.current == supply.next)
            && (supply.pausedBefore ==> d == con)
  {
  }

  /** A lost transport counts against the connection exactly when it is to be used again. */
  lemma LossCountsIff(s: Settings, con: Con, posting: bool, paused: bool)
    requires Sane(con) && con.IsConnected()
    ensures var d := Handle(s, con, Dropped(posting, paused));
            && d.link.Down?
            && d.nbDisconnected == con.nbDisconnected
               + if posting && !paused && con.phase != NoMoreFiles && !con.authRejected then 1 else 0
  {
  }

  /** A connection opens a transport exactly when it has none, the post is not paused and
      the VPN does not refuse; it can log in once that is connected, and encrypted if it is
      to be. A new transport forgets that the login was rejected before. */
  lemma OpensIff(s: Settings, con: Con, paused: bool, refused: bool, tls: bool)
    requires Inv(con)
    ensures var d := Handle(s, con, Start(paused, refused));
            && (d.link.Connecting? <==> con.link.Connecting? || (con.link.Down? && !paused && !refused))
            && (con.link.Down? && !paused ==> !d.authRejected) && d.current == con.current && d.log == con.log
    ensures con.link.Connecting? ==>
              var d := Handle(s, con, Opened(tls));
              d.link.Up? && d.handshaking == tls && (!tls ==> d.phase.Connected?) && d.current == con.current
    ensures con.link.Up? && con.handshaking ==>
              var d := Handle(s, con, Encrypted); d.phase.Connected? && !d.handshaking && d.link.Up?
  {
  }

  /** A line nobody asked for is ignored. */
  lemma UnaskedLineIsIgnored(s: Settings, con: Con, code: nat, supply: Supply)
    requires Inv(con) && (con.phase.Idle? || con.phase.NotConnected? || con.phase.NoMoreFiles?)
    ensures Handle(s, con, Line(code, supply)) == con
  {
  }
}
