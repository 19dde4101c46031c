/** The connection object: its handlers, as they run, against `CheckRun.Handle`
    (src/NntpCheckCon.cpp). The socket is reduced to the state of the link. */
module NntpCheckConnection {
  import opened Options
  import opened NzbFacts
  import opened CheckState
  import opened NzbChecking
  import opened CheckRun

  /** STAT with this id, or nothing when the id is malformed. */
  function StatCommand(article: ArticleId): (command: Option<string>)
    ensures command.None? <==> !IsValidMessageId(article)
  {
    if IsValidMessageId(article) then Some("STAT " + article + "\r\n") else None
  }

  /** The id is a body of visible characters between angle brackets, of 250 characters at
      most, as section 3.6 of RFC 3977 has it. */
  ghost predicate IsBracketed(id: ArticleId) {
    exists body: string :: id == "<" + body + ">" && 1 <= |body| <= 248
                           && forall c | c in body :: '!' <= c <= '~' && c != '<' && c != '>'
  }

  /** The serialiser refuses exactly what is no such id; what it accepts becomes one command
      line, no longer than section 3.1 allows, that nothing in the id can break. */
  lemma StatIsOneCommand(id: ArticleId)
    ensures StatCommand(id).Some? <==> IsBracketed(id)
    ensures StatCommand(id).Some? ==>
              var command := StatCommand(id).value;
              && 7 < |command| <= 512 && command[|command| - 2..] == "\r\n"
              && (forall i | 0 <= i < |command| - 2 :: ' ' <= command[i] <= '~')
              && command[..5] == "STAT " && command[5..|command| - 2] == id
  {
    ValidIffBracketed(id);
  }

  lemma ValidIffBracketed(id: ArticleId)
    ensures IsValidMessageId(id) <==> IsBracketed(id)
  {
    if IsValidMessageId(id) {
      var body := id[1..|id| - 1];
      assert id == "<" + body + ">";
      assert forall c | c in body :: '!' <= c <= '~' && c != '<' && c != '>';
    }
    if IsBracketed(id) {
      var body: string :| id == "<" + body + ">" && 1 <= |body| <= 248
                          && forall c | c in body :: '!' <= c <= '~' && c != '<' && c != '>';
      assert forall i | 0 < i < |id| - 1 :: id[i] == body[i - 1] && body[i - 1] in body;
    }
  }

  lemma RefusingKeepsQueues(c: Check, article: ArticleId)
    requires OwnersInRange(c)
    ensures var d := CheckState.ArticleChecked(CheckState.MissingArticle(c, article), article);
            d.par2Queue == c.par2Queue && d.dataQueue == c.dataQueue
  {
  }

  class NntpCheckCon {
    const nzbCheck: NzbCheck
    const server: Server
    var link: Link
    var handshaking: bool
    var postingState: Phase
    var currentArticle: Option<ArticleId>
    var nbRetries: nat
    var nbPar2Waits: nat
    var pendingPolls: nat
    var watchdogArmed: bool

    function View(): Con
      reads this
    {
      Con(link, handshaking, postingState, currentArticle, nbRetries, nbPar2Waits, pendingPolls, watchdogArmed)
    }

    constructor (nzbCheck: NzbCheck, server: Server)
      ensures View() == FRESH && this.nzbCheck == nzbCheck && this.server == server
    {
      this.nzbCheck, this.server := nzbCheck, server;
      link, handshaking, postingState, currentArticle := Starting, false, NotConnected, None;
      nbRetries, nbPar2Waits, pendingPolls, watchdogArmed := 0, 0, 0, false;
    }

    /** Every command written is waited for with a deadline. */
    method Send()
      modifies this`watchdogArmed
      ensures View() == old(View()).(watchdog := old(watchdogArmed) || old(View()).HasSocket())
    {
      if link.Connecting? || link.Up? || link.Closing? {
        watchdogArmed := true;
      }
    }

    method FinishOrRetry()
      requires nzbCheck.Valid()
      modifies this, nzbCheck`par2Queue, nzbCheck`dataQueue
      ensures nzbCheck.Valid()
      ensures (nzbCheck.View(), View()) == CheckRun.FinishOrRetry(server, old(nzbCheck.View()), old(View()))
    {
      if currentArticle.Some? {
        nzbCheck.RequeueArticle(currentArticle.value);
        currentArticle := None;
      }
      handshaking := false;
      if !nzbCheck.earlyStop && (nzbCheck.par2Queue != [] || nzbCheck.dataQueue != []) && nbRetries < server.maxRetries {
        nbRetries := nbRetries + 1;
        postingState := NotConnected;
        link := Starting;
      } else {
        link := Finished;
      }
    }

    method CloseConnection()
      requires nzbCheck.Valid()
      modifies this, nzbCheck`par2Queue, nzbCheck`dataQueue
      ensures nzbCheck.Valid()
      ensures (nzbCheck.View(), View()) == CheckRun.CloseConnection(server, old(nzbCheck.View()), old(View()))
    {
      if link.Up? || link.Closing? {
        link := Closing;
      } else {
        FinishOrRetry();
      }
    }

    /** The loop that looks for an article whose command the serialiser accepts. */
    method TakeArticle()
      requires nzbCheck.Valid()
      modifies this`currentArticle, nzbCheck
      ensures nzbCheck.Valid()
      ensures View() == old(View()).(current := currentArticle)
      ensures OwnersInRange(old(nzbCheck.View()))
      ensures match currentArticle
              case None =>
                CheckNext(server, old(nzbCheck.View()), old(View()))
                == CheckRun.WaitOrClose(server, nzbCheck.View(), View())
              case Some(article) =>
                CheckNext(server, old(nzbCheck.View()), old(View()))
                == (nzbCheck.View(), View().(phase := CheckingArticle, waits := 0,
                                             watchdog := watchdogArmed || View().HasSocket()))
    {
      hide IsValidMessageId, CheckState.ArticleChecked, CheckState.MissingArticle, OwnersInRange, NextArticle, CheckRun.WaitOrClose;
      ghost var start := CheckNext(server, nzbCheck.View(), View());
      while true
        invariant nzbCheck.Valid()
        invariant View() == old(View()).(current := currentArticle)
        invariant CheckNext(server, nzbCheck.View(), View()) == start
        decreases |nzbCheck.par2Queue| + |nzbCheck.dataQueue|
      {
        NextShrinks(nzbCheck.View());
        currentArticle := nzbCheck.GetNextArticle();
        if currentArticle.None? {
          break;
        }
        var command := StatCommand(currentArticle.value);
        if command.Some? {
          break;
        }
        RefusingKeepsQueues(nzbCheck.View(), currentArticle.value);
        nzbCheck.MissingArticle(currentArticle.value);
        nzbCheck.ArticleChecked(currentArticle.value);
        currentArticle := None;
      }
    }

    method CheckNextArticle()
      requires nzbCheck.Valid()
      modifies this, nzbCheck
      ensures nzbCheck.Valid() && OwnersInRange(old(nzbCheck.View()))
      ensures (nzbCheck.View(), View()) == CheckNext(server, old(nzbCheck.View()), old(View()))
    {
      hide CheckNext, OwnersInRange, NextArticle, CheckRun.FinishOrRetry, CheckRun.CloseConnection;
      TakeArticle();
      if currentArticle.Some? {
        postingState := CheckingArticle;
        nbPar2Waits := 0;
        Send();
        return;
      }
      if !nzbCheck.earlyStop && !nzbCheck.par2PhaseDone && nzbCheck.dataQueue != [] {
        var waits := nbPar2Waits;
        nbPar2Waits := (waits + 1) % WAITS_WRAP;
        if waits < server.waitBound {
          watchdogArmed := false;
          pendingPolls := pendingPolls + 1;
          return;
        }
      }
      watchdogArmed := false;
      postingState := Idle;
      CloseConnection();
    }

    // ---- Handlers ----

    method OnStartConnection(refused: bool)
      requires nzbCheck.Valid() && link.Starting?
      modifies this`link, this`watchdogArmed
      ensures OwnersInRange(old(nzbCheck.View()))
      ensures (nzbCheck.View(), View()) == Handle(server, old(nzbCheck.View()), old(View()), Start(refused))
    {
      if refused {
        link := Finished;
        return;
      }
      link := Connecting;
      watchdogArmed := true;
    }

    method OnDisconnected()
      requires nzbCheck.Valid() && View().IsConnected()
      modifies this, nzbCheck`par2Queue, nzbCheck`dataQueue
      ensures nzbCheck.Valid() && OwnersInRange(old(nzbCheck.View()))
      ensures (nzbCheck.View(), View()) == Handle(server, old(nzbCheck.View()), old(View()), Dropped)
    {
      watchdogArmed := false;
      FinishOrRetry();
    }

    method OnWatchdogTimeout()
      requires nzbCheck.Valid() && watchdogArmed && !link.Starting?
      modifies this, nzbCheck`par2Queue, nzbCheck`dataQueue
      ensures nzbCheck.Valid() && OwnersInRange(old(nzbCheck.View()))
      ensures (nzbCheck.View(), View()) == Handle(server, old(nzbCheck.View()), old(View()), WatchdogFired)
    {
      watchdogArmed := false;
      if link.Up? || link.Closing? {
        // Aborting a connected socket reports the disconnection at once.
        OnDisconnected();
      } else {
        FinishOrRetry();
      }
    }

    method OnErrors()
      requires nzbCheck.Valid() && View().HasSocket()
      modifies this, nzbCheck`par2Queue, nzbCheck`dataQueue
      ensures nzbCheck.Valid() && OwnersInRange(old(nzbCheck.View()))
      ensures (nzbCheck.View(), View()) == Handle(server, old(nzbCheck.View()), old(View()), SocketFailed)
    {
      CloseConnection();
    }

    method OnPoll()
      requires nzbCheck.Valid() && pendingPolls > 0
      modifies this, nzbCheck
      ensures nzbCheck.Valid() && OwnersInRange(old(nzbCheck.View()))
      ensures (nzbCheck.View(), View()) == Handle(server, old(nzbCheck.View()), old(View()), Poll)
    {
      hide CheckNext, OwnersInRange;
      pendingPolls := pendingPolls - 1;
      CheckNextArticle();
    }

    /** A null article, which only a stray timer can leave here, is one of no file. */
    method OnReply(code: nat)
      requires nzbCheck.Valid() && postingState.CheckingArticle?
      modifies this, nzbCheck
      ensures nzbCheck.Valid() && OwnersInRange(old(nzbCheck.View()))
      ensures (nzbCheck.View(), View())
           == TakeReply(server, old(nzbCheck.View()), old(View()),
                        if old(currentArticle).Some? then old(currentArticle).value else "", code == 430)
    {
      hide CheckNext, OwnersInRange, CheckState.ArticleChecked, CheckState.MissingArticle;
      var article := if currentArticle.Some? then currentArticle.value else "";
      if code == 430 {
        nzbCheck.MissingArticle(article);
      }
      nzbCheck.ArticleChecked(article);
      currentArticle := None;
      nbRetries := 0;
      postingState := Idle;
      CheckNextArticle();
    }

    /** One reply line. */
    method OnLine(code: nat)
      requires nzbCheck.Valid() && View().IsConnected() && !handshaking
      modifies this, nzbCheck
      ensures nzbCheck.Valid() && OwnersInRange(old(nzbCheck.View()))
      ensures (nzbCheck.View(), View()) == Handle(server, old(nzbCheck.View()), old(View()), Line(code))
    {
      hide CheckNext, OwnersInRange, TakeReply;
      watchdogArmed := false;
      match postingState
      case CheckingArticle =>
        OnReply(code);
      case Connected =>
        if code != 200 {
          CloseConnection();
        } else if !server.hasUser {
          postingState := Idle;
          CheckNextArticle();
        } else {
          postingState := AuthUser;
          if !server.userSendable {
            CloseConnection();
            return;
          }
          Send();
        }
      case AuthUser =>
        if code / 10 != 38 {
          CloseConnection();
        } else {
          postingState := AuthPass;
          if !server.passSendable {
            CloseConnection();
            return;
          }
          Send();
        }
      case AuthPass =>
        if code / 10 != 28 {
          CloseConnection();
        } else {
          postingState := Idle;
          CheckNextArticle();
        }
      case _ =>
    }
  }
}
