/** The posting connection object, against `Posting.Handle` (src/NntpConnection.cpp).
    `log` is ghost: it records what the connection did. */
module NntpPostingConnection {
  import opened Options
  import opened Posting

  class NntpConnection {
    const settings: Settings
    var link: Link
    var handshaking: bool
    var postingState: Phase
    var currentArticle: Option<Article>
    var currentArticlePreserved: bool
    var nbDisconnected: nat
    var authRejected: bool
    ghost var log: Log

    ghost function View(): Con
      reads this
    {
      Con(link, handshaking, postingState, currentArticle, currentArticlePreserved, nbDisconnected, authRejected, log)
    }

    constructor (settings: Settings)
      ensures View() == FRESH && this.settings == settings
    {
      this.settings := settings;
      link, handshaking, postingState, currentArticle := Down, false, NotConnected, None;
      currentArticlePreserved, nbDisconnected, authRejected, log := false, 0, false, Empty;
    }

    method PreserveCurrentArticle()
      modifies this`currentArticle, this`currentArticlePreserved, this`log
      ensures View() == Preserve(old(View()))
    {
      if currentArticle.None? || currentArticlePreserved {
        return;
      }
      var article := currentArticle.value;
      log := Then(log, Unknown(article.key, article.msgId));
      currentArticlePreserved := true;
      currentArticle := Some(article.(uuid := article.uuid + 1, msgId := None));
    }

    method CloseConnection()
      modifies this
      ensures View() == Posting.CloseConnection(old(View()))
    {
      if link.Up? || link.Closing? {
        link := Closing;
      } else {
        link, handshaking := Down, false;
        PreserveCurrentArticle();
      }
    }

    method OnDisconnected(posting: bool, paused: bool)
      modifies this
      ensures View() == LoseTransport(settings, old(View()), posting, paused)
    {
      link, handshaking := Down, false;
      if posting && !paused && postingState != NoMoreFiles && !authRejected {
        nbDisconnected := nbDisconnected + 1;
      }
      PreserveCurrentArticle();
    }

    method OnErrors(posting: bool, paused: bool)
      requires Sane(View()) && (link.Up? || link.Connecting?)
      modifies this
      ensures View() == Handle(settings, old(View()), TransportFailed(posting, paused))
    {
      if link.Up? {
        OnDisconnected(posting, paused);
      } else {
        CloseConnection();
      }
    }

    method OnKillConnection()
      requires Sane(View())
      modifies this
      ensures View() == Handle(settings, old(View()), Kill)
    {
      link, handshaking := Down, false;
      PreserveCurrentArticle();
    }

    method SendNextArticle(supply: Supply)
      modifies this
      ensures View() == SendNext(old(View()), supply)
    {
      if supply.pausedBefore {
        return;
      }
      if currentArticle.None? {
        currentArticle := supply.next;
        currentArticlePreserved := false;
        if currentArticle.Some? {
          log := Then(log, Took(currentArticle.value.key));
        }
      }
      if supply.pausedAfter {
        return;
      }
      if currentArticle.Some? {
        postingState := SendingArticle;
      } else {
        postingState := NoMoreFiles;
        CloseConnection();
      }
    }

    method HandlePostResponse(code: nat)
      requires currentArticle.Some?
      modifies this
      ensures View() == PostReply(old(View()), code)
    {
      if code == 340 {
        postingState := WaitingAnswer;
        currentArticlePreserved := false;
        var article := currentArticle.value;
        currentArticle := Some(article.(tries := article.tries + 1, msgId := Some(article.uuid)));
        log := Then(log, Wrote(article.key, article.uuid));
      } else {
        postingState := NotConnected;
        CloseConnection();
      }
    }

    method HandleArticleResponse(code: nat, supply: Supply)
      requires currentArticle.Some?
      modifies this
      ensures View() == ArticleReply(settings, old(View()), code, supply)
    {
      var article := currentArticle.value;
      log := Then(log, Replied(code));
      if code == 240 {
        postingState := Idle;
        log := Then(log, Posted(article.key));
      } else if article.tries < settings.maxTries {
        currentArticle := Some(article.(uuid := article.uuid + 1));
        postingState := SendingArticle;
      } else {
        postingState := Idle;
        log := Then(log, Failed(article.key));
      }
      if postingState == Idle {
        currentArticle := None;
        currentArticlePreserved := false;
        SendNextArticle(supply);
      }
    }

    method OnReadLine(code: nat, supply: Supply)
      requires Sane(View()) && (link.Up? || link.Closing?) && !handshaking
      modifies this
      ensures View() == Handle(settings, old(View()), Line(code, supply))
    {
      hide SendNext, Posting.CloseConnection, ArticleReply, PostReply;
      match postingState
      case SendingArticle => HandlePostResponse(code);
      case WaitingAnswer => HandleArticleResponse(code, supply);
      case Connected =>
        if code != 200 {
          CloseConnection();
        } else if !settings.hasUser {
          postingState := Idle;
          SendNextArticle(supply);
        } else {
          postingState := AuthUser;
          if !settings.userSendable {
            authRejected := true;
            CloseConnection();
          }
        }
      case AuthUser =>
        if code / 10 != 38 {
          authRejected := true;
          CloseConnection();
        } else {
          postingState := AuthPass;
          if !settings.passSendable {
            authRejected := true;
            CloseConnection();
          }
        }
      case AuthPass =>
        if code / 10 != 28 {
          authRejected := true;
          CloseConnection();
        } else {
          postingState := Idle;
          SendNextArticle(supply);
        }
      case _ =>
    }
  }
}
