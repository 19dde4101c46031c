/** The queue of article events in front of the history database
    (src/history/PostHistoryService.cpp): batches that fail are put back and tried again,
    and what must see them waits for them. */
module HistoryQueue {

  type Database = string

  datatype ArticleEvent = ArticleEvent(fileId: int, part: int, status: string)

  /** One call of the store: it applies the whole batch or nothing of it. */
  datatype Attempt = Applies | CannotOpen(busy: bool) | Fails(busy: bool)

  /** An event and the database that was in use when it was accepted, or applied. */
  datatype Record = Record(database: Database, event: ArticleEvent)

  /** An operation that flushes first, and what had been applied when it ran. */
  datatype Ran = Ran(operation: string, applied: seq<Record>, accepted: seq<Record>)

  /** `applied` is what the databases hold; `accepted` and `ran` record the history. */
  datatype Worker = Worker(
    database: Database, pending: seq<ArticleEvent>, batchSize: int, retrying: bool,
    applied: seq<Record>, accepted: seq<Record>, ran: seq<Ran>)

  datatype Request =
    | Enqueue(event: ArticleEvent, attempt: Attempt)
    | TimerFires(attempt: Attempt)
    | RetryFires(attempt: Attempt)
    | Operation(operation: string, attempts: seq<Attempt>)
    | Configure(database: Database, attempts: seq<Attempt>)
    | Adapt(batchSize: int)

  function Tagged(database: Database, events: seq<ArticleEvent>): (records: seq<Record>)
    ensures |records| == |events|
  {
    seq(|events|, i requires 0 <= i < |events| => Record(database, events[i]))
  }

  predicate IsBusy(a: Attempt) { !a.Applies? && a.busy }

  predicate IsValid(e: ArticleEvent) { e.fileId != 0 && e.part > 0 }

  /** flushArticleEventsOnce: the pending events, all or none of them. */
  function FlushOnce(w: Worker, a: Attempt): (Worker, bool) {
    if w.pending == [] then (w, true)
    else
      match a
      case Applies => (w.(pending := [], applied := w.applied + Tagged(w.database, w.pending)), true)
      case CannotOpen(_) => (w, false)
      case Fails(busy) => (w.(retrying := w.retrying || busy), false)
  }

  /** flushArticleEventsBlocking: goes on while the database is busy; `attempts` are those
      the waiting time leaves room for. */
  function FlushBlocking(w: Worker, attempts: seq<Attempt>): (Worker, bool)
    decreases |attempts|
  {
    if w.pending == [] then (w, true)
    else if attempts == [] then (w, false)
    else
      var (w, ok) := FlushOnce(w, attempts[0]);
      if ok || IsBusy(attempts[0]) then FlushBlocking(w, attempts[1..]) else (w, false)
  }

  function Next(w: Worker, r: Request): Worker {
    match r
    case Enqueue(event, attempt) =>
      if !IsValid(event) then w
      else
        var w := w.(pending := w.pending + [event], accepted := w.accepted + [Record(w.database, event)]);
        if |w.pending| >= w.batchSize && !w.retrying then FlushOnce(w, attempt).0 else w
    case TimerFires(attempt) => FlushOnce(w, attempt).0
    case RetryFires(attempt) => FlushOnce(w.(retrying := false), attempt).0
    case Operation(operation, attempts) =>
      var (w, ok) := FlushBlocking(w, attempts);
      if ok then w.(ran := w.ran + [Ran(operation, w.applied, w.accepted)]) else w
    case Configure(database, attempts) =>
      var (w, ok) := FlushBlocking(w, attempts);
      if ok then w.(database := database) else w
    case Adapt(batchSize) => w.(batchSize := batchSize)
  }

  function After(w: Worker, requests: seq<Request>): Worker {
    if requests == [] then w else Next(After(w, requests[..|requests| - 1]), requests[|requests| - 1])
  }

  // ---- What every run keeps ----

  /** What is applied, followed by what is pending, is what was accepted: each event once,
      in order, and for the database it was accepted for. */
  predicate Conserved(w: Worker) {
    w.applied + Tagged(w.database, w.pending) == w.accepted
  }

  /** An operation that flushes first saw every event accepted before it. */
  predicate SawEverything(w: Worker) {
    forall i | 0 <= i < |w.ran| :: w.ran[i].applied == w.ran[i].accepted
  }

  lemma FlushKeeps(w: Worker, a: Attempt)
    requires Conserved(w)
    ensures var (v, ok) := FlushOnce(w, a);
            && Conserved(v) && v.accepted == w.accepted && v.ran == w.ran && v.database == w.database
            && (ok <==> v.pending == []) && |v.applied| >= |w.applied|
  {
  }

  lemma {:induction false} BlockingKeeps(w: Worker, attempts: seq<Attempt>)
    requires Conserved(w)
    ensures var (v, ok) := FlushBlocking(w, attempts);
            && Conserved(v) && v.accepted == w.accepted && v.ran == w.ran && v.database == w.database
            && (ok <==> v.pending == [])
    decreases |attempts|
  {
    hide Conserved;
    if w.pending != [] && attempts != [] {
      FlushKeeps(w, attempts[0]);
      var (v, ok) := FlushOnce(w, attempts[0]);
      BlockingKeeps(v, attempts[1..]);
    }
  }

  lemma {:induction false} FlushingDrains(w: Worker, attempts: seq<Attempt>)
    ensures FlushBlocking(w, attempts).1 ==> FlushBlocking(w, attempts).0.pending == []
    decreases |attempts|
  {
    if w.pending != [] && attempts != [] {
      FlushingDrains(FlushOnce(w, attempts[0]).0, attempts[1..]);
    }
  }

  lemma NothingPending(w: Worker)
    requires Conserved(w) && w.pending == []
    ensures w.applied == w.accepted
  {
  }

  lemma NextKeeps(w: Worker, r: Request)
    requires Conserved(w) && SawEverything(w)
    ensures Conserved(Next(w, r)) && SawEverything(Next(w, r))
  {
    match r
    case Enqueue(event, attempt) =>
      var v := w.(pending := w.pending + [event], accepted := w.accepted + [Record(w.database, event)]);
      assert Tagged(w.database, v.pending) == Tagged(w.database, w.pending) + [Record(w.database, event)];
      assert Conserved(v);
      FlushKeeps(v, attempt);
    case TimerFires(attempt) => FlushKeeps(w, attempt);
    case RetryFires(attempt) => FlushKeeps(w.(retrying := false), attempt);
    case Operation(operation, attempts) =>
      BlockingKeeps(w, attempts);
      var (v, ok) := FlushBlocking(w, attempts);
      if ok {
        NothingPending(v);
      }
    case Configure(database, attempts) =>
      BlockingKeeps(w, attempts);
      var (v, ok) := FlushBlocking(w, attempts);
      if ok {
        assert Tagged(database, []) == Tagged(w.database, []) == [];
      }
    case Adapt(_) =>
  }

  /** Through any failures, retries and reconfigurations: exactly once, in order, in the
      right database; and whoever had to wait for the events saw them all. */
  lemma {:induction false} ExactlyOnceInOrder(w: Worker, requests: seq<Request>)
    requires Conserved(w) && SawEverything(w)
    ensures Conserved(After(w, requests)) && SawEverything(After(w, requests))
    ensures forall i | 0 <= i < |After(w, requests).applied| ::
              i < |After(w, requests).accepted| && After(w, requests).applied[i] == After(w, requests).accepted[i]
  {
    if requests != [] {
      ExactlyOnceInOrder(w, requests[..|requests| - 1]);
      hide Next, SawEverything, Conserved;
      NextKeeps(After(w, requests[..|requests| - 1]), requests[|requests| - 1]);
    }
    AppliedIsPrefix(After(w, requests));
  }

  lemma AppliedIsPrefix(w: Worker)
    requires Conserved(w)
    ensures forall i | 0 <= i < |w.applied| :: i < |w.accepted| && w.applied[i] == w.accepted[i]
  {
  }

  // ---- What is accepted, and when it is applied ----

  /** The events of these requests that name a file and a part, each for the database that
      was configured when it came. */
  function Offered(w: Worker, requests: seq<Request>): seq<Record> {
    if requests == [] then [] else
      var init, last := requests[..|requests| - 1], requests[|requests| - 1];
      Offered(w, init)
      + (if last.Enqueue? && last.event.fileId != 0 && last.event.part >= 1
         then [Record(After(w, init).database, last.event)] else [])
  }

  /** No event of a known file and part is refused, and no other is taken in. */
  lemma {:induction false} AcceptsWhatIsOffered(w: Worker, requests: seq<Request>)
    ensures After(w, requests).accepted == w.accepted + Offered(w, requests)
  {
    if requests != [] {
      var init, last := requests[..|requests| - 1], requests[|requests| - 1];
      AcceptsWhatIsOffered(w, init);
      StepAccepts(After(w, init), last);
      assert w.accepted + [] == w.accepted;
    } else {
      assert w.accepted + [] == w.accepted;
    }
  }

  lemma StepAccepts(w: Worker, r: Request)
    ensures Next(w, r).accepted == w.accepted
         + if r.Enqueue? && r.event.fileId != 0 && r.event.part >= 1 then [Record(w.database, r.event)] else []
  {
    match r
    case Operation(_, attempts) => BlockingAccepts(w, attempts);
    case Configure(_, attempts) => BlockingAccepts(w, attempts);
    case _ =>
  }

  lemma {:induction false} BlockingAccepts(w: Worker, attempts: seq<Attempt>)
    ensures FlushBlocking(w, attempts).0.accepted == w.accepted
    decreases |attempts|
  {
    if w.pending != [] && attempts != [] {
      BlockingAccepts(FlushOnce(w, attempts[0]).0, attempts[1..]);
    }
  }

  /** Whenever a flush is tried and the store applies it, nothing is left pending: at the
      timer, at a retry, and as soon as a batch is full, unless a retry is due anyway. */
  lemma FlushesIff(w: Worker, r: Request)
    requires r.TimerFires? || r.RetryFires? || (r.Enqueue? && IsValid(r.event))
    ensures r.attempt.Applies? ==>
              (Next(w, r).pending == [] <==>
                 !r.Enqueue? || (|w.pending| + 1 >= w.batchSize && !w.retrying))
    ensures !r.attempt.Applies? ==>
              Next(w, r).pending == w.pending + if r.Enqueue? then [r.event] else []
    ensures !r.attempt.Applies? ==> Next(w, r).applied == w.applied
  {
  }

  /** A retry is due exactly after a batch failed because the database was busy, until it
      fires. */
  lemma RetryIsDueIff(w: Worker, a: Attempt)
    requires w.pending != []
    ensures Next(w, TimerFires(a)).retrying <==> w.retrying || (a.Fails? && a.busy)
    ensures Next(w, RetryFires(a)).retrying <==> a.Fails? && a.busy
  {
  }

  /** An operation that flushes first runs, and a new database is taken, exactly when the
      attempts that the waiting time leaves room for get everything applied: at the first
      one that applies, if the database was busy at each one before. */
  lemma {:induction false} BlockingSucceedsIff(w: Worker, attempts: seq<Attempt>)
    ensures FlushBlocking(w, attempts).1 <==>
              w.pending == [] || exists n :: 0 <= n < |attempts| && attempts[n].Applies? && forall k | 0 <= k < n :: IsBusy(attempts[k])
    decreases |attempts|
  {
    if w.pending != [] && attempts != [] {
      var v := FlushOnce(w, attempts[0]).0;
      BlockingSucceedsIff(v, attempts[1..]);
      if attempts[0].Applies? {
        assert v.pending == [];
      } else {
        if n :| 0 <= n < |attempts| && attempts[n].Applies? && forall k | 0 <= k < n :: IsBusy(attempts[k]) {
          assert attempts[1..][n - 1].Applies? && forall k | 0 <= k < n - 1 :: IsBusy(attempts[1..][k]);
        }
        if n :| 0 <= n < |attempts[1..]| && attempts[1..][n].Applies? && forall k | 0 <= k < n :: IsBusy(attempts[1..][k]) {
          assert attempts[n + 1].Applies?;
          assert IsBusy(attempts[0]) ==> forall k | 0 <= k < n + 1 :: IsBusy(attempts[k]);
        }
      }
    }
  }

  lemma OperationRunsIff(w: Worker, operation: string, attempts: seq<Attempt>)
    ensures var ok := FlushBlocking(w, attempts).1;
            && (|Next(w, Operation(operation, attempts)).ran| == |w.ran| + 1 <==> ok)
            && (ok ==> Next(w, Operation(operation, attempts)).ran[|w.ran|].operation == operation)
            && forall database :: Next(w, Configure(database, attempts)).database == if ok then database else w.database
  {
    BlockingRuns(w, attempts);
  }

  lemma {:induction false} BlockingRuns(w: Worker, attempts: seq<Attempt>)
    ensures var v := FlushBlocking(w, attempts).0; v.ran == w.ran && v.database == w.database
    decreases |attempts|
  {
    if w.pending != [] && attempts != [] {
      BlockingRuns(FlushOnce(w, attempts[0]).0, attempts[1..]);
    }
  }

  /** A batch is as large as was asked for last. */
  function Adapted(w: Worker, requests: seq<Request>): int {
    if requests == [] then w.batchSize
    else if requests[|requests| - 1].Adapt? then requests[|requests| - 1].batchSize
    else Adapted(w, requests[..|requests| - 1])
  }

  lemma {:induction false} BatchSizeIsTheLatest(w: Worker, requests: seq<Request>)
    ensures After(w, requests).batchSize == Adapted(w, requests)
  {
    if requests != [] {
      var init, last := requests[..|requests| - 1], requests[|requests| - 1];
      BatchSizeIsTheLatest(w, init);
      match last {
        case Operation(_, attempts) => BlockingSize(After(w, init), attempts);
        case Configure(_, attempts) => BlockingSize(After(w, init), attempts);
        case _ =>
      }
    }
  }

  lemma {:induction false} BlockingSize(w: Worker, attempts: seq<Attempt>)
    ensures FlushBlocking(w, attempts).0.batchSize == w.batchSize
    decreases |attempts|
  {
    if w.pending != [] && attempts != [] {
      BlockingSize(FlushOnce(w, attempts[0]).0, attempts[1..]);
    }
  }

  // ---- The worker ----

  class PostHistoryWorker {
    var database: Database
    var articleEvents: seq<ArticleEvent>
    var batchSize: int
    var retryTimer: bool
    var applied: seq<Record>
    ghost var accepted: seq<Record>
    ghost var ran: seq<Ran>

    ghost function View(): Worker
      reads this
    {
      Worker(database, articleEvents, batchSize, retryTimer, applied, accepted, ran)
    }

    constructor (database: Database, batchSize: int)
      ensures View() == Worker(database, [], batchSize, false, [], [], [])
    {
      this.database, this.batchSize := database, batchSize;
      articleEvents, retryTimer, applied, accepted, ran := [], false, [], [], [];
    }

    method FlushArticleEventsOnce(attempt: Attempt) returns (ok: bool)
      modifies this`articleEvents, this`applied, this`retryTimer
      ensures (View(), ok) == FlushOnce(old(View()), attempt)
    {
      if articleEvents == [] {
        return true;
      }
      if attempt.CannotOpen? {
        return false;
      }
      var batch := articleEvents;
      articleEvents := [];
      if attempt.Fails? {
        articleEvents := batch + articleEvents;
        assert articleEvents == batch;
        if attempt.busy {
          retryTimer := true;
        }
        return false;
      }
      applied := applied + Tagged(database, batch);
      return true;
    }

    method FlushArticleEventsBlocking(attempts: seq<Attempt>) returns (ok: bool)
      modifies this`articleEvents, this`applied, this`retryTimer
      ensures (View(), ok) == FlushBlocking(old(View()), attempts)
    {
      var i := 0;
      while articleEvents != []
        invariant 0 <= i <= |attempts|
        invariant FlushBlocking(View(), attempts[i..]) == FlushBlocking(old(View()), attempts)
        decreases |attempts| - i
      {
        if i == |attempts| {
          return false;
        }
        assert attempts[i..][1..] == attempts[i + 1..];
        var flushed := FlushArticleEventsOnce(attempts[i]);
        if !flushed && !IsBusy(attempts[i]) {
          return false;
        }
        i := i + 1;
      }
      ok := true;
    }

    method EnqueueArticleEvent(event: ArticleEvent, attempt: Attempt)
      modifies this
      ensures View() == Next(old(View()), Enqueue(event, attempt))
    {
      if event.fileId == 0 || event.part <= 0 {
        return;
      }
      articleEvents := articleEvents + [event];
      accepted := accepted + [Record(database, event)];
      if |articleEvents| >= batchSize && !retryTimer {
        var ok := FlushArticleEventsOnce(attempt);
      }
    }

    method Configure(newDatabase: Database, attempts: seq<Attempt>)
      modifies this
      ensures View() == Next(old(View()), Request.Configure(newDatabase, attempts))
    {
      var ok := FlushArticleEventsBlocking(attempts);
      if ok {
        database := newDatabase;
      }
    }

    method FlushThen(operation: string, attempts: seq<Attempt>) returns (runs: bool)
      modifies this
      ensures View() == Next(old(View()), Operation(operation, attempts))
      ensures runs ==> articleEvents == []
    {
      FlushingDrains(View(), attempts);
      runs := FlushArticleEventsBlocking(attempts);
      if runs {
        ran := ran + [Ran(operation, applied, accepted)];
      }
    }
  }
}
