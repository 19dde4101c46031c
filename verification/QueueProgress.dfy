/** The queue of posting jobs goes on: what a resume does, in which order jobs become
    active, and that the active one always has something left to happen to it
    (src/NgPost.cpp). `Scheduler` has the steps and their safety. */
module QueueProgress {
  import opened Options
  import opened Scheduler

  // ---- What one event leads to ----

  /** The head of the queue is now the active job: transferred at once if it was packed
      ahead and not cancelled, left to its packing if that is going on, and called to
      start otherwise. */
  ghost predicate HeadTakesOver(q: Queue, r: Queue) {
    q.pending != [] && q.pending[0] in q.jobs && q.pending[0] in r.jobs &&
    var head := q.pending[0];
    var job, now := q.jobs[head], r.jobs[head];
    && r.active == Some(head) && r.pending == q.pending[1..]
    && (if q.packing == Some(head) && job.packed then
          if job.cancel then now.ended else now.transfers == job.transfers + 1
        else if q.packing == Some(head) && job.hasPacking then now == job
        else now.called)
  }

  /** The head of the queue is packed ahead, and called to start packing if it needs it. */
  ghost predicate PacksAhead(q: Queue, r: Queue) {
    q.pending != [] && r.packing == Some(q.pending[0])
    && q.pending[0] in r.jobs && (r.jobs[q.pending[0]].hasPacking ==> r.jobs[q.pending[0]].called)
  }

  lemma StartsHead(q: Queue)
    requires Inv(q) && q.active.None? && q.pending != [] && !q.paused && !q.canceling
    ensures HeadTakesOver(q, StartNext(q, Proceed))
  {
    PackingIsHead(q);
    TailKeepsShape(q.pending);
    assert RoleOk(q, q.pending[0]);
  }

  /** A resume ends the pause of the queue, unless its active job stays paused: then exactly
      when that job only waits for the VPN from now on. With no job active the head of the
      queue takes over, if the VPN admits it; an active one that is packed, with nothing
      packed ahead, has the head packed ahead. While everything is being cancelled nothing
      changes. */
  lemma ResumeGoesOn(q: Queue, activeResumes: bool, waitsForVpn: bool, admission: Admission)
    requires Inv(q)
    ensures var r := Next(q, Resume(activeResumes, waitsForVpn, admission));
            && (q.canceling ==> r == q)
            && (!q.canceling ==>
                  && (r.paused <==> q.paused && q.active.Some? && !activeResumes && !waitsForVpn)
                  && (q.active.None? && q.pending != [] && admission == Proceed ==> HeadTakesOver(q, r))
                  && (q.active.None? && (q.pending == [] || admission != Proceed) ==>
                        r.active.None? && r.pending == q.pending && r.jobs == q.jobs)
                  && (q.active.Some? ==> r.active == q.active && r.pending == q.pending)
                  && (q.active.Some? && activeResumes && q.jobs[q.active.value].packed ==>
                        q.packing.None? && q.pending != [] ==> PacksAhead(q, r)))
  {
    if !q.canceling && q.active.None? && q.pending != [] && admission == Proceed {
      FlagsKeep(q, false, false);
      ResumeStartsHead(q, activeResumes, waitsForVpn);
    }
  }

  lemma ResumeStartsHead(q: Queue, activeResumes: bool, waitsForVpn: bool)
    requires Inv(q) && Inv(q.(paused := false)) && q.active.None? && q.pending != [] && !q.canceling
    ensures HeadTakesOver(q, Resumed(q, activeResumes, waitsForVpn, Proceed))
    ensures !Resumed(q, activeResumes, waitsForVpn, Proceed).paused
  {
    var p := q.(paused := false);
    var r := StartNext(p, Proceed);
    StartsHead(p);
    TailKeepsShape(q.pending);
    hide Inv, StartNext;
    assert HeadTakesOver(q, r);
    assert !r.paused && !r.canceling by { StartKeepsFlags(p); }
    if r.packing.None? && r.jobs[r.active.value].packed {
      assert r.pending != [] ==> r.pending[0] in r.pending;
    }
  }

  lemma StartKeepsFlags(q: Queue)
    requires Known(q)
    ensures StartNext(q, Proceed).paused == q.paused && StartNext(q, Proceed).canceling == q.canceling
  {
  }

  /** The end of the active job lets the head of the queue take over, outside a pause and a
      cancellation, if the VPN admits it. */
  lemma FinishGoesOn(q: Queue, j: JobId)
    requires Inv(q) && j in q.jobs && q.jobs[j].finishing && q.active == Some(j)
    requires q.pending != [] && !q.paused && !q.canceling
    ensures HeadTakesOver(q, Next(q, FinishAnnounced(j, Proceed)))
  {
    var left := Set(q, j, q.jobs[j].(finishing := false)).(active := None);
    ToldKeeps(q, j);
    LeftKeeps(Set(q, j, q.jobs[j].(finishing := false)), j);
    StartsHead(left);
    hide Inv, StartNext;
    assert q.pending[0] in q.pending;
  }

  /** With nothing active, what the VPN held back starts as soon as it is connected. */
  lemma VpnLetsGo(q: Queue)
    requires Inv(q) && q.active.None? && q.pending != [] && !q.paused && !q.canceling
    ensures HeadTakesOver(q, Next(q, VpnConnected(Proceed)))
  {
    StartsHead(q);
  }

  /** A job that takes over without packing to do makes room at once: the next one is packed
      ahead. One that still has to pack lets nothing be packed beside it. */
  lemma TakingOverMakesRoom(q: Queue)
    requires Inv(q) && q.active.None? && |q.pending| > 1 && !q.paused && !q.canceling
    ensures var job, r := q.jobs[q.pending[0]], Next(q, VpnConnected(Proceed));
            if !job.hasPacking || (q.packing == Some(q.pending[0]) && job.packed)
            then PacksAhead(q.(pending := q.pending[1..]), r) else r.packing.None?
  {
    PackingIsHead(q);
    TailKeepsShape(q.pending);
    assert RoleOk(q, q.pending[0]);
    assert q.pending[1] in q.pending[1..];
  }

  /** Once the active job is packed and says so, the head of the queue is packed ahead. */
  lemma PackedMakesRoom(q: Queue, j: JobId)
    requires Inv(q) && j in q.jobs && q.jobs[j].announced && q.active == Some(j) && q.packing.None?
    requires q.pending != [] && !q.paused && !q.canceling
    ensures PacksAhead(q, Next(q, PackingAnnounced(j)))
  {
    assert q.pending[0] in q.pending;
  }

  /** So is the next one when the job packed ahead ends before its turn. */
  lemma EndedMakesRoom(q: Queue, j: JobId)
    requires Inv(q) && j in q.jobs && q.jobs[j].finishing && q.active != Some(j) && q.packing == Some(j)
    requires |q.pending| > 1 && !q.paused && !q.canceling
    ensures PacksAhead(q.(pending := q.pending[1..]), Next(q, FinishAnnounced(j, Proceed)))
    ensures Next(q, FinishAnnounced(j, Proceed)).pending == q.pending[1..]
  {
    assert q.pending[1] in q.pending;
  }

  /** A job that is submitted is started at once, exactly when nothing is active, the queue
      is not paused and the VPN admits it; otherwise it goes to the end of the queue, or is
      turned away: while everything is being cancelled, or blocked without a window. */
  lemma SubmitIff(q: Queue, j: JobId, hasPacking: bool, admission: Admission)
    requires Inv(q) && j !in q.jobs
    ensures var r := Next(q, Submit(j, hasPacking, admission));
            && (j !in r.jobs <==> q.canceling || admission == Refused)
            && (j !in r.jobs ==> r == q)
            && (r.active == Some(j) <==>
                  q.active.None? && !q.paused && !q.canceling && admission == Proceed)
            && (r.active == Some(j) ==> r.jobs[j].called && r.pending == q.pending)
            && (j in r.jobs && r.active != Some(j) ==> r.pending == q.pending + [j] && r.active == q.active)
            && (j in r.jobs ==> r.jobs[j].hasPacking == hasPacking)
            && (q.active.Some? && q.jobs[q.active.value].packed && q.packing.None? ==>
                  !q.paused && !q.canceling && admission == Proceed ==> PacksAhead(q.(pending := q.pending + [j]), r))
  {
    assert q.active != Some(j);
  }

  /** A pause and a cancellation take effect exactly while there is something to pause or
      cancel and no cancellation is going on; a cancellation ends the pause. */
  lemma FlagsIff(q: Queue)
    requires Inv(q)
    ensures var busy := q.active.Some? || q.pending != [];
            && Next(q, Pause) == q.(paused := q.paused || (busy && !q.canceling))
            && Next(q, CancelAll).canceling == (q.canceling || busy)
            && (busy && !q.canceling ==> !Next(q, CancelAll).paused)
  {
  }

  /** With the last job gone, the pause and the cancellation are over; as long as one waits
      or posts, the end of a job changes neither. */
  lemma LastEndsBoth(q: Queue, j: JobId, admission: Admission)
    requires Inv(q) && j in q.jobs && q.jobs[j].finishing
    ensures var r := Next(q, FinishAnnounced(j, admission));
            var gone := r.active.None? && r.pending == [];
            && r.paused == (q.paused && !gone) && r.canceling == (q.canceling && !gone)
            && (gone <==> (q.active.None? || q.active == Some(j)) && forall k | k in q.pending :: k == j)
  {
    hide StartNext, PrepareNext, Without, RoleOk;
    var told := Set(q, j, q.jobs[j].(finishing := false));
    WithoutIsPart(q.pending, j);
    OnlyOneLeft(q.pending, j);
    if told.active == Some(j) {
      StartEmptiesIff(told.(active := None), admission);
    } else if told.packing == Some(j) && told.pending != [] {
      PrepareFlags(told.(packing := None, pending := told.pending[1..]));
    }
  }

  /** Taking a job out empties the queue exactly if no other waits. */
  lemma OnlyOneLeft(pending: seq<JobId>, j: JobId)
    requires NoDup(pending)
    ensures Without(pending, j) == [] <==> forall k | k in pending :: k == j
    ensures pending != [] && pending[0] == j ==> (pending[1..] == [] <==> forall k | k in pending :: k == j)
    ensures j !in pending ==> (pending == [] <==> forall k | k in pending :: k == j)
  {
    WithoutKeepsNoDup(pending, j);
    if Without(pending, j) != [] {
      assert Without(pending, j)[0] in Without(pending, j);
    }
    if pending != [] {
      TailKeepsShape(pending);
      assert pending[0] in pending;
      if |pending| > 1 {
        assert pending[1] in pending[1..];
      }
    }
  }

  lemma PrepareFlags(q: Queue)
    requires Known(q)
    ensures var r := PrepareNext(q);
            r.paused == q.paused && r.canceling == q.canceling && r.active == q.active && r.pending == q.pending
  {
  }

  lemma StartEmptiesIff(q: Queue, admission: Admission)
    requires Known(q) && q.active.None?
    ensures var r := StartNext(q, admission);
            && r.paused == q.paused && r.canceling == q.canceling
            && (r.active.None? && r.pending == [] <==> q.pending == [])
  {
  }

  /** The end of a job is reported. */
  predicate IsOver(job: Job) { job.ended && !job.process }

  /** A job that is called to start is over at once if it was cancelled or its checks fail;
      otherwise it is transferred, or packed first if it needs that. A job that was packed
      says so, and is transferred at once if it is the active one; cancelled or failed, it
      is over. A cancellation takes effect outside the packing itself. */
  lemma JobGoesOn(q: Queue, j: JobId, ok: bool)
    requires Inv(q) && j in q.jobs
    ensures var job := q.jobs[j];
            && (job.called ==>
                  var now := Next(q, StartRuns(j, ok)).jobs[j];
                  && !now.called
                  && (job.cancel || (job.hasPacking && !ok) ==> now.ended && now.transfers == job.transfers)
                  && (!job.cancel && !job.hasPacking ==> now.packed && now.transfers == job.transfers + 1)
                  && (!job.cancel && job.hasPacking && ok ==> now.process && now.ended == job.ended))
            && (job.process ==>
                  var now := Next(q, PackingEnds(j, ok)).jobs[j];
                  && !now.process && (job.cancel || !ok <==> !now.packed)
                  && (!now.packed ==> IsOver(now) && now.finishing)
                  && (now.packed ==> now.announced && now.transfers == job.transfers + if q.active == Some(j) then 1 else 0))
            && (job.transfers > 0 && !job.ended ==>
                  IsOver(Next(q, TransferEnds(j)).jobs[j].(process := false)) && Next(q, TransferEnds(j)).jobs[j].finishing)
            && Next(q, Cancel(j)).jobs[j] == job.(cancel := true)
            && (job.cancel ==> (Next(q, StopRuns(j)).jobs[j].ended <==> job.ended || !job.process))
  {
    assert RoleOk(q, j);
  }

  /** First come, first served: a job only becomes active as the head of the queue, or at
      its submission; and the order of those that wait is the order they came in. */
  lemma InOrder(q: Queue, e: Event)
    requires Inv(q)
    ensures var r := Next(q, e);
            && (r.active.Some? && r.active != q.active ==>
                  || (q.pending != [] && r.active == Some(q.pending[0]) && r.pending == q.pending[1..])
                  || (e.Submit? && r.active == Some(e.job) && r.pending == q.pending))
            && (|| r.pending == q.pending || (q.pending != [] && r.pending == q.pending[1..])
                || (e.Submit? && r.pending == q.pending + [e.job])
                || (e.FinishAnnounced? && r.pending == Without(q.pending, e.job)))
  {
    hide StartNext, PrepareNext, Without;
    if Enabled(q, e) {
      match e
      case FinishAnnounced(j, admission) => FinishInOrder(q, j, admission);
      case Resume(_, _, admission) =>
        StartNextInOrder(q.(paused := false), admission);
        PrepareInOrder(StartNext(q.(paused := false), admission));
      case VpnConnected(admission) => StartNextInOrder(q, admission);
      case Submit(j, hasPacking, _) => PrepareInOrder(Set(q, j, NewJob(hasPacking)).(pending := q.pending + [j]));
      case PackingAnnounced(j) => PackingDoneInOrder(q, j);
      case _ =>
    }
  }

  lemma PrepareInOrder(q: Queue)
    requires Known(q)
    ensures PrepareNext(q).active == q.active && PrepareNext(q).pending == q.pending
  {
  }

  lemma StartNextInOrder(q: Queue, admission: Admission)
    requires Known(q)
    ensures var r := StartNext(q, admission);
            || (r.active == q.active && r.pending == q.pending)
            || (q.active.None? && q.pending != [] && r.active == Some(q.pending[0]) && r.pending == q.pending[1..])
  {
  }

  lemma PackingDoneInOrder(q: Queue, j: JobId)
    requires Known(q) && j in q.jobs
    ensures var r := Scheduler.OnPackingDone(q, j); r.active == q.active && r.pending == q.pending
  {
    hide PrepareNext;
    var told := Set(q, j, q.jobs[j].(announced := false));
    PrepareInOrder(told);
    PrepareInOrder(Set(told, j, PostFiles(told.jobs[j])));
  }

  lemma FinishInOrder(q: Queue, j: JobId, admission: Admission)
    requires Inv(q) && j in q.jobs && q.jobs[j].finishing
    ensures var r := OnJobFinished(q, j, admission);
            && (r.active == q.active || r.active.None?
                || (q.pending != [] && r.active == Some(q.pending[0]) && r.pending == q.pending[1..]))
            && (r.pending == q.pending || (q.pending != [] && r.pending == q.pending[1..])
                || r.pending == Without(q.pending, j))
  {
    hide StartNext, PrepareNext, Without;
    var told := Set(q, j, q.jobs[j].(finishing := false));
    WithoutIsPart(q.pending, j);
    if told.active == Some(j) {
      StartNextInOrder(told.(active := None), admission);
    } else if told.packing == Some(j) && told.pending != [] {
      PrepareInOrder(told.(packing := None, pending := told.pending[1..]));
    }
  }

  // ---- The active job is never stuck ----

  /** Something is due that concerns this job: its start, its packing, its transfer, the
      announcement of its end, or a stop. */
  predicate IsDue(job: Job) {
    job.called || job.process || job.finishing || job.cancel || (job.transfers > 0 && !job.ended)
  }

  predicate IsIn(q: Queue, j: JobId) { q.active == Some(j) || j in q.pending }

  /** The end of a job that is still in the queue is announced; the active job has something
      due, and so does the one packed ahead until it is packed. */
  predicate Lives(q: Queue, j: JobId)
    requires j in q.jobs
  {
    var job := q.jobs[j];
    && (IsIn(q, j) && job.ended ==> job.finishing)
    && (q.active == Some(j) ==> IsDue(job))
    && (q.packing == Some(j) && job.hasPacking && !job.packed ==> IsDue(job))
  }

  ghost predicate AllLive(q: Queue) { forall j | j in q.jobs :: Lives(q, j) }

  lemma SetLives(q: Queue, j: JobId, job: Job)
    requires AllLive(q) && j in q.jobs && Lives(Set(q, j, job), j)
    ensures AllLive(Set(q, j, job))
  {
    var r := Set(q, j, job);
    forall k | k in r.jobs ensures Lives(r, k) {
      if k != j {
        assert Lives(q, k);
      }
    }
  }

  lemma PrepareLives(q: Queue)
    requires Inv(q) && AllLive(q) && q.packing.None?
    ensures AllLive(PrepareNext(q))
  {
    var r := PrepareNext(q);
    forall k | k in r.jobs ensures Lives(r, k) {
      assert Lives(q, k);
    }
  }

  lemma ActivateLives(q: Queue, job: Job)
    requires Inv(q) && AllLive(q) && q.active.None? && q.pending != []
    requires IsDue(job) && (job.ended ==> job.finishing)
    ensures AllLive(Activated(q, job))
  {
    var r := Activated(q, job);
    TailKeepsShape(q.pending);
    forall k | k in r.jobs ensures Lives(r, k) {
      if k != q.pending[0] {
        assert Lives(q, k);
      }
    }
  }

  lemma StartNextLives(q: Queue, admission: Admission)
    requires Inv(q) && AllLive(q)
    ensures AllLive(StartNext(q, admission))
  {
    if q.active.None? && !q.paused && !q.canceling && q.pending != [] && admission == Proceed {
      var j := q.pending[0];
      var job := q.jobs[j];
      assert RoleOk(q, j) && Lives(q, j) && IsIn(q, j);
      PackingIsHead(q);
      hide Inv, RoleOk, PrepareNext, AllLive;
      if q.packing == Some(j) && job.packed {
        ActivateKeeps(q, PostFiles(job));
        ActivateLives(q, PostFiles(job));
        PrepareLives(Activated(q, PostFiles(job)));
      } else if q.packing == Some(j) && job.hasPacking {
        ActivateLives(q, job);
        assert Set(q, j, job).jobs == q.jobs;
      } else {
        ActivateKeeps(q, job.(called := true));
        ActivateLives(q, job.(called := true));
        if !job.hasPacking {
          PrepareLives(Activated(q, job.(called := true)));
        }
      }
    }
  }

  lemma EnqueueLives(q: Queue, j: JobId, hasPacking: bool)
    requires Inv(q) && AllLive(q) && j !in q.jobs
    ensures AllLive(Set(q, j, NewJob(hasPacking)).(pending := q.pending + [j]))
    ensures q.active.None? ==> AllLive(Called(Set(q, j, NewJob(hasPacking)).(active := Some(j)), j))
  {
    var r := Set(q, j, NewJob(hasPacking)).(pending := q.pending + [j]);
    forall k | k in r.jobs ensures Lives(r, k) {
      if k != j {
        assert Lives(q, k);
      }
    }
    var a := Called(Set(q, j, NewJob(hasPacking)).(active := Some(j)), j);
    if q.active.None? {
      forall k | k in a.jobs ensures Lives(a, k) {
        if k != j {
          assert Lives(q, k);
        }
      }
    }
  }

  lemma SubmitLives(q: Queue, j: JobId, hasPacking: bool, admission: Admission)
    requires Inv(q) && AllLive(q) && j !in q.jobs
    ensures AllLive(Submitted(q, j, hasPacking, admission))
  {
    EnqueueKeeps(q, j, hasPacking);
    EnqueueLives(q, j, hasPacking);
    var queued := Set(q, j, NewJob(hasPacking)).(pending := q.pending + [j]);
    hide Inv, PrepareNext, AllLive;
    if queued.packing.None? {
      PrepareLives(queued);
    }
  }

  lemma LeftLives(q: Queue, j: JobId)
    requires Inv(q) && j in q.jobs && q.jobs[j].finishing && AllLive(q)
    ensures AllLive(Left(Set(q, j, q.jobs[j].(finishing := false)), j))
  {
    var told := Set(q, j, q.jobs[j].(finishing := false));
    var r := Left(told, j);
    WithoutKeepsNoDup(q.pending, j);
    if q.pending != [] {
      TailKeepsShape(q.pending);
    }
    hide Without;
    forall k | k in r.jobs ensures Lives(r, k) {
      assert Lives(q, k);
    }
  }

  lemma FinishLives(q: Queue, j: JobId, admission: Admission)
    requires Inv(q) && AllLive(q) && j in q.jobs && q.jobs[j].finishing
    ensures AllLive(OnJobFinished(q, j, admission))
  {
    var told := Set(q, j, q.jobs[j].(finishing := false));
    LeftLives(q, j);
    ToldKeeps(q, j);
    LeftKeeps(told, j);
    hide Inv, AllLive, RoleOk, StartNext, PrepareNext, Without;
    if told.active == Some(j) {
      StartNextLives(told.(active := None), admission);
      NotifiedLives(StartNext(told.(active := None), admission));
    } else if told.packing == Some(j) && told.pending != [] {
      PrepareLives(Left(told, j));
      NotifiedLives(PrepareNext(Left(told, j)));
    } else {
      NotifiedLives(Left(told, j));
    }
  }

  lemma FlagsLive(q: Queue, paused: bool, canceling: bool)
    requires AllLive(q)
    ensures AllLive(q.(paused := paused, canceling := canceling))
  {
    var r := q.(paused := paused, canceling := canceling);
    forall j | j in r.jobs ensures Lives(r, j) {
      assert Lives(q, j);
    }
  }

  lemma NotifiedLives(q: Queue)
    requires AllLive(q)
    ensures AllLive(Notified(q))
  {
    FlagsLive(q, false, false);
  }

  lemma PackingDoneLives(q: Queue, j: JobId)
    requires Inv(q) && AllLive(q) && j in q.jobs && q.jobs[j].announced
    ensures AllLive(OnPackingDone(q, j))
  {
    assert RoleOk(q, j) && Lives(q, j);
    var told := Set(q, j, q.jobs[j].(announced := false));
    SetKeeps(q, j, q.jobs[j].(announced := false));
    SetLives(q, j, q.jobs[j].(announced := false));
    if told.active == Some(j) && told.packing.None? {
      if told.jobs[j].transfers == 0 {
        SetKeeps(told, j, PostFiles(told.jobs[j]));
        SetLives(told, j, PostFiles(told.jobs[j]));
      }
      hide Inv, AllLive, PrepareNext;
      PrepareLives(if told.jobs[j].transfers == 0 then Set(told, j, PostFiles(told.jobs[j])) else told);
    }
  }

  lemma ResumeLives(q: Queue, activeResumes: bool, waitsForVpn: bool, admission: Admission)
    requires Inv(q) && AllLive(q)
    ensures AllLive(Resumed(q, activeResumes, waitsForVpn, admission))
  {
    hide AllLive, StartNext, PrepareNext, RoleOk;
    FlagsKeep(q, false, q.canceling);
    FlagsLive(q, false, q.canceling);
    StartNextKeeps(q.(paused := false), admission);
    StartNextLives(q.(paused := false), admission);
    var r := StartNext(q.(paused := false), admission);
    if r.packing.None? {
      PrepareLives(r);
    }
  }

  lemma NextLives(q: Queue, e: Event)
    requires Inv(q) && AllLive(q)
    ensures AllLive(Next(q, e))
  {
    hide StartNext, PrepareNext, Submitted, OnJobFinished, OnPackingDone, AllLive;
    if Enabled(q, e) {
      match e
      case Submit(j, hasPacking, admission) => SubmitLives(q, j, hasPacking, admission);
      case PackingAnnounced(j) => PackingDoneLives(q, j);
      case FinishAnnounced(j, admission) => FinishLives(q, j, admission);
      case Resume(activeResumes, waitsForVpn, admission) => ResumeLives(q, activeResumes, waitsForVpn, admission);
      case VpnConnected(admission) => StartNextLives(q, admission);
      case Pause => FlagsLive(q, true, q.canceling);
      case CancelAll => FlagsLive(q, false, true);
      case _ => OwnStepLives(q, e);
    }
  }

  /** A step of one job itself. */
  lemma OwnStepLives(q: Queue, e: Event)
    requires Inv(q) && AllLive(q) && Enabled(q, e)
    requires e.StartRuns? || e.PackingEnds? || e.TransferEnds? || e.Cancel? || e.StopRuns?
    ensures AllLive(Next(q, e))
  {
    assert RoleOk(q, e.job) && Lives(q, e.job);
    hide Inv, AllLive;
    SetLives(q, e.job, Next(q, e).jobs[e.job]);
  }

  lemma {:induction false} RunsLive(events: seq<Event>)
    ensures AllLive(After(events))
  {
    if events != [] {
      RunsLive(events[..|events| - 1]);
      hide AllLive, Next;
      NextLives(After(events[..|events| - 1]), events[|events| - 1]);
    }
  }

  /** The event that is due for a job. */
  function DueEvent(j: JobId, job: Job, admission: Admission): Event {
    if job.called then StartRuns(j, true)
    else if job.process then PackingEnds(j, true)
    else if job.finishing then FinishAnnounced(j, admission)
    else if job.transfers > 0 && !job.ended then TransferEnds(j)
    else StopRuns(j)
  }

  /** How much is left for a job to go through. */
  function LeftToDo(job: Job): nat {
    if job.called then 6
    else if job.process then 5
    else if !job.ended then 4
    else if job.finishing then 3
    else 0
  }

  /** The queue never stalls. On every run, whenever a job is active, an event is due that
      takes it further; and if the VPN always admits, one is active whenever one waits and
      the queue is neither paused nor being cancelled. */
  lemma NeverStalls(events: seq<Event>)
    ensures var q := After(events);
            q.active.Some? ==>
              var j := q.active.value;
              j in q.jobs &&
              var e := DueEvent(j, q.jobs[j], Proceed);
              && Enabled(q, e)
              && (Next(q, e).active != Some(j) || LeftToDo(Next(q, e).jobs[j]) < LeftToDo(q.jobs[j]))
    ensures (forall e | e in events :: Proceeds(e)) ==>
              var q := After(events);
              q.pending != [] && !q.paused && !q.canceling ==> q.active.Some?
  {
    var q := After(events);
    RunsLive(events);
    if q.active.Some? {
      DueIsProgress(q);
    }
    if forall e | e in events :: Proceeds(e) {
      RunsStaySingle(events);
    }
  }

  lemma DueIsProgress(q: Queue)
    requires Inv(q) && AllLive(q) && q.active.Some?
    ensures var j := q.active.value;
            var e := DueEvent(j, q.jobs[j], Proceed);
            && Enabled(q, e)
            && (Next(q, e).active != Some(j) || LeftToDo(Next(q, e).jobs[j]) < LeftToDo(q.jobs[j]))
  {
    var j := q.active.value;
    assert RoleOk(q, j) && Lives(q, j);
    if q.jobs[j].finishing && !q.jobs[j].called && !q.jobs[j].process {
      ToldKeeps(q, j);
      hide Inv, RoleOk, AllLive, PrepareNext;
      assert q.pending != [] ==> q.pending[0] != j by { NotWaiting(q); }
    }
  }

  lemma NotWaiting(q: Queue)
    requires Inv(q) && q.active.Some?
    ensures q.active.value !in q.pending
  {
  }
}
