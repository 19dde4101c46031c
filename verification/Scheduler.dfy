/** The queue of posting jobs (src/NgPost.cpp): one job posts, the next one may be packed
    ahead, the others wait. Everything runs on one thread; what a job reports reaches the
    queue later, as a queued signal. */
module Scheduler {
  import opened Options

  /** Refused is blocked with no window in which to put it right. */
  datatype Admission = Proceed | Wait | Blocked | Refused

  type JobId = nat

  /** `called`, `announced` and `finishing` are queued signals: startPosting, packingDone
      and postingFinished. `transfers` counts the times _postFiles went ahead. */
  datatype Job = Job(
    hasPacking: bool, packed: bool, process: bool, transfers: nat, cancel: bool, ended: bool,
    called: bool, announced: bool, finishing: bool)

  function NewJob(hasPacking: bool): Job {
    Job(hasPacking, false, false, 0, false, false, false, false, false)
  }

  datatype Queue = Queue(
    active: Option<JobId>, pending: seq<JobId>, packing: Option<JobId>, paused: bool, canceling: bool,
    jobs: map<JobId, Job>)

  datatype Event =
    | Submit(job: JobId, hasPacking: bool, admission: Admission)
    | StartRuns(job: JobId, ok: bool)
    | PackingEnds(job: JobId, ok: bool)
    | PackingAnnounced(job: JobId)
    | TransferEnds(job: JobId)
    | Cancel(job: JobId)
    | StopRuns(job: JobId)
    | FinishAnnounced(job: JobId, admission: Admission)
    | Pause
    | Resume(activeResumes: bool, waitsForVpn: bool, admission: Admission)
    | VpnConnected(admission: Admission)
    | CancelAll

  // ---- What a job does ----

  function Set(q: Queue, j: JobId, job: Job): Queue { q.(jobs := q.jobs[j := job]) }

  predicate Known(q: Queue) {
    && (q.active.Some? ==> q.active.value in q.jobs)
    && (q.packing.Some? ==> q.packing.value in q.jobs)
    && forall j | j in q.pending :: j in q.jobs
  }

  function Called(q: Queue, j: JobId): Queue
    requires j in q.jobs
  {
    Set(q, j, q.jobs[j].(called := true))
  }

  function Ended(job: Job): Job {
    if job.ended then job else job.(ended := true, finishing := true)
  }

  /** _postFiles: a cancelled job ends instead. */
  function PostFiles(job: Job): Job {
    if job.cancel then Ended(job) else job.(transfers := job.transfers + 1)
  }

  // ---- The queue ----

  function PrepareNext(q: Queue): (r: Queue)
    requires Known(q)
    ensures Known(r)
  {
    if q.paused || q.canceling || q.pending == [] then q else
      var head := q.pending[0];
      var q := q.(packing := Some(head));
      if q.jobs[head].hasPacking then Called(q, head) else q
  }

  function StartNext(q: Queue, admission: Admission): (r: Queue)
    requires Known(q)
    ensures Known(r)
  {
    if q.active.Some? || q.paused || q.canceling || q.pending == [] || admission != Proceed then q else
      var j := q.pending[0];
      var q := q.(active := Some(j), pending := q.pending[1..]);
      var job := q.jobs[j];
      if q.packing == Some(j) then
        var q := q.(packing := None);
        if job.packed then PrepareNext(Set(q, j, PostFiles(job)))
        else if !job.hasPacking then PrepareNext(Called(q, j))
        else q
      else if q.packing.None? then
        var q := Called(q, j);
        if job.hasPacking then q else PrepareNext(q)
      else
        // Logged as an error: "next active job different to the packing one".
        q
  }

  function Submitted(q: Queue, j: JobId, hasPacking: bool, admission: Admission): Queue
    requires Known(q) && j !in q.jobs
  {
    if q.canceling || admission == Refused then q else
      var q := Set(q, j, NewJob(hasPacking));
      if admission != Proceed then q.(pending := q.pending + [j])
      else if q.active.Some? || q.paused then
        var q := q.(pending := q.pending + [j]);
        if q.active.Some? && q.jobs[q.active.value].packed && q.packing.None? then PrepareNext(q) else q
      else
        Called(q.(active := Some(j)), j)
  }

  function OnPackingDone(q: Queue, j: JobId): Queue
    requires Known(q) && j in q.jobs
  {
    var q := Set(q, j, q.jobs[j].(announced := false));
    if q.active == Some(j) && q.packing.None? then
      PrepareNext(if q.jobs[j].transfers == 0 then Set(q, j, PostFiles(q.jobs[j])) else q)
    else
      q
  }

  function Without(pending: seq<JobId>, j: JobId): seq<JobId> {
    if pending == [] then [] else if pending[0] == j then pending[1..] else [pending[0]] + Without(pending[1..], j)
  }

  lemma {:induction false} WithoutIsPart(pending: seq<JobId>, j: JobId)
    ensures forall k | k in Without(pending, j) :: k in pending
  {
    if pending != [] && pending[0] != j {
      WithoutIsPart(pending[1..], j);
    }
  }

  /** Nothing left: the pause and the cancellation are over. */
  function Notified(q: Queue): Queue {
    if q.active.None? && q.pending == [] then q.(paused := false, canceling := false) else q
  }

  function OnJobFinished(q: Queue, j: JobId, admission: Admission): Queue
    requires Known(q) && j in q.jobs
  {
    var q := Set(q, j, q.jobs[j].(finishing := false));
    Notified(
      if q.active == Some(j) then StartNext(q.(active := None), admission)
      else if q.packing == Some(j) && q.pending != [] then
        PrepareNext(q.(packing := None, pending := q.pending[1..]))
      else
        WithoutIsPart(q.pending, j);
        q.(pending := Without(q.pending, j)))
  }

  function Resumed(q: Queue, activeResumes: bool, waitsForVpn: bool, admission: Admission): Queue
    requires Known(q)
  {
    if q.canceling then q
    else if q.active.Some? && !activeResumes then (if waitsForVpn then q.(paused := false) else q)
    else
      var q := StartNext(q.(paused := false), admission);
      if q.packing.None? && q.active.Some? && q.jobs[q.active.value].packed then PrepareNext(q) else q
  }

  predicate Enabled(q: Queue, e: Event) {
    match e
    case Submit(j, _, _) => j !in q.jobs
    case StartRuns(j, _) => j in q.jobs && q.jobs[j].called
    case PackingEnds(j, _) => j in q.jobs && q.jobs[j].process
    case PackingAnnounced(j) => j in q.jobs && q.jobs[j].announced
    case TransferEnds(j) => j in q.jobs && q.jobs[j].transfers > 0 && !q.jobs[j].ended
    case Cancel(j) => j in q.jobs
    case StopRuns(j) => j in q.jobs && q.jobs[j].cancel
    case FinishAnnounced(j, _) => j in q.jobs && q.jobs[j].finishing
    case _ => true
  }

  function Next(q: Queue, e: Event): Queue
    requires Known(q)
  {
    if !Enabled(q, e) then q else
      match e
      case Submit(j, hasPacking, admission) => Submitted(q, j, hasPacking, admission)
      case StartRuns(j, ok) => Set(q, j, Started(q.jobs[j], ok))
      case PackingEnds(j, ok) => Set(q, j, PackingEnded(q.jobs[j], ok, q.active == Some(j)))
      case PackingAnnounced(j) => OnPackingDone(q, j)
      case TransferEnds(j) => Set(q, j, Ended(q.jobs[j]))
      case Cancel(j) => Set(q, j, q.jobs[j].(cancel := true))
      case StopRuns(j) => Set(q, j, if q.jobs[j].process then q.jobs[j] else Ended(q.jobs[j]))
      case FinishAnnounced(j, admission) => OnJobFinished(q, j, admission)
      case Pause => if (q.active.None? && q.pending == []) || q.canceling then q else q.(paused := true)
      case Resume(activeResumes, waitsForVpn, admission) => Resumed(q, activeResumes, waitsForVpn, admission)
      case VpnConnected(admission) => StartNext(q, admission)
      case CancelAll =>
        if (q.active.None? && q.pending == []) || q.canceling then q else q.(canceling := true, paused := false)
  }

  /** onStartPosting: checks, then packing or the transfer itself. */
  function Started(job: Job, ok: bool): Job {
    var job := job.(called := false);
    if job.cancel then Ended(job)
    else if !job.hasPacking then PostFiles(job.(packed := true))
    else if ok then job.(process := true)
    else Ended(job)
  }

  /** onCompressionFinished, onGenPar2Finished. */
  function PackingEnded(job: Job, ok: bool, isActive: bool): Job {
    var job := job.(process := false);
    if job.cancel || !ok then Ended(job)
    else
      var job := job.(packed := true);
      (if isActive then PostFiles(job) else job).(announced := true)
  }

  // ---- What every state keeps ----

  ghost predicate NoDup(pending: seq<JobId>) {
    forall i, k | 0 <= i < k < |pending| :: pending[i] != pending[k]
  }

  /** The job packed ahead is the next one: the head of the queue. */
  ghost predicate Shape(q: Queue) {
    && Known(q) && NoDup(q.pending)
    && (q.active.Some? ==> q.active.value !in q.pending)
    && (q.packing.Some? ==> q.pending != [] && q.pending[0] == q.packing.value)
  }

  predicate JobOk(job: Job) {
    && job.transfers <= 1
    && (job.transfers == 1 ==> job.packed)
    && (job.process ==> job.hasPacking && !job.packed && !job.called && !job.ended)
    && (job.called ==> !job.packed && !job.process && (job.ended ==> job.cancel))
    && (job.announced ==> job.packed)
    && (job.finishing ==> job.ended)
  }

  /** Nobody has asked this job to start. */
  predicate Untouched(job: Job) {
    !job.packed && !job.process && job.transfers == 0 && !job.called && !job.announced && (job.ended ==> job.cancel)
  }

  ghost predicate RoleOk(q: Queue, j: JobId)
    requires j in q.jobs
  {
    var job := q.jobs[j];
    && JobOk(job)
    && (if q.active == Some(j) then job.packed && job.transfers == 0 ==> job.cancel
        else if q.packing == Some(j) then job.transfers == 0 && (!job.hasPacking ==> Untouched(job))
        else if j in q.pending then Untouched(job)
        else job.ended)
  }

  ghost predicate Inv(q: Queue) {
    Shape(q) && forall j | j in q.jobs :: RoleOk(q, j)
  }

  const EMPTY: Queue := Queue(None, [], None, false, false, map[])

  /** One job's record changes, its role does not. */
  lemma SetKeeps(q: Queue, j: JobId, job: Job)
    requires Inv(q) && j in q.jobs && RoleOk(Set(q, j, job), j)
    ensures Inv(Set(q, j, job))
  {
    var r := Set(q, j, job);
    forall k | k in r.jobs ensures RoleOk(r, k) {
      if k != j {
        assert RoleOk(q, k);
      }
    }
  }

  lemma PrepareKeeps(q: Queue)
    requires Inv(q) && q.packing.None?
    ensures Inv(PrepareNext(q))
  {
    if !q.paused && !q.canceling && q.pending != [] {
      var head := q.pending[0];
      var r := PrepareNext(q);
      assert RoleOk(q, head);
      forall k | k in r.jobs ensures RoleOk(r, k) {
        assert RoleOk(q, k);
      }
    }
  }

  lemma TailKeepsShape(pending: seq<JobId>)
    requires pending != [] && NoDup(pending)
    ensures NoDup(pending[1..]) && pending[0] !in pending[1..]
    ensures forall k :: k in pending <==> k == pending[0] || k in pending[1..]
  {
    assert pending == [pending[0]] + pending[1..];
  }

  /** The head becomes active, with this record. */
  function Activated(q: Queue, job: Job): Queue
    requires q.pending != []
  {
    Set(q.(active := Some(q.pending[0]), pending := q.pending[1..], packing := None), q.pending[0], job)
  }

  lemma ActivateKeeps(q: Queue, job: Job)
    requires Inv(q) && q.active.None? && q.pending != []
    requires JobOk(job) && (job.packed && job.transfers == 0 ==> job.cancel)
    ensures Inv(Activated(q, job))
  {
    var r := Activated(q, job);
    TailKeepsShape(q.pending);
    forall k | k in r.jobs ensures RoleOk(r, k) {
      if k != q.pending[0] {
        assert RoleOk(q, k);
      }
    }
  }

  /** When a job becomes active, the one packed ahead is that very job, or there is none. */
  lemma StartNextKeeps(q: Queue, admission: Admission)
    requires Inv(q)
    ensures Inv(StartNext(q, admission))
  {
    if q.active.None? && !q.paused && !q.canceling && q.pending != [] && admission == Proceed {
      var j := q.pending[0];
      var job := q.jobs[j];
      assert RoleOk(q, j);
      hide Inv, RoleOk, PrepareNext;
      if q.packing == Some(j) {
        if job.packed {
          ActivateKeeps(q, PostFiles(job));
          PrepareKeeps(Activated(q, PostFiles(job)));
        } else if !job.hasPacking {
          ActivateKeeps(q, job.(called := true));
          PrepareKeeps(Activated(q, job.(called := true)));
        } else {
          ActivateKeeps(q, job);
          assert Set(q, j, job).jobs == q.jobs;
        }
      } else {
        PackingIsHead(q);
        ActivateKeeps(q, job.(called := true));
        if !job.hasPacking {
          PrepareKeeps(Activated(q, job.(called := true)));
        }
      }
    }
  }

  lemma PackingIsHead(q: Queue)
    requires Inv(q) && q.pending != []
    ensures q.packing.None? || q.packing == Some(q.pending[0])
  {
  }

  /** The branch reported as an error is unreachable. */
  lemma NextActiveIsThePackedOne(q: Queue)
    requires Inv(q) && q.pending != []
    ensures q.packing == Some(q.pending[0]) || q.packing.None?
    ensures q.packing.Some? ==> q.pending[1..] == Without(q.pending, q.packing.value)
  {
  }

  lemma SubmitKeeps(q: Queue, j: JobId, hasPacking: bool, admission: Admission)
    requires Inv(q) && j !in q.jobs
    ensures Inv(Submitted(q, j, hasPacking, admission))
  {
    if !q.canceling && admission != Refused {
      hide PrepareNext;
      var queued := Set(q, j, NewJob(hasPacking)).(pending := q.pending + [j]);
      EnqueueKeeps(q, j, hasPacking);
      if admission == Proceed {
        if q.active.Some? || q.paused {
          if queued.active.Some? && queued.jobs[queued.active.value].packed && queued.packing.None? {
            PrepareKeeps(queued);
          }
        } else {
          StartAtOnceKeeps(q, j, hasPacking);
        }
      }
    }
  }

  lemma EnqueueKeeps(q: Queue, j: JobId, hasPacking: bool)
    requires Inv(q) && j !in q.jobs
    ensures Inv(Set(q, j, NewJob(hasPacking)).(pending := q.pending + [j]))
  {
    var r := Set(q, j, NewJob(hasPacking)).(pending := q.pending + [j]);
    forall k | k in r.jobs ensures RoleOk(r, k) {
      if k != j {
        assert RoleOk(q, k);
      }
    }
  }

  lemma StartAtOnceKeeps(q: Queue, j: JobId, hasPacking: bool)
    requires Inv(q) && j !in q.jobs && q.active.None?
    ensures Inv(Called(Set(q, j, NewJob(hasPacking)).(active := Some(j)), j))
  {
    var r := Called(Set(q, j, NewJob(hasPacking)).(active := Some(j)), j);
    forall k | k in r.jobs ensures RoleOk(r, k) {
      if k != j {
        assert RoleOk(q, k);
      }
    }
  }

  lemma {:induction false} WithoutKeepsNoDup(pending: seq<JobId>, j: JobId)
    requires NoDup(pending)
    ensures NoDup(Without(pending, j)) && forall k :: k in Without(pending, j) <==> k in pending && k != j
    ensures pending != [] && pending[0] != j ==> Without(pending, j) != [] && Without(pending, j)[0] == pending[0]
  {
    if pending != [] {
      TailKeepsShape(pending);
      if pending[0] != j {
        WithoutKeepsNoDup(pending[1..], j);
      }
    }
  }

  /** The queue once an ended job has left it, before anything else starts. */
  function Left(q: Queue, j: JobId): Queue {
    if q.active == Some(j) then q.(active := None)
    else if q.packing == Some(j) && q.pending != [] then q.(packing := None, pending := q.pending[1..])
    else q.(pending := Without(q.pending, j))
  }

  lemma LeftKeeps(q: Queue, j: JobId)
    requires Inv(q) && j in q.jobs && q.jobs[j].ended
    ensures Inv(Left(q, j))
  {
    hide RoleOk;
    if q.active == Some(j) {
      LeaveKeeps(q, j, q.(active := None));
    } else if q.packing == Some(j) {
      TailKeepsShape(q.pending);
      LeaveKeeps(q, j, q.(packing := None, pending := q.pending[1..]));
    } else {
      WithoutKeepsNoDup(q.pending, j);
      hide Without;
      LeaveKeeps(q, j, q.(pending := Without(q.pending, j)));
    }
  }

  lemma NotifiedKeeps(q: Queue)
    requires Inv(q)
    ensures Inv(Notified(q))
  {
    FlagsKeep(q, false, false);
  }

  lemma ToldKeeps(q: Queue, j: JobId)
    requires Inv(q) && j in q.jobs && q.jobs[j].finishing
    ensures q.jobs[j].ended && Inv(Set(q, j, q.jobs[j].(finishing := false)))
  {
    assert RoleOk(q, j);
    SetKeeps(q, j, q.jobs[j].(finishing := false));
  }

  lemma FinishKeeps(q: Queue, j: JobId, admission: Admission)
    requires Inv(q) && j in q.jobs && q.jobs[j].finishing
    ensures Inv(OnJobFinished(q, j, admission))
  {
    hide RoleOk, StartNext, PrepareNext, Without, Notified;
    ToldKeeps(q, j);
    var told := Set(q, j, q.jobs[j].(finishing := false));
    LeftKeeps(told, j);
    if told.active == Some(j) {
      StartNextKeeps(told.(active := None), admission);
      NotifiedKeeps(StartNext(told.(active := None), admission));
    } else if told.packing == Some(j) && told.pending != [] {
      PrepareKeeps(Left(told, j));
      NotifiedKeeps(PrepareNext(Left(told, j)));
    } else {
      NotifiedKeeps(Left(told, j));
    }
  }

  /** An ended job leaves its place; the others keep theirs. */
  lemma LeaveKeeps(q: Queue, j: JobId, r: Queue)
    requires Inv(q) && j in q.jobs && q.jobs[j].ended && r.jobs == q.jobs && Shape(r)
    requires r.active != Some(j) && r.packing != Some(j) && j !in r.pending
    requires forall k | k != j ::
               (r.active == Some(k) <==> q.active == Some(k)) && (r.packing == Some(k) <==> q.packing == Some(k))
               && (k in r.pending <==> k in q.pending)
    ensures Inv(r)
  {
    forall k | k in r.jobs ensures RoleOk(r, k) {
      assert RoleOk(q, k);
    }
  }

  lemma PackingDoneKeeps(q: Queue, j: JobId)
    requires Inv(q) && j in q.jobs && q.jobs[j].announced
    ensures Inv(OnPackingDone(q, j))
  {
    assert RoleOk(q, j);
    SetKeeps(q, j, q.jobs[j].(announced := false));
    var told := Set(q, j, q.jobs[j].(announced := false));
    hide PrepareNext;
    if told.active == Some(j) && told.packing.None? {
      var posted := if told.jobs[j].transfers == 0 then Set(told, j, PostFiles(told.jobs[j])) else told;
      if told.jobs[j].transfers == 0 {
        SetKeeps(told, j, PostFiles(told.jobs[j]));
      }
      PrepareKeeps(posted);
    }
  }

  /** onPackingDone never starts a transfer: what it finds packed and idle is cancelled. */
  lemma PackingDoneStartsNothing(q: Queue, j: JobId)
    requires Inv(q) && j in q.jobs && q.jobs[j].announced && q.active == Some(j) && q.jobs[j].transfers == 0
    ensures PostFiles(q.jobs[j]).transfers == 0
  {
    assert RoleOk(q, j);
  }

  /** Every event keeps the invariant, whatever the VPN admits. */
  lemma NextKeeps(q: Queue, e: Event)
    requires Inv(q)
    ensures Inv(Next(q, e))
  {
    hide StartNext, PrepareNext, Submitted, OnJobFinished, OnPackingDone;
    if Enabled(q, e) {
      match e
      case Submit(j, hasPacking, admission) => SubmitKeeps(q, j, hasPacking, admission);
      case PackingAnnounced(j) => PackingDoneKeeps(q, j);
      case FinishAnnounced(j, admission) => FinishKeeps(q, j, admission);
      case Resume(activeResumes, waitsForVpn, admission) => ResumeKeeps(q, activeResumes, waitsForVpn, admission);
      case VpnConnected(admission) => StartNextKeeps(q, admission);
      case Pause => FlagsKeep(q, true, q.canceling);
      case CancelAll => FlagsKeep(q, false, true);
      case StartRuns(j, ok) =>
        assert RoleOk(q, j);
        SetKeeps(q, j, Started(q.jobs[j], ok));
      case PackingEnds(j, ok) =>
        assert RoleOk(q, j);
        SetKeeps(q, j, PackingEnded(q.jobs[j], ok, q.active == Some(j)));
      case TransferEnds(j) =>
        assert RoleOk(q, j);
        SetKeeps(q, j, Ended(q.jobs[j]));
      case Cancel(j) =>
        assert RoleOk(q, j);
        SetKeeps(q, j, q.jobs[j].(cancel := true));
      case StopRuns(j) =>
        assert RoleOk(q, j);
        SetKeeps(q, j, if q.jobs[j].process then q.jobs[j] else Ended(q.jobs[j]));
    }
  }

  lemma FlagsKeep(q: Queue, paused: bool, canceling: bool)
    requires Inv(q)
    ensures Inv(q.(paused := paused, canceling := canceling))
  {
    var r := q.(paused := paused, canceling := canceling);
    forall j | j in r.jobs ensures RoleOk(r, j) {
      assert RoleOk(q, j);
    }
  }

  lemma ResumeKeeps(q: Queue, activeResumes: bool, waitsForVpn: bool, admission: Admission)
    requires Inv(q)
    ensures Inv(Resumed(q, activeResumes, waitsForVpn, admission))
  {
    hide StartNext, PrepareNext, RoleOk;
    FlagsKeep(q, false, q.canceling);
    var r := StartNext(q.(paused := false), admission);
    StartNextKeeps(q.(paused := false), admission);
    if r.packing.None? {
      PrepareKeeps(r);
    }
  }

  // ---- Every run ----

  function After(events: seq<Event>): (q: Queue)
    ensures Inv(q)
  {
    if events == [] then EMPTY else
      NextKeeps(After(events[..|events| - 1]), events[|events| - 1]);
      Next(After(events[..|events| - 1]), events[|events| - 1])
  }

  /** The job packed ahead is always the head of the queue, and no job is transferred
      twice, whatever the VPN admits and whoever pauses, resumes or cancels. */
  lemma PackedAheadIsHeadAndTransfersAreSingle(events: seq<Event>)
    ensures var q := After(events);
            && (q.packing.Some? ==> q.pending != [] && q.pending[0] == q.packing.value)
            && (q.active.Some? ==> q.active.value !in q.pending)
            && forall j | j in q.jobs :: q.jobs[j].transfers <= 1
  {
    var q := After(events);
    forall j | j in q.jobs ensures q.jobs[j].transfers <= 1 {
      assert RoleOk(q, j);
    }
  }

  // ---- One packing at a time ----

  predicate Proceeds(e: Event) {
    match e
    case Submit(_, _, admission) => admission == Proceed
    case FinishAnnounced(_, admission) => admission == Proceed
    case Resume(_, _, admission) => admission == Proceed
    case VpnConnected(admission) => admission == Proceed
    case _ => true
  }

  /** Packing, or called to pack. */
  predicate Busy(job: Job) {
    job.process || (job.called && job.hasPacking && !job.ended)
  }

  /** While one job is packed ahead, the active one is past its own packing; and an idle
      queue that may start something has nothing to start. */
  predicate Single(q: Queue) {
    && (q.packing.Some? && q.active.Some? && q.active.value in q.jobs ==> !Busy(q.jobs[q.active.value]))
    && (q.active.None? && !q.paused && !q.canceling ==> q.pending == [])
  }

  lemma PrepareStaysSingle(q: Queue)
    requires Inv(q) && Single(q) && q.packing.None?
    requires q.active.Some? ==> !Busy(q.jobs[q.active.value])
    ensures Single(PrepareNext(q))
  {
  }

  lemma StartNextBecomesSingle(q: Queue)
    requires Inv(q) && (q.packing.Some? && q.active.Some? ==> !Busy(q.jobs[q.active.value]))
    ensures Single(StartNext(q, Proceed))
  {
    if q.active.None? && !q.paused && !q.canceling && q.pending != [] {
      var j := q.pending[0];
      var job := q.jobs[j];
      assert RoleOk(q, j);
      PackingIsHead(q);
      TailKeepsShape(q.pending);
      hide Inv, RoleOk, Shape;
    }
  }

  lemma FinishStaysSingle(q: Queue, j: JobId)
    requires Inv(q) && Single(q) && j in q.jobs && q.jobs[j].finishing
    ensures Single(OnJobFinished(q, j, Proceed))
  {
    assert RoleOk(q, j);
    SetKeeps(q, j, q.jobs[j].(finishing := false));
    hide RoleOk, StartNext, PrepareNext, Without;
    var told := Set(q, j, q.jobs[j].(finishing := false));
    LeftKeeps(told, j);
    if told.active == Some(j) {
      StartNextBecomesSingle(told.(active := None));
    } else if told.packing == Some(j) && told.pending != [] {
      PrepareStaysSingle(Left(told, j));
    } else {
      WithoutKeepsNoDup(told.pending, j);
    }
  }

  lemma ResumeStaysSingle(q: Queue, activeResumes: bool, waitsForVpn: bool)
    requires Inv(q) && Single(q)
    ensures Single(Resumed(q, activeResumes, waitsForVpn, Proceed))
  {
    var r := StartNext(q.(paused := false), Proceed);
    FlagsKeep(q, false, q.canceling);
    hide StartNext, PrepareNext;
    StartNextKeeps(q.(paused := false), Proceed);
    StartNextBecomesSingle(q.(paused := false));
    if r.packing.None? && r.active.Some? && r.jobs[r.active.value].packed {
      assert RoleOk(r, r.active.value);
      PrepareStaysSingle(r);
    }
  }

  lemma SubmitStaysSingle(q: Queue, j: JobId, hasPacking: bool)
    requires Inv(q) && Single(q) && j !in q.jobs
    ensures Single(Submitted(q, j, hasPacking, Proceed))
  {
    hide PrepareNext;
    if !q.canceling && (q.active.Some? || q.paused) {
      var queued := Set(q, j, NewJob(hasPacking)).(pending := q.pending + [j]);
      EnqueueKeeps(q, j, hasPacking);
      if queued.active.Some? && queued.jobs[queued.active.value].packed && queued.packing.None? {
        assert RoleOk(queued, queued.active.value);
        PrepareStaysSingle(queued);
      }
    }
  }

  lemma PackingDoneStaysSingle(q: Queue, j: JobId)
    requires Inv(q) && Single(q) && j in q.jobs && q.jobs[j].announced
    ensures Single(OnPackingDone(q, j))
  {
    assert RoleOk(q, j);
    SetKeeps(q, j, q.jobs[j].(announced := false));
    var told := Set(q, j, q.jobs[j].(announced := false));
    hide PrepareNext;
    if told.active == Some(j) && told.packing.None? {
      if told.jobs[j].transfers == 0 {
        SetKeeps(told, j, PostFiles(told.jobs[j]));
        PrepareStaysSingle(Set(told, j, PostFiles(told.jobs[j])));
      } else {
        PrepareStaysSingle(told);
      }
    }
  }

  lemma NextStaysSingle(q: Queue, e: Event)
    requires Inv(q) && Single(q) && Proceeds(e)
    ensures Single(Next(q, e))
  {
    hide StartNext, PrepareNext, Submitted, OnJobFinished, OnPackingDone, Resumed;
    if Enabled(q, e) {
      match e
      case Submit(j, hasPacking, _) => SubmitStaysSingle(q, j, hasPacking);
      case PackingAnnounced(j) => PackingDoneStaysSingle(q, j);
      case FinishAnnounced(j, _) => FinishStaysSingle(q, j);
      case Resume(activeResumes, waitsForVpn, _) => ResumeStaysSingle(q, activeResumes, waitsForVpn);
      case VpnConnected(_) => StartNextBecomesSingle(q);
      case StartRuns(j, ok) => assert RoleOk(q, j);
      case PackingEnds(j, ok) => assert RoleOk(q, j);
      case _ =>
    }
  }

  lemma {:induction false} RunsStaySingle(events: seq<Event>)
    requires forall e | e in events :: Proceeds(e)
    ensures Single(After(events))
  {
    if events != [] {
      RunsStaySingle(events[..|events| - 1]);
      NextStaysSingle(After(events[..|events| - 1]), events[|events| - 1]);
    }
  }

  /** With a VPN that always admits, no two jobs are ever being packed at once. */
  lemma OnePackingAtATime(events: seq<Event>, j: JobId, k: JobId)
    requires forall e | e in events :: Proceeds(e)
    requires var q := After(events); j in q.jobs && k in q.jobs && q.jobs[j].process && q.jobs[k].process
    ensures j == k
  {
    var q := After(events);
    RunsStaySingle(events);
    assert RoleOk(q, j) && RoleOk(q, k);
  }

  // ---- Exactly when two jobs are packed at once ----

  /** At most one job is packing, or called to. */
  ghost predicate OneBusy(q: Queue) {
    forall j, k | j in q.jobs && k in q.jobs && Busy(q.jobs[j]) && Busy(q.jobs[k]) :: j == k
  }

  predicate MayStart(q: Queue) { !q.paused && !q.canceling }

  /** A job that packs is admitted with no job active, while the head of the queue, which
      waits for its own admission, is packing. */
  predicate Overtakes(q: Queue, e: Event) {
    && e.Submit? && Enabled(q, e) && e.admission == Proceed && e.hasPacking
    && q.active.None? && MayStart(q)
    && q.packing.Some? && q.packing.value in q.jobs && Busy(q.jobs[q.packing.value])
  }

  /** The job packed ahead has ended, the next one packs too, and so does the active one. */
  predicate RefillsTooSoon(q: Queue, e: Event) {
    && e.FinishAnnounced? && Enabled(q, e) && q.packing == Some(e.job) && q.active != q.packing && MayStart(q)
    && q.active.Some? && q.active.value in q.jobs && Busy(q.jobs[q.active.value])
    && |q.pending| > 1 && q.pending[1] in q.jobs
    && q.jobs[q.pending[1]].hasPacking && !q.jobs[q.pending[1]].ended
  }

  /** Only the active job and the one packed ahead can be busy. */
  lemma BusyHasRole(q: Queue, j: JobId)
    requires Inv(q) && j in q.jobs && Busy(q.jobs[j])
    ensures q.active == Some(j) || q.packing == Some(j)
    ensures !q.jobs[j].packed && !q.jobs[j].ended
  {
    assert RoleOk(q, j);
  }

  /** The head is called to pack; nobody else changes. */
  lemma PrepareBusy(q: Queue)
    requires Inv(q) && q.packing.None?
    ensures var r := PrepareNext(q);
            r.jobs.Keys == q.jobs.Keys
            && forall j | j in q.jobs :: Busy(r.jobs[j]) <==>
                 Busy(q.jobs[j]) || (MayStart(q) && q.pending != [] && j == q.pending[0]
                                     && q.jobs[j].hasPacking && !q.jobs[j].ended)
  {
    if q.pending != [] {
      assert RoleOk(q, q.pending[0]);
    }
  }

  lemma PrepareOneBusyIff(q: Queue)
    requires Inv(q) && q.packing.None? && OneBusy(q)
    ensures OneBusy(PrepareNext(q)) <==>
              !(MayStart(q) && q.active.Some? && Busy(q.jobs[q.active.value]) && q.pending != []
                && q.jobs[q.pending[0]].hasPacking && !q.jobs[q.pending[0]].ended)
  {
    hide PrepareNext, RoleOk, Busy;
    PrepareBusy(q);
    forall j | j in q.jobs && Busy(q.jobs[j]) ensures q.active == Some(j) {
      BusyHasRole(q, j);
    }
  }

  lemma SetOneBusy(q: Queue, j: JobId, job: Job)
    requires OneBusy(q) && j in q.jobs && (Busy(job) ==> Busy(q.jobs[j]))
    ensures OneBusy(Set(q, j, job))
  {
    hide Busy;
  }

  lemma StartNextOneBusy(q: Queue, admission: Admission)
    requires Inv(q) && OneBusy(q)
    ensures OneBusy(StartNext(q, admission))
  {
    if q.active.None? && MayStart(q) && q.pending != [] && admission == Proceed {
      var j := q.pending[0];
      var job := q.jobs[j];
      assert RoleOk(q, j);
      PackingIsHead(q);
      OnlyHeadIsBusy(q);
      hide Inv, RoleOk, PrepareNext, Busy;
      if q.packing == Some(j) {
        if job.packed {
          PackedIsIdle(job);
          ActivateKeeps(q, PostFiles(job));
          ActivatedOneBusy(q, PostFiles(job));
          PrepareOneBusyIff(Activated(q, PostFiles(job)));
        } else if !job.hasPacking {
          PlainIsIdle(q, job);
          ActivateKeeps(q, job.(called := true));
          ActivatedOneBusy(q, job.(called := true));
          PrepareOneBusyIff(Activated(q, job.(called := true)));
        } else {
          ActivatedOneBusy(q, job);
          assert Set(q, j, job).jobs == q.jobs;
        }
      } else {
        ActivateKeeps(q, job.(called := true));
        ActivatedOneBusy(q, job.(called := true));
        if !job.hasPacking {
          PlainIsIdle(q, job);
          PrepareOneBusyIff(Activated(q, job.(called := true)));
        }
      }
    }
  }

  lemma PackedIsIdle(job: Job)
    requires JobOk(job) && job.packed
    ensures !Busy(job) && !Busy(PostFiles(job))
  {
  }

  lemma PlainIsIdle(q: Queue, job: Job)
    requires JobOk(job) && !job.hasPacking
    ensures !Busy(job) && !Busy(job.(called := true))
  {
  }

  lemma OnlyHeadIsBusy(q: Queue)
    requires Inv(q) && q.active.None?
    ensures forall j | j in q.jobs && Busy(q.jobs[j]) :: q.pending != [] && j == q.pending[0]
  {
    forall j | j in q.jobs && Busy(q.jobs[j]) ensures q.pending != [] && j == q.pending[0] {
      BusyHasRole(q, j);
    }
  }

  lemma ActivatedOneBusy(q: Queue, job: Job)
    requires q.pending != [] && q.pending[0] in q.jobs
    requires forall j | j in q.jobs && Busy(q.jobs[j]) :: j == q.pending[0]
    ensures OneBusy(Activated(q, job))
  {
    hide Busy;
  }

  lemma SubmitOneBusyIff(q: Queue, j: JobId, hasPacking: bool, admission: Admission)
    requires Inv(q) && OneBusy(q) && j !in q.jobs
    ensures OneBusy(Submitted(q, j, hasPacking, admission)) <==> !Overtakes(q, Submit(j, hasPacking, admission))
  {
    var e := Submit(j, hasPacking, admission);
    if !q.canceling && admission != Refused {
      var queued := Set(q, j, NewJob(hasPacking)).(pending := q.pending + [j]);
      EnqueueKeeps(q, j, hasPacking);
      EnqueueOneBusy(q, j, hasPacking);
      if admission == Proceed && (q.active.Some? || q.paused) {
        if queued.active.Some? && queued.jobs[queued.active.value].packed && queued.packing.None? {
          assert RoleOk(queued, queued.active.value);
          hide Inv, PrepareNext, RoleOk;
          PrepareOneBusyIff(queued);
        }
      } else if admission == Proceed {
        StartAtOnceIff(q, j, hasPacking);
      }
    }
  }

  lemma EnqueueOneBusy(q: Queue, j: JobId, hasPacking: bool)
    requires OneBusy(q) && j !in q.jobs
    ensures OneBusy(Set(q, j, NewJob(hasPacking)).(pending := q.pending + [j]))
  {
  }

  lemma StartAtOnceIff(q: Queue, j: JobId, hasPacking: bool)
    requires Inv(q) && OneBusy(q) && j !in q.jobs && q.active.None?
    ensures OneBusy(Called(Set(q, j, NewJob(hasPacking)).(active := Some(j)), j)) <==>
              !(hasPacking && q.packing.Some? && Busy(q.jobs[q.packing.value]))
  {
    var r := Called(Set(q, j, NewJob(hasPacking)).(active := Some(j)), j);
    assert Busy(r.jobs[j]) <==> hasPacking;
    forall k | k in q.jobs ensures r.jobs[k] == q.jobs[k] && k != j {
    }
    forall k | k in q.jobs && Busy(q.jobs[k]) ensures q.packing == Some(k) {
      BusyHasRole(q, k);
    }
    hide Busy, RoleOk, Inv;
    if hasPacking && q.packing.Some? && Busy(q.jobs[q.packing.value]) {
      assert q.packing.value in r.jobs && j in r.jobs;
    }
  }

  lemma FinishOneBusyIff(q: Queue, j: JobId, admission: Admission)
    requires Inv(q) && OneBusy(q) && j in q.jobs && q.jobs[j].finishing
    ensures OneBusy(OnJobFinished(q, j, admission)) <==> !RefillsTooSoon(q, FinishAnnounced(j, admission))
  {
    hide RoleOk, StartNext, PrepareNext, Without, Busy;
    ToldKeeps(q, j);
    var told := Set(q, j, q.jobs[j].(finishing := false));
    ToldOneBusy(q, j);
    LeftKeeps(told, j);
    var left := Left(told, j);
    assert left.jobs == told.jobs;
    if told.active == Some(j) {
      StartNextOneBusy(left, admission);
    } else if told.packing == Some(j) && told.pending != [] {
      PrepareOneBusyIff(left);
      ToldSame(q, j);
    }
  }

  lemma ToldOneBusy(q: Queue, j: JobId)
    requires OneBusy(q) && j in q.jobs
    ensures OneBusy(Set(q, j, q.jobs[j].(finishing := false)))
  {
    SetOneBusy(q, j, q.jobs[j].(finishing := false));
  }

  /** Announcing the end changes nothing that matters for the others. */
  lemma ToldSame(q: Queue, j: JobId)
    requires Inv(q) && j in q.jobs && q.packing == Some(j) && q.active != Some(j)
    ensures var told := Set(q, j, q.jobs[j].(finishing := false));
            && (q.active.Some? ==> told.jobs[q.active.value] == q.jobs[q.active.value])
            && (|q.pending| > 1 ==> q.pending[1] in q.jobs && told.jobs[q.pending[1]] == q.jobs[q.pending[1]])
            && q.pending != [] && q.pending[0] == j
  {
  }

  lemma PackingDoneOneBusy(q: Queue, j: JobId)
    requires Inv(q) && OneBusy(q) && j in q.jobs && q.jobs[j].announced
    ensures OneBusy(OnPackingDone(q, j))
  {
    assert RoleOk(q, j);
    SetKeeps(q, j, q.jobs[j].(announced := false));
    SetOneBusy(q, j, q.jobs[j].(announced := false));
    var told := Set(q, j, q.jobs[j].(announced := false));
    if told.active == Some(j) && told.packing.None? {
      if told.jobs[j].transfers == 0 {
        SetKeeps(told, j, PostFiles(told.jobs[j]));
        SetOneBusy(told, j, PostFiles(told.jobs[j]));
        hide Inv, PrepareNext;
        PrepareOneBusyIff(Set(told, j, PostFiles(told.jobs[j])));
      } else {
        hide Inv, PrepareNext;
        PrepareOneBusyIff(told);
      }
    }
  }

  lemma ResumeOneBusy(q: Queue, activeResumes: bool, waitsForVpn: bool, admission: Admission)
    requires Inv(q) && OneBusy(q)
    ensures OneBusy(Resumed(q, activeResumes, waitsForVpn, admission))
  {
    FlagsKeep(q, false, q.canceling);
    hide StartNext, PrepareNext;
    var r := StartNext(q.(paused := false), admission);
    StartNextKeeps(q.(paused := false), admission);
    StartNextOneBusy(q.(paused := false), admission);
    if r.packing.None? && r.active.Some? && r.jobs[r.active.value].packed {
      assert RoleOk(r, r.active.value);
      PrepareOneBusyIff(r);
    }
  }

  /** From at most one, a step leads to two jobs that pack if and only if it is one of
      these two, whatever the VPN admits. */
  lemma StepKeepsOneBusyIff(q: Queue, e: Event)
    requires Inv(q) && OneBusy(q)
    ensures OneBusy(Next(q, e)) <==> !Overtakes(q, e) && !RefillsTooSoon(q, e)
  {
    hide StartNext, PrepareNext, Submitted, OnJobFinished, OnPackingDone, Resumed;
    if Enabled(q, e) {
      match e
      case Submit(j, hasPacking, admission) => SubmitOneBusyIff(q, j, hasPacking, admission);
      case PackingAnnounced(j) => PackingDoneOneBusy(q, j);
      case FinishAnnounced(j, admission) => FinishOneBusyIff(q, j, admission);
      case Resume(activeResumes, waitsForVpn, admission) =>
        ResumeOneBusy(q, activeResumes, waitsForVpn, admission);
      case VpnConnected(admission) => StartNextOneBusy(q, admission);
      case StartRuns(j, ok) =>
        assert RoleOk(q, j);
        SetOneBusy(q, j, Started(q.jobs[j], ok));
      case PackingEnds(j, ok) =>
        assert RoleOk(q, j);
        SetOneBusy(q, j, PackingEnded(q.jobs[j], ok, q.active == Some(j)));
      case TransferEnds(j) => SetOneBusy(q, j, Ended(q.jobs[j]));
      case Cancel(j) => SetOneBusy(q, j, q.jobs[j].(cancel := true));
      case StopRuns(j) => SetOneBusy(q, j, if q.jobs[j].process then q.jobs[j] else Ended(q.jobs[j]));
      case _ =>
    }
  }

  /** A run in which neither happens never packs two jobs at once. */
  lemma {:induction false} RunsKeepOneBusy(events: seq<Event>)
    requires forall i | 0 <= i < |events| ::
               !Overtakes(After(events[..i]), events[i]) && !RefillsTooSoon(After(events[..i]), events[i])
    ensures OneBusy(After(events))
  {
    if events != [] {
      var init := events[..|events| - 1];
      forall i | 0 <= i < |init|
        ensures !Overtakes(After(init[..i]), init[i]) && !RefillsTooSoon(After(init[..i]), init[i])
      {
        assert init[..i] == events[..i];
      }
      RunsKeepOneBusy(init);
      hide Inv, OneBusy, Overtakes, RefillsTooSoon, Next;
      StepKeepsOneBusyIff(After(init), events[|events| - 1]);
    }
  }

  // ---- Both happen ----

  /** The first job posts and the second is packed ahead. */
  const BEGINNING: seq<Event> := [
    Submit(1, true, Proceed), StartRuns(1, true), PackingEnds(1, true), Submit(2, true, Proceed)]

  /** The first job ends while the second must wait for the tunnel, and a third that does
      not need it is submitted. */
  const OVERTAKING: seq<Event> := BEGINNING + [
    StartRuns(2, true), TransferEnds(1), FinishAnnounced(1, Wait), Submit(3, true, Proceed), StartRuns(3, true)]

  /** The second is cancelled meanwhile, and its end arrives once the third is packing. */
  const REFILLING: seq<Event> := BEGINNING + [
    Cancel(2), StopRuns(2), TransferEnds(1), FinishAnnounced(1, Wait), Submit(4, true, Wait),
    Submit(3, true, Proceed), FinishAnnounced(2, Proceed), StartRuns(3, true), StartRuns(4, true)]

  lemma StepTo(events: seq<Event>, i: nat, q: Queue, r: Queue)
    requires i < |events| && After(events[..i]) == q && Next(q, events[i]) == r
    ensures After(events[..i + 1]) == r
  {
    assert events[..i + 1][..i] == events[..i];
  }

  /** One active job and at most one packed ahead. */
  function Two(active: Option<JobId>, pending: seq<JobId>, jobs: map<JobId, Job>): Queue {
    Queue(active, pending, if pending == [] then None else Some(pending[0]), false, false, jobs)
  }

  const CALLED: Job := NewJob(true).(called := true)

  const BUSY: Job := NewJob(true).(process := true)

  const POSTING: Job := NewJob(true).(packed := true, transfers := 1, announced := true)

  lemma FirstPosts(events: seq<Event>)
    requires |events| >= 4 && events[..4] == BEGINNING
    ensures After(events[..4]) == Two(Some(1), [2], map[1 := POSTING, 2 := CALLED])
  {
    hide After, Inv;
    assert After(events[..0]) == EMPTY by { EmptyStart(events); }
    assert forall i | 0 <= i < 4 :: events[i] == BEGINNING[i];
    StepTo(events, 0, EMPTY, Two(Some(1), [], map[1 := CALLED]));
    StepTo(events, 1, Two(Some(1), [], map[1 := CALLED]), Two(Some(1), [], map[1 := BUSY]));
    StepTo(events, 2, Two(Some(1), [], map[1 := BUSY]), Two(Some(1), [], map[1 := POSTING]));
    StepTo(events, 3, Two(Some(1), [], map[1 := POSTING]), Two(Some(1), [2], map[1 := POSTING, 2 := CALLED]));
  }

  lemma EmptyStart(events: seq<Event>)
    ensures After(events[..0]) == EMPTY
  {
    assert events[..0] == [];
  }

  /** An admitted job overtakes the head of the queue: both are packed at once. */
  lemma TwoPackings()
    ensures var q := After(OVERTAKING);
            2 in q.jobs && 3 in q.jobs && q.jobs[2].process && q.jobs[3].process
  {
    hide After, Inv;
    var es := OVERTAKING;
    FirstPosts(es);
    var q5 := Two(Some(1), [2], map[1 := POSTING, 2 := BUSY]);
    StepTo(es, 4, Two(Some(1), [2], map[1 := POSTING, 2 := CALLED]), q5);
    var q6 := Two(Some(1), [2], map[1 := Ended(POSTING), 2 := BUSY]);
    StepTo(es, 5, q5, q6);
    var q7 := Two(None, [2], map[1 := Ended(POSTING).(finishing := false), 2 := BUSY]);
    StepTo(es, 6, q6, q7);
    var q8 := q7.(active := Some(3), jobs := q7.jobs[3 := CALLED]);
    StepTo(es, 7, q7, q8);
    StepTo(es, 8, q8, q8.(jobs := q8.jobs[3 := BUSY]));
    assert es[..9] == es;
  }

  /** A cancelled job leaves its place ahead to the next one while the active one packs. */
  lemma TwoPackingsByRefill()
    ensures var q := After(REFILLING);
            3 in q.jobs && 4 in q.jobs && q.jobs[3].process && q.jobs[4].process
  {
    hide After, Inv, Next, Ended;
    var gone, cancelled := Ended(POSTING).(finishing := false), Ended(CALLED.(cancel := true));
    FirstPosts(REFILLING);
    SecondIsCancelled(cancelled);
    FirstIsGone(gone, cancelled);
    ThirdStarts(gone, cancelled);
    BothStart(After(REFILLING[..11]));
  }

  lemma SecondIsCancelled(cancelled: Job)
    requires cancelled == Ended(CALLED.(cancel := true))
    requires After(REFILLING[..4]) == Two(Some(1), [2], map[1 := POSTING, 2 := CALLED])
    ensures After(REFILLING[..6]) == Two(Some(1), [2], map[1 := POSTING, 2 := cancelled])
  {
    hide After, Inv;
    var q5 := Two(Some(1), [2], map[1 := POSTING, 2 := CALLED.(cancel := true)]);
    StepTo(REFILLING, 4, Two(Some(1), [2], map[1 := POSTING, 2 := CALLED]), q5);
    StepTo(REFILLING, 5, q5, Two(Some(1), [2], map[1 := POSTING, 2 := cancelled]));
  }

  lemma FirstIsGone(gone: Job, cancelled: Job)
    requires gone == Ended(POSTING).(finishing := false) && cancelled == Ended(CALLED.(cancel := true))
    requires After(REFILLING[..6]) == Two(Some(1), [2], map[1 := POSTING, 2 := cancelled])
    ensures After(REFILLING[..8]) == Two(None, [2], map[1 := gone, 2 := cancelled])
  {
    hide After, Inv;
    var q7 := Two(Some(1), [2], map[1 := Ended(POSTING), 2 := cancelled]);
    StepTo(REFILLING, 6, Two(Some(1), [2], map[1 := POSTING, 2 := cancelled]), q7);
    StepTo(REFILLING, 7, q7, Two(None, [2], map[1 := gone, 2 := cancelled]));
  }

  lemma ThirdStarts(gone: Job, cancelled: Job)
    requires cancelled == Ended(CALLED.(cancel := true))
    requires After(REFILLING[..8]) == Two(None, [2], map[1 := gone, 2 := cancelled])
    ensures var q := After(REFILLING[..11]); 3 in q.jobs && 4 in q.jobs && q.jobs[3] == q.jobs[4] == CALLED
  {
    hide After, Inv;
    var q8 := Two(None, [2], map[1 := gone, 2 := cancelled]);
    var q9 := Two(None, [2, 4], q8.jobs[4 := NewJob(true)]);
    StepTo(REFILLING, 8, q8, q9);
    var q10 := Two(Some(3), [2, 4], q9.jobs[3 := CALLED]);
    StepTo(REFILLING, 9, q9, q10);
    StepTo(REFILLING, 10, q10, Two(Some(3), [4], q10.jobs[2 := cancelled.(finishing := false)][4 := CALLED]));
  }

  lemma BothStart(q: Queue)
    requires After(REFILLING[..11]) == q && 3 in q.jobs && 4 in q.jobs
    requires q.jobs[3] == CALLED && q.jobs[4] == CALLED
    ensures var r := After(REFILLING);
            3 in r.jobs && 4 in r.jobs && r.jobs[3].process && r.jobs[4].process
  {
    hide After, Inv;
    var es := REFILLING;
    StepTo(es, 11, q, q.(jobs := q.jobs[3 := BUSY]));
    StepTo(es, 12, q.(jobs := q.jobs[3 := BUSY]), q.(jobs := q.jobs[3 := BUSY][4 := BUSY]));
    assert es[..13] == es;
  }
}
