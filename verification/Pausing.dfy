/** Who may end a pause (src/PostingJob.cpp, src/NgPost.cpp). A post can be paused by its
    user, by the reconnection backoff or while the VPN recovers; pauses pile up, and
    timers and VPN events keep coming while one is on. */
module Pausing {
  import opened Options

  datatype Reason = Running | User | ConnectionBackoff | VpnRecovery

  /** The job's pause, the backoff timer, and its connections: in use, or set aside. */
  datatype Job = Job(isPaused: bool, reason: Reason, timerSet: bool, needsVpn: bool, open: set<nat>, closed: set<nat>)

  datatype Post = Post(queuePaused: bool, canceling: bool, active: Option<Job>)

  datatype Admission = Proceed | Wait | Blocked

  /** The VPN as a resume finds it. */
  datatype Vpn = Vpn(managed: bool, healthy: bool, stopping: bool, admission: Admission)

  datatype Event =
    | UserPauses
    | UserResumes(vpn: Vpn)
    | UserCancels
    | JobEnds(othersWait: bool, next: Option<Job>)
    | JobStarts(job: Job)
    | ConnectionEnds(con: nat)
    | AllConnectionsLost
    | BackoffFires(vpn: Vpn)
    | VpnInterrupted
    | VpnStoppedByHand
    | VpnConnected

  // ---- The job ----

  /** A user pause outranks VPN recovery, which outranks the backoff. */
  function MergedReason(current: Reason, incoming: Reason): Reason {
    if incoming == User then User
    else if current == User then User
    else if incoming == VpnRecovery then VpnRecovery
    else current
  }

  function Paused(job: Job, reason: Reason): Job {
    if job.isPaused then
      var merged := MergedReason(job.reason, reason);
      job.(reason := merged, timerSet := job.timerSet && merged == ConnectionBackoff)
    else
      job.(isPaused := true, reason := reason)
  }

  function Resumed(job: Job): Job {
    if !job.isPaused then job else
      var job := job.(isPaused := false, reason := Running);
      if job.open == {} && job.closed != {} then job.(open := job.closed, closed := {}) else job
  }

  // ---- The queue ----

  /** _resumeActiveJob: whether the queue may resume, and the job and queue flag after it. */
  function ResumeActive(p: Post, vpn: Vpn): (Post, bool) {
    if p.active.None? || !p.active.value.isPaused then (p, true) else
      var job := p.active.value;
      var down := vpn.managed && !vpn.healthy;
      if job.reason == User && down && job.needsVpn && vpn.stopping then (p, false)
      else if job.reason == User && down && job.needsVpn && vpn.admission != Proceed then
        (if vpn.admission == Wait
         then p.(queuePaused := false, active := Some(job.(reason := VpnRecovery))) else p, false)
      else if job.reason == VpnRecovery && down then (p, false)
      else (p.(active := Some(Resumed(job))), true)
  }

  function ResumeAll(p: Post, vpn: Vpn): Post {
    if p.canceling then p else
      var (p, goesOn) := ResumeActive(p, vpn);
      if goesOn then p.(queuePaused := false) else p
  }

  function With(p: Post, job: Job): Post { p.(active := Some(job)) }

  function Next(p: Post, e: Event): Post {
    match e
    case UserPauses =>
      if p.canceling then p
      else if p.active.None? then p.(queuePaused := true)
      else With(p.(queuePaused := true), Paused(p.active.value, User))
    case UserResumes(vpn) => ResumeAll(p, vpn)
    case UserCancels => p.(canceling := true, queuePaused := false)
    case JobEnds(othersWait, next) =>
      if p.active.None? then p
      else if !othersWait then Post(false, false, None)
      else if p.queuePaused || p.canceling || next.None? then p.(active := None)
      else p.(active := Some(next.value.(isPaused := false, reason := Running, timerSet := false)))
    case JobStarts(job) =>
      if p.active.Some? || p.queuePaused || p.canceling then p
      else p.(active := Some(job.(isPaused := false, reason := Running, timerSet := false)))
    case _ =>
      if p.active.None? then p else
        var job := p.active.value;
        match e
        case ConnectionEnds(con) =>
          if con in job.open then With(p, job.(open := job.open - {con}, closed := job.closed + {con})) else p
        case AllConnectionsLost =>
          if job.open != {} then p else With(p, Paused(job, ConnectionBackoff).(timerSet := true))
        case BackoffFires(vpn) =>
          if !job.timerSet then p
          else
            var job := job.(timerSet := false);
            if !job.isPaused || job.reason != ConnectionBackoff then With(p, job)
            else ResumeAll(With(p, job.(open := job.closed, closed := job.open)), vpn)
        case VpnInterrupted => With(p, Paused(job, VpnRecovery))
        case VpnStoppedByHand => With(p, Paused(job, User))
        case VpnConnected =>
          if p.queuePaused || p.canceling || !job.isPaused || job.reason != VpnRecovery then p
          else With(p, Resumed(job))
        case _ => p
  }

  function After(p: Post, events: seq<Event>): Post {
    if events == [] then p else Next(After(p, events[..|events| - 1]), events[|events| - 1])
  }

  // ---- What holds in every state ----

  /** A job runs if and only if it has no reason to pause; a paused queue with an active
      job was paused by the user; the two sets of connections never share one. */
  predicate Inv(p: Post) {
    && (p.active.Some? ==>
          && (p.active.value.isPaused <==> p.active.value.reason != Running)
          && p.active.value.open !! p.active.value.closed)
    && (p.queuePaused && p.active.Some? ==> p.active.value.reason == User)
    && (p.canceling ==> !p.queuePaused)
  }

  predicate StartsInOrder(e: Event) {
    && (e.JobEnds? && e.next.Some? ==> e.next.value.open !! e.next.value.closed)
    && (e.JobStarts? ==> e.job.open !! e.job.closed)
  }

  lemma NextKeepsInv(p: Post, e: Event)
    requires Inv(p) && StartsInOrder(e)
    ensures Inv(Next(p, e))
  {
  }

  /** From the start, through any events, the user's own included: a paused queue with an
      active job was paused by the user, and its job is paused for that reason and no other. */
  lemma {:induction false} PausedQueueIsTheUsers(events: seq<Event>)
    requires forall e | e in events :: StartsInOrder(e)
    ensures var q := After(Post(false, false, None), events);
            && Inv(q)
            && (q.queuePaused && q.active.Some? ==> q.active.value.isPaused && q.active.value.reason == User)
  {
    if events != [] {
      assert events[|events| - 1] in events;
      PausedQueueIsTheUsers(events[..|events| - 1]);
      NextKeepsInv(After(Post(false, false, None), events[..|events| - 1]), events[|events| - 1]);
    }
  }

  /** What the user does, and the end of the job itself. */
  predicate ByUserOrEnd(e: Event) {
    e.UserResumes? || e.UserCancels? || e.JobEnds?
  }

  lemma UserPauseHolds(p: Post, e: Event)
    requires Inv(p) && !ByUserOrEnd(e)
    requires p.active.Some? && p.active.value.isPaused && p.active.value.reason == User
    ensures var q := Next(p, e);
            && q.active.Some? && q.active.value.isPaused && q.active.value.reason == User
            && (p.queuePaused ==> q.queuePaused)
  {
  }

  /** No automatic event ends a user pause: through any number of backoff timeouts, VPN
      losses and recoveries and further pauses, the job stays paused for the user, and a
      paused queue stays paused. */
  lemma {:induction false} OnlyTheUserEndsAUserPause(p: Post, events: seq<Event>)
    requires Inv(p) && forall e | e in events :: StartsInOrder(e) && !ByUserOrEnd(e)
    requires p.active.Some? && p.active.value.isPaused && p.active.value.reason == User
    ensures var q := After(p, events);
            && Inv(q) && q.active.Some? && q.active.value.isPaused && q.active.value.reason == User
            && (p.queuePaused ==> q.queuePaused)
  {
    if events != [] {
      OnlyTheUserEndsAUserPause(p, events[..|events| - 1]);
      var e := events[|events| - 1];
      assert e in events;
      NextKeepsInv(After(p, events[..|events| - 1]), e);
      UserPauseHolds(After(p, events[..|events| - 1]), e);
    }
  }

  /** A queue paused between two jobs stays so as well: nothing starts. */
  lemma {:induction false} PausedQueueStartsNothing(p: Post, events: seq<Event>)
    requires Inv(p) && forall e | e in events :: StartsInOrder(e) && !ByUserOrEnd(e)
    requires p.active.None? && p.queuePaused
    ensures After(p, events) == p
  {
    if events != [] {
      PausedQueueStartsNothing(p, events[..|events| - 1]);
      assert events[|events| - 1] in events;
    }
  }

  /** A backoff timeout resumes the post exactly when nothing outranked the backoff since:
      the post is paused for that reason alone and is not being cancelled. */
  lemma BackoffResumesIff(p: Post, vpn: Vpn)
    requires Inv(p) && p.active.Some? && p.active.value.isPaused && p.active.value.timerSet
    ensures var q := Next(p, BackoffFires(vpn));
            && q.active.Some?
            && (!q.active.value.isPaused <==> p.active.value.reason == ConnectionBackoff && !p.canceling)
            && q.queuePaused == p.queuePaused
  {
  }

  /** No connection is lost or doubled by a pause, a swap or a resume, and a resumed post
      has connections again if it has any. */
  lemma ConnectionsAreKept(p: Post, e: Event)
    requires Inv(p) && p.active.Some? && !e.JobEnds?
    ensures var q := Next(p, e);
            && q.active.Some?
            && q.active.value.open + q.active.value.closed == p.active.value.open + p.active.value.closed
            && q.active.value.open !! q.active.value.closed
            && (p.active.value.isPaused && !q.active.value.isPaused && p.active.value.open + p.active.value.closed != {}
                ==> q.active.value.open != {})
  {
  }

  /** The order in which pauses pile up does not matter. */
  lemma PausesCommute(job: Job, a: Reason, b: Reason)
    requires job.isPaused && a != Running && b != Running
    ensures Paused(Paused(job, a), b) == Paused(Paused(job, b), a)
    ensures Paused(Paused(job, a), a) == Paused(job, a)
  {
  }

  // ---- What each event leads to ----

  /** Who may end a pause: the higher the reason, the fewer. */
  function Rank(reason: Reason): nat {
    match reason
    case Running => 0
    case ConnectionBackoff => 1
    case VpnRecovery => 2
    case User => 3
  }

  /** A pause keeps the higher of the two reasons, whatever the job was doing. */
  lemma PauseTakesHigher(job: Job, reason: Reason)
    requires reason != Running && (job.isPaused <==> job.reason != Running)
    ensures var q := Paused(job, reason);
            && q.isPaused && Rank(q.reason) == (if Rank(job.reason) < Rank(reason) then Rank(reason) else Rank(job.reason))
            && q.open == job.open && q.closed == job.closed
            && (q.timerSet <==> job.timerSet && (!job.isPaused || q.reason == ConnectionBackoff))
  {
  }

  /** Every event that calls for a pause makes one, with the higher reason; the loss of all
      connections also sets the backoff timer. Only a user's pause, outside a cancellation,
      pauses the queue. */
  lemma EventsPause(p: Post)
    requires Inv(p)
    ensures p.active.Some? ==>
              var job := p.active.value;
              && Next(p, VpnInterrupted) == p.(active := Some(Paused(job, VpnRecovery)))
              && Next(p, VpnStoppedByHand) == p.(active := Some(Paused(job, User)))
              && (job.open == {} ==>
                    var q := Next(p, AllConnectionsLost);
                    && q.active.Some? && q.active.value.timerSet && q.queuePaused == p.queuePaused
                    && q.active.value.(timerSet := false) == Paused(job, ConnectionBackoff).(timerSet := false))
              && (job.open != {} ==> Next(p, AllConnectionsLost) == p)
    ensures var q := Next(p, UserPauses);
            && (p.canceling ==> q == p)
            && (!p.canceling ==> q.queuePaused && (p.active.Some? ==> q.active == Some(Paused(p.active.value, User))))
            && (p.active.None? ==> q.active.None?)
  {
  }

  /** The tunnel is managed by ngPost and not up. */
  predicate Down(vpn: Vpn) { vpn.managed && !vpn.healthy }

  /** A user's resume lets the active job go on, unless it waits for a VPN that is down: it
      is paused for that already, or needs it and is not let through. It then stays paused,
      for the VPN from now on if the VPN is coming up. The queue resumes with the job, or
      when the job only waits for the VPN from now on. */
  lemma UserResumesIff(p: Post, vpn: Vpn)
    requires Inv(p) && !p.canceling && p.active.Some? && p.active.value.isPaused
    ensures var job, q := p.active.value, Next(p, UserResumes(vpn));
            var blocked := job.reason == User && job.needsVpn && (vpn.stopping || vpn.admission != Proceed);
            var waits := blocked && Down(vpn) && !vpn.stopping && vpn.admission == Wait;
            && q.active.Some?
            && (!q.active.value.isPaused <==> !(Down(vpn) && (blocked || job.reason == VpnRecovery)))
            && (q.active.value.isPaused ==>
                  q.active.value == if waits then job.(reason := VpnRecovery) else job)
            && (q.queuePaused <==> p.queuePaused && q.active.value.isPaused && !waits)
  {
  }

  /** With no job to ask, it just ends the pause of the queue; while everything is being
      cancelled nothing changes. */
  lemma UserResumesQueue(p: Post, vpn: Vpn)
    requires Inv(p) && (p.canceling || p.active.None? || !p.active.value.isPaused)
    ensures Next(p, UserResumes(vpn)) == if p.canceling then p else p.(queuePaused := false)
  {
  }

  /** A connection that ends is set aside. The backoff timer, while the backoff is the reason
      to pause, brings back all that were, at once or with the resume that follows; under
      any other reason it only expires. */
  lemma ConnectionsComeBack(p: Post, con: nat, vpn: Vpn)
    requires Inv(p) && p.active.Some?
    ensures var job, q := p.active.value, Next(p, ConnectionEnds(con));
            && q.active.Some? && (con in job.open ==> con in q.active.value.closed && con !in q.active.value.open)
            && (con !in job.open ==> q == p)
    ensures var job, q := p.active.value, Next(p, BackoffFires(vpn));
            job.timerSet ==>
              && q.active.Some? && !q.active.value.timerSet
              && (job.reason == ConnectionBackoff && job.open == {} ==>
                    q.active.value.open == job.closed && q.active.value.closed == {})
              && (job.reason != ConnectionBackoff ==> q == p.(active := Some(job.(timerSet := false))))
    ensures !p.active.value.timerSet ==> Next(p, BackoffFires(vpn)) == p
  {
  }

  /** The VPN that is up again resumes exactly what was paused for it, and only in a queue
      that is neither paused nor being cancelled. */
  lemma VpnResumesIff(p: Post)
    requires Inv(p) && p.active.Some?
    ensures var job, q := p.active.value, Next(p, VpnConnected);
            && (q != p <==> job.reason == VpnRecovery && !p.queuePaused && !p.canceling)
            && (q != p ==> q.active.Some? && !q.active.value.isPaused && q.queuePaused == p.queuePaused)
  {
  }

  /** The next job runs from the start, unless the queue is paused or being cancelled; when
      no other waits, the pause and the cancellation are over. */
  lemma NextJobRunsIff(p: Post, othersWait: bool, next: Option<Job>)
    requires Inv(p) && p.active.Some?
    ensures var q := Next(p, JobEnds(othersWait, next));
            && (q.active.Some? <==> othersWait && !p.queuePaused && !p.canceling && next.Some?)
            && (q.active.Some? ==> !q.active.value.isPaused && q.active.value.reason == Running)
            && q.queuePaused == (p.queuePaused && othersWait) && q.canceling == (p.canceling && othersWait)
    ensures forall job :: var q := Next(p.(active := None), JobStarts(job));
              && (q.active.Some? <==> !p.queuePaused && !p.canceling)
              && (q.active.Some? ==> !q.active.value.isPaused && q.active.value.open == job.open)
    ensures Next(p.(active := None), UserCancels).canceling && !Next(p, UserCancels).queuePaused
  {
  }

  // ---- The object ----

  /** The pause state of a posting job, as its methods change it. */
  class PostingPause {
    var isPaused: bool
    var pauseReason: Reason
    var resumeTimer: bool
    const needsVpn: bool
    var nntpConnections: set<nat>
    var closedConnections: set<nat>

    function View(): Job
      reads this
    {
      Job(isPaused, pauseReason, resumeTimer, needsVpn, nntpConnections, closedConnections)
    }

    constructor (connections: set<nat>, needsVpn: bool)
      ensures View() == Job(false, Running, false, needsVpn, connections, {})
    {
      isPaused, pauseReason, resumeTimer, this.needsVpn := false, Running, false, needsVpn;
      nntpConnections, closedConnections := connections, {};
    }

    method Pause(reason: Reason)
      modifies this`isPaused, this`pauseReason, this`resumeTimer
      ensures View() == Paused(old(View()), reason)
    {
      if isPaused {
        pauseReason := MergedReason(pauseReason, reason);
        if pauseReason != ConnectionBackoff {
          resumeTimer := false;
        }
        return;
      }
      isPaused := true;
      pauseReason := reason;
    }

    method Resume()
      modifies this
      ensures View() == Resumed(old(View()))
    {
      if !isPaused {
        return;
      }
      isPaused := false;
      pauseReason := Running;
      if nntpConnections == {} && closedConnections != {} {
        nntpConnections, closedConnections := closedConnections, nntpConnections;
      }
    }

    method ResumeIfPausedFor(reason: Reason) returns (resumed: bool)
      modifies this
      ensures resumed <==> old(isPaused) && old(pauseReason) == reason
      ensures View() == if resumed then Resumed(old(View())) else old(View())
    {
      if !isPaused || pauseReason != reason {
        return false;
      }
      Resume();
      return true;
    }

    method WaitForVpnAfterUserResume() returns (waits: bool)
      modifies this`pauseReason
      ensures waits <==> old(isPaused) && old(pauseReason) == User
      ensures View() == if waits then old(View()).(reason := VpnRecovery) else old(View())
    {
      if !isPaused || pauseReason != User {
        return false;
      }
      pauseReason := VpnRecovery;
      return true;
    }
  }
}
