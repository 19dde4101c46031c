/** The queue object, slot by slot, against `Scheduler` (src/NgPost.cpp). */
module PostingJobQueue {
  import opened Options
  import opened Scheduler

  class PostingQueue {
    var activeJob: Option<JobId>
    var pendingJobs: seq<JobId>
    var packingJob: Option<JobId>
    var queuePaused: bool
    var cancelingAll: bool
    var jobs: map<JobId, Job>

    function View(): Queue
      reads this
    {
      Queue(activeJob, pendingJobs, packingJob, queuePaused, cancelingAll, jobs)
    }

    constructor ()
      ensures View() == EMPTY && Inv(View())
    {
      activeJob, pendingJobs, packingJob := None, [], None;
      queuePaused, cancelingAll, jobs := false, false, map[];
    }

    method PrepareNextPacking()
      requires Inv(View()) && packingJob.None?
      modifies this`packingJob, this`jobs
      ensures Inv(View()) && View() == PrepareNext(old(View()))
    {
      PrepareKeeps(View());
      if !queuePaused && !cancelingAll && pendingJobs != [] {
        packingJob := Some(pendingJobs[0]);
        if jobs[pendingJobs[0]].hasPacking {
          jobs := jobs[pendingJobs[0] := jobs[pendingJobs[0]].(called := true)];
        }
      }
    }

    method StartNextPostingJob(admission: Admission)
      requires Inv(View())
      modifies this`activeJob, this`pendingJobs, this`packingJob, this`jobs
      ensures Inv(View()) && View() == StartNext(old(View()), admission)
    {
      StartNextKeeps(View(), admission);
      if activeJob.Some? || queuePaused || cancelingAll || pendingJobs == [] || admission != Proceed {
        return;
      }
      NextActiveIsThePackedOne(View());
      ghost var before := View();
      var job := pendingJobs[0];
      var record := jobs[job];
      assert RoleOk(before, job);
      activeJob, pendingJobs := Some(job), pendingJobs[1..];
      var wasPacking := packingJob.Some?;
      packingJob := None;
      if wasPacking && record.packed {
        jobs := jobs[job := PostFiles(record)];
        ActivateKeeps(before, PostFiles(record));
        PrepareNextPacking();
      } else if wasPacking && record.hasPacking {
        // Its end is awaited: it is the active job now.
      } else {
        jobs := jobs[job := record.(called := true)];
        ActivateKeeps(before, record.(called := true));
        if !record.hasPacking {
          PrepareNextPacking();
        }
      }
    }

    method StartPostingJob(job: JobId, hasPacking: bool, admission: Admission) returns (started: bool)
      requires Inv(View()) && job !in jobs
      modifies this`activeJob, this`pendingJobs, this`packingJob, this`jobs
      ensures Inv(View()) && View() == Submitted(old(View()), job, hasPacking, admission)
      ensures started <==> !cancelingAll && activeJob == Some(job)
    {
      SubmitKeeps(View(), job, hasPacking, admission);
      if cancelingAll || admission == Refused {
        return false;
      }
      ghost var before := View();
      jobs := jobs[job := NewJob(hasPacking)];
      if admission != Proceed || activeJob.Some? || queuePaused {
        pendingJobs := pendingJobs + [job];
        EnqueueKeeps(before, job, hasPacking);
        if admission == Proceed && activeJob.Some? && jobs[activeJob.value].packed && packingJob.None? {
          PrepareNextPacking();
        }
        return false;
      }
      activeJob := Some(job);
      jobs := jobs[job := jobs[job].(called := true)];
      return true;
    }

    method OnPackingDone(job: JobId)
      requires Inv(View()) && job in jobs && jobs[job].announced
      modifies this`packingJob, this`jobs
      ensures Inv(View()) && View() == Scheduler.OnPackingDone(old(View()), job)
    {
      PackingDoneKeeps(View(), job);
      assert RoleOk(View(), job);
      SetKeeps(View(), job, jobs[job].(announced := false));
      jobs := jobs[job := jobs[job].(announced := false)];
      if activeJob == Some(job) && packingJob.None? {
        if jobs[job].transfers == 0 {
          SetKeeps(View(), job, PostFiles(jobs[job]));
          jobs := jobs[job := PostFiles(jobs[job])];
        }
        PrepareNextPacking();
      }
    }

    method RemovePending(job: JobId)
      modifies this`pendingJobs
      ensures pendingJobs == Without(old(pendingJobs), job)
    {
      var i := 0;
      while i < |pendingJobs| && pendingJobs[i] != job
        invariant 0 <= i <= |pendingJobs|
        invariant Without(pendingJobs, job) == pendingJobs[..i] + Without(pendingJobs[i..], job)
      {
        assert pendingJobs[i..][1..] == pendingJobs[i + 1..];
        i := i + 1;
      }
      if i < |pendingJobs| {
        assert pendingJobs[i..][1..] == pendingJobs[i + 1..];
        pendingJobs := pendingJobs[..i] + pendingJobs[i + 1..];
      } else {
        assert pendingJobs[..i] == pendingJobs && pendingJobs[i..] == [];
      }
    }

    method OnPostingJobFinished(job: JobId, admission: Admission)
      requires Inv(View()) && job in jobs && jobs[job].finishing
      modifies this
      ensures Inv(View()) && View() == OnJobFinished(old(View()), job, admission)
    {
      hide Inv, RoleOk, StartNext, PrepareNext, Without;
      FinishKeeps(View(), job, admission);
      ToldKeeps(View(), job);
      jobs := jobs[job := jobs[job].(finishing := false)];
      LeftKeeps(View(), job);
      if activeJob == Some(job) {
        activeJob := None;
        StartNextPostingJob(admission);
      } else if packingJob == Some(job) && pendingJobs != [] {
        packingJob := None;
        pendingJobs := pendingJobs[1..];
        PrepareNextPacking();
      } else {
        RemovePending(job);
      }
      if activeJob.None? && pendingJobs == [] {
        queuePaused, cancelingAll := false, false;
      }
    }

    method Resume(activeResumes: bool, waitsForVpn: bool, admission: Admission)
      requires Inv(View())
      modifies this
      ensures Inv(View()) && View() == Resumed(old(View()), activeResumes, waitsForVpn, admission)
    {
      ResumeKeeps(View(), activeResumes, waitsForVpn, admission);
      if cancelingAll {
        return;
      }
      if activeJob.Some? && !activeResumes {
        if waitsForVpn {
          queuePaused := false;
        }
        return;
      }
      FlagsKeep(View(), false, cancelingAll);
      queuePaused := false;
      StartNextPostingJob(admission);
      if packingJob.None? && activeJob.Some? && jobs[activeJob.value].packed {
        PrepareNextPacking();
      }
    }
  }
}
