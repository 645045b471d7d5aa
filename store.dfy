/**
 * The shared `JOBS` dictionary of app.py as an object. Python dicts iterate
 * in insertion order, so the store keeps the ids in that order beside the
 * map from id to record. Every operation is one atomic step (the code holds
 * `JOBS_LOCK` for it).
 */
module Store {
  import opened Wrappers
  import opened Jobs

  class JobStore {
    /** Job ids in insertion order. */
    var order: seq<string>
    /** Job id to job record. */
    var jobs: map<string, Job>

    ghost predicate Valid()
      reads this
    {
      && (forall i, k | 0 <= i < k < |order| :: order[i] != order[k])
      && (forall id :: id in jobs <==> id in order)
      && (forall id | id in jobs :: jobs[id].id == id && |id| == IdLength && Consistent(jobs[id]))
    }

    constructor ()
      ensures Valid()
      ensures order == [] && jobs == map[]
    {
      order := [];
      jobs := map[];
    }

    /**
     * `new_job`: one new queued record under a fresh id, appended to the
     * insertion order; every existing record is unchanged.
     */
    method NewJob(id: string, prompt: string, meta: Option<Meta>, now: nat) returns (job: Job)
      requires Valid()
      requires id !in jobs && |id| == IdLength
      modifies this
      ensures Valid()
      ensures job == Created(id, prompt, meta, now)
      ensures jobs == old(jobs)[id := job] && order == old(order) + [id]
      ensures |QueuedIds(jobs)| == |QueuedIds(old(jobs))| + 1
    {
      job := Created(id, prompt, meta, now);
      assert QueuedIds(jobs[id := job]) == QueuedIds(jobs) + {id};
      jobs := jobs[id := job];
      order := order + [id];
    }

    /**
     * `next_queued_job_and_claim`: scans the records in insertion order and
     * moves the first queued one to running for `workerId`. With no queued
     * job nothing changes and `None` is returned.
     */
    method Claim(workerId: string, now: nat) returns (claimed: Option<Job>)
      requires Valid()
      modifies this
      ensures Valid() && order == old(order)
      ensures Covers(old(order), old(jobs))
      ensures FirstQueued(old(order), old(jobs)).None? ==> claimed.None? && jobs == old(jobs)
      ensures FirstQueued(old(order), old(jobs)).Some? ==>
        var id := old(order)[FirstQueued(old(order), old(jobs)).value];
        && claimed == Some(Claimed(old(jobs)[id], workerId, now))
        && jobs == old(jobs)[id := claimed.value]
        && |QueuedIds(jobs)| == |QueuedIds(old(jobs))| - 1
    {
      assert Covers(order, jobs) by {
        forall k | 0 <= k < |order| ensures order[k] in jobs {
          assert order[k] in order;
        }
      }
      var i := 0;
      while i < |order|
        invariant 0 <= i <= |order|
        invariant FirstQueued(order, jobs) == FirstQueuedFrom(order, jobs, i)
      {
        var id := order[i];
        var job := jobs[id];
        if job.status == Queued {
          var running := Claimed(job, workerId, now);
          ClaimDropsOneQueued(jobs, id, workerId, now);
          jobs := jobs[id := running];
          return Some(running);
        }
        i := i + 1;
      }
      return None;
    }

    /**
     * `update_job_done`: an unknown id changes nothing and yields `None`;
     * otherwise the job is done with the artifact `fileName`, whatever its
     * prior status, and no other job changes.
     */
    method MarkDone(id: string, fileName: string, now: nat) returns (updated: Option<Job>)
      requires Valid()
      modifies this
      ensures Valid() && order == old(order)
      ensures id !in old(jobs) ==> updated.None? && jobs == old(jobs)
      ensures id in old(jobs) ==>
        && updated == Some(CompletedWithFile(old(jobs)[id], fileName, now))
        && jobs == old(jobs)[id := updated.value]
    {
      if id !in jobs {
        return None;
      }
      var done := CompletedWithFile(jobs[id], fileName, now);
      jobs := jobs[id := done];
      return Some(done);
    }

    /**
     * `update_job_failed`: an unknown id changes nothing and yields `None`;
     * otherwise the job is failed with `message`, keeping its result and
     * worker, and no other job changes.
     */
    method MarkFailed(id: string, message: string, now: nat) returns (updated: Option<Job>)
      requires Valid()
      modifies this
      ensures Valid() && order == old(order)
      ensures id !in old(jobs) ==> updated.None? && jobs == old(jobs)
      ensures id in old(jobs) ==>
        && updated == Some(FailedWith(old(jobs)[id], message, now))
        && jobs == old(jobs)[id := updated.value]
    {
      if id !in jobs {
        return None;
      }
      var failed := FailedWith(jobs[id], message, now);
      jobs := jobs[id := failed];
      return Some(failed);
    }

    /**
     * The `model_url` branch of `job_complete`, which writes the record of a
     * job the handler has already found: done with an external URL.
     */
    method MarkDoneWithUrl(id: string, url: string, now: nat)
      requires Valid() && id in jobs
      modifies this
      ensures Valid() && order == old(order)
      ensures jobs == old(jobs)[id := CompletedWithUrl(old(jobs)[id], url, now)]
    {
      jobs := jobs[id := CompletedWithUrl(jobs[id], url, now)];
    }
  }
}
