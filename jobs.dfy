/**
 * Job records of the worker queue (app.py, `new_job` and the three
 * record-updating functions) and the transitions applied to one record.
 * Timestamps are a natural-number clock value supplied by the caller.
 */
module Jobs {
  import opened Wrappers

  /** Opaque key-value payload supplied at creation; values are abstracted as strings. */
  type Meta = map<string, string>

  datatype Status = Queued | Running | Done | Failed

  /** `{"file": ..., "url": ...}`; `file` is `None` when the result is an external URL. */
  datatype JobResult = JobResult(file: Option<string>, url: string)

  datatype Job = Job(
    id: string,
    prompt: string,
    meta: Meta,
    status: Status,
    createdAt: nat,
    startedAt: Option<nat>,
    finishedAt: Option<nat>,
    result: Option<JobResult>,
    workerId: Option<string>,
    error: Option<string>)

  /** Length of `uuid.uuid4().hex`, the form every job id takes. */
  const IdLength: nat := 32

  const ResultRoute := "/result/"

  /** The retrieval path `/result/<id>` recorded for an uploaded artifact. */
  function RetrievalUrl(id: string): (u: string)
    ensures |u| == |ResultRoute| + |id|
    ensures u[..|ResultRoute|] == ResultRoute && u[|ResultRoute|..] == id
  {
    ResultRoute + id
  }

  /** `meta or {}`: an absent payload (or an empty one) becomes the empty map. */
  function MetaOrEmpty(meta: Option<Meta>): Meta
  {
    match meta
    case None => map[]
    case Some(given) => given
  }

  /**
   * The bookkeeping the code keeps for every record. Nothing moves a job
   * back to `queued`, so a queued job has never been touched; `claim` is the
   * only writer of `worker_id`/`started_at` and writes both; `done` and
   * `failed` always write `finished_at` together with `result` or `error`.
   * It is deliberately NOT "result iff done": failing a done job keeps its
   * result, and completing a failed job keeps its error.
   */
  ghost predicate Consistent(j: Job) {
    && (j.status == Queued ==>
          j.startedAt.None? && j.finishedAt.None? && j.result.None? && j.workerId.None? && j.error.None?)
    && (j.status == Running ==>
          j.workerId.Some? && j.finishedAt.None? && j.result.None? && j.error.None?)
    && (j.status == Done ==> j.result.Some? && j.finishedAt.Some?)
    && (j.status == Failed ==> j.error.Some? && j.finishedAt.Some?)
    && (j.workerId.Some? <==> j.startedAt.Some?)
  }

  /** The record `new_job` builds. */
  function Created(id: string, prompt: string, meta: Option<Meta>, now: nat): (j: Job)
    ensures j.id == id && j.prompt == prompt && j.meta == MetaOrEmpty(meta)
    ensures j.status == Queued && j.createdAt == now
    ensures j.startedAt.None? && j.finishedAt.None? && j.result.None?
    ensures j.workerId.None? && j.error.None?
    ensures Consistent(j)
  {
    Job(id, prompt, MetaOrEmpty(meta), Queued, now, None, None, None, None, None)
  }

  /** The claim step of `next_queued_job_and_claim`, applied to a queued record. */
  function Claimed(j: Job, workerId: string, now: nat): (c: Job)
    ensures c.status == Running && c.startedAt == Some(now) && c.workerId == Some(workerId)
    ensures c == j.(status := Running, startedAt := Some(now), workerId := Some(workerId))
    ensures j.status == Queued && Consistent(j) ==> Consistent(c)
  {
    j.(status := Running, startedAt := Some(now), workerId := Some(workerId))
  }

  /** `update_job_done`: whatever the prior status, the job becomes done with a stored artifact. */
  function CompletedWithFile(j: Job, fileName: string, now: nat): (d: Job)
    ensures d.status == Done && d.finishedAt == Some(now)
    ensures d.result == Some(JobResult(Some(fileName), RetrievalUrl(j.id)))
    ensures d.(status := j.status, finishedAt := j.finishedAt, result := j.result) == j
    ensures Consistent(j) ==> Consistent(d)
  {
    j.(status := Done, finishedAt := Some(now), result := Some(JobResult(Some(fileName), RetrievalUrl(j.id))))
  }

  /** The `model_url` branch of `job_complete`: done, with an externally hosted result. */
  function CompletedWithUrl(j: Job, url: string, now: nat): (d: Job)
    ensures d.status == Done && d.finishedAt == Some(now)
    ensures d.result == Some(JobResult(None, url))
    ensures d.(status := j.status, finishedAt := j.finishedAt, result := j.result) == j
    ensures Consistent(j) ==> Consistent(d)
  {
    j.(status := Done, finishedAt := Some(now), result := Some(JobResult(None, url)))
  }

  /** `update_job_failed`: failed with a message; `result` and `worker_id` are left as they were. */
  function FailedWith(j: Job, message: string, now: nat): (f: Job)
    ensures f.status == Failed && f.finishedAt == Some(now) && f.error == Some(message)
    ensures f.result == j.result && f.workerId == j.workerId && f.startedAt == j.startedAt
    ensures f.(status := j.status, finishedAt := j.finishedAt, error := j.error) == j
    ensures Consistent(j) ==> Consistent(f)
  {
    j.(status := Failed, finishedAt := Some(now), error := Some(message))
  }

  /** Every id in the scan order has a record. */
  ghost predicate Covers(order: seq<string>, jobs: map<string, Job>) {
    forall k | 0 <= k < |order| :: order[k] in jobs
  }

  /**
   * Index in `order` of the first queued job at or after `from`: the scan of
   * `JOBS.values()` in insertion order.
   */
  function FirstQueuedFrom(order: seq<string>, jobs: map<string, Job>, from: nat): (r: Option<nat>)
    requires Covers(order, jobs) && from <= |order|
    ensures r.None? <==> forall k | from <= k < |order| :: jobs[order[k]].status != Queued
    ensures r.Some? ==> from <= r.value < |order| && jobs[order[r.value]].status == Queued
    ensures r.Some? ==> forall k | from <= k < r.value :: jobs[order[k]].status != Queued
    decreases |order| - from
  {
    if from == |order| then None
    else if jobs[order[from]].status == Queued then Some(from)
    else FirstQueuedFrom(order, jobs, from + 1)
  }

  /** The position of the job a claim takes, or `None` when nothing is queued. */
  function FirstQueued(order: seq<string>, jobs: map<string, Job>): (r: Option<nat>)
    requires Covers(order, jobs)
    ensures r.None? <==> forall k | 0 <= k < |order| :: jobs[order[k]].status != Queued
    ensures r.Some? ==> r.value < |order| && jobs[order[r.value]].status == Queued
    ensures r.Some? ==> forall k | 0 <= k < r.value :: jobs[order[k]].status != Queued
  {
    FirstQueuedFrom(order, jobs, 0)
  }

  /** The ids of the queued jobs. */
  function QueuedIds(jobs: map<string, Job>): set<string> {
    set id | id in jobs && jobs[id].status == Queued
  }

  /** Claiming one queued job removes exactly that id from the queued set. */
  lemma ClaimDropsOneQueued(jobs: map<string, Job>, id: string, workerId: string, now: nat)
    requires id in jobs && jobs[id].status == Queued
    ensures QueuedIds(jobs[id := Claimed(jobs[id], workerId, now)]) == QueuedIds(jobs) - {id}
    ensures |QueuedIds(jobs[id := Claimed(jobs[id], workerId, now)])| == |QueuedIds(jobs)| - 1
  {
  }

  /**
   * FIFO: a job appended to the scan order is claimed only when none of the
   * jobs created before it is still queued.
   */
  lemma {:induction false} FirstQueuedAppend(order: seq<string>, jobs: map<string, Job>, id: string, j: Job)
    requires Covers(order, jobs) && id !in order && j.status == Queued
    ensures Covers(order + [id], jobs[id := j])
    ensures FirstQueued(order + [id], jobs[id := j])
         == if FirstQueued(order, jobs).Some? then FirstQueued(order, jobs) else Some(|order|)
  {
    var order', jobs' := order + [id], jobs[id := j];
    forall k | 0 <= k < |order|
      ensures order'[k] == order[k] && jobs'[order'[k]] == jobs[order[k]]
    {
      assert order[k] in order;
    }
    var before, after := FirstQueued(order, jobs), FirstQueued(order', jobs');
    if before.Some? {
      assert after.Some? && after.value <= before.value;
    } else {
      assert jobs'[order'[|order|]].status == Queued;
    }
  }
}
