/**
 * The decisions the HTTP handlers of the job queue make: `generate`,
 * `status`, `get_result`, `job_next` and `job_complete` in app.py. Replies
 * carry the handler's HTTP status code; framework plumbing (JSON decoding,
 * `send_from_directory`, saving the uploaded file) is not modelled.
 */
module Api {
  import opened Wrappers
  import opened Jobs
  import opened Store

  /** The error text of the status and result endpoints for an unknown id. */
  const NotFoundMessage := "not found"

  // ---- generate ----

  datatype GenerateReply = MissingPrompt | Enqueued(jobId: string) {
    function Code(): int {
      match this
      case MissingPrompt => 400
      case Enqueued(_) => 201
    }
    function Message(): string {
      match this
      case MissingPrompt => "missing prompt"
      case Enqueued(_) => ""
    }
  }

  /** The guard `if not prompt`: the prompt to enqueue, or `None` when it is missing or empty. */
  function AcceptedPrompt(prompt: Option<string>): Option<string>
  {
    if Truthy(prompt) then prompt else None
  }

  /**
   * `generate`: a missing or empty prompt is refused with 400 and creates no
   * job; otherwise one queued job is created under `freshId` (the id
   * `uuid4` would draw) and its id returned with 201.
   */
  method Generate(store: JobStore, prompt: Option<string>, meta: Option<Meta>, freshId: string, now: nat)
    returns (reply: GenerateReply)
    requires store.Valid() && freshId !in store.jobs && |freshId| == IdLength
    modifies store
    ensures store.Valid()
    ensures reply.MissingPrompt? <==> !Truthy(prompt)
    ensures reply.MissingPrompt? ==> store.jobs == old(store.jobs) && store.order == old(store.order)
    ensures reply.Enqueued? ==>
      && reply.jobId == freshId
      && store.jobs == old(store.jobs)[freshId := Created(freshId, prompt.value, meta, now)]
      && store.order == old(store.order) + [freshId]
  {
    var accepted := AcceptedPrompt(prompt);
    if accepted.None? {
      return MissingPrompt;
    }
    var job := store.NewJob(freshId, accepted.value, meta, now);
    return Enqueued(job.id);
  }

  // ---- status ----

  /** A job record without its `meta` entry: what the status endpoint returns. */
  datatype JobView = JobView(
    id: string,
    prompt: string,
    status: Status,
    createdAt: nat,
    startedAt: Option<nat>,
    finishedAt: Option<nat>,
    result: Option<JobResult>,
    workerId: Option<string>,
    error: Option<string>)

  /** Puts a `meta` entry back into a view. */
  function WithMeta(v: JobView, meta: Meta): (j: Job)
    ensures j.meta == meta
  {
    Job(v.id, v.prompt, meta, v.status, v.createdAt, v.startedAt, v.finishedAt, v.result, v.workerId, v.error)
  }

  /** `{k: v for k, v in job.items() if k != "meta"}`: every entry but `meta`, unchanged. */
  function ViewOf(j: Job): (v: JobView)
    ensures WithMeta(v, j.meta) == j
  {
    JobView(j.id, j.prompt, j.status, j.createdAt, j.startedAt, j.finishedAt, j.result, j.workerId, j.error)
  }

  datatype StatusReply = StatusNotFound | StatusOk(view: JobView) {
    function Code(): int {
      match this
      case StatusNotFound => 404
      case StatusOk(_) => 200
    }
    function Message(): string {
      match this
      case StatusNotFound => NotFoundMessage
      case StatusOk(_) => ""
    }
  }

  /** `status`: 404 "not found" for an unknown id, else the record minus `meta`. */
  function StatusOf(jobs: map<string, Job>, id: string): (r: StatusReply)
    ensures r.StatusNotFound? <==> id !in jobs
    ensures r.StatusOk? ==> WithMeta(r.view, jobs[id].meta) == jobs[id]
  {
    if id !in jobs then StatusNotFound else StatusOk(ViewOf(jobs[id]))
  }

  /** The `meta` payload never shows in the status reply. */
  lemma StatusIgnoresMeta(jobs: map<string, Job>, id: string, meta: Meta)
    requires id in jobs
    ensures StatusOf(jobs[id := jobs[id].(meta := meta)], id) == StatusOf(jobs, id)
  {
  }

  // ---- get_result ----

  datatype ResultReply = ResultNotFound | ResultNotReady | ServeFile(file: string) | ResultUrl(url: string) {
    function Code(): int {
      match this
      case ResultNotFound => 404
      case ResultNotReady => 404
      case _ => 200
    }
    function Message(): string {
      match this
      case ResultNotFound => NotFoundMessage
      case ResultNotReady => "result not ready"
      case _ => ""
    }
  }

  /** What the code guarantees `get_result` before it reads `job["result"]["file"]`. */
  ghost predicate DoneHasResult(jobs: map<string, Job>, id: string) {
    id in jobs && jobs[id].status == Done ==> jobs[id].result.Some?
  }

  /**
   * `get_result`: unknown id, then "result not ready" for any job that is
   * not done, then the stored file when `result.file` is non-empty, else the
   * recorded URL.
   */
  function GetResult(jobs: map<string, Job>, id: string): (r: ResultReply)
    requires DoneHasResult(jobs, id)
    ensures r.ResultNotFound? <==> id !in jobs
    ensures r.ResultNotReady? <==> id in jobs && jobs[id].status != Done
    ensures r.ServeFile? <==> id in jobs && jobs[id].status == Done && Truthy(jobs[id].result.value.file)
    ensures r.ServeFile? ==> jobs[id].result.value.file == Some(r.file)
    ensures r.ResultUrl? ==> jobs[id].result.value.url == r.url
    ensures r.Code() == 404 <==> id !in jobs || jobs[id].status != Done
  {
    if id !in jobs then ResultNotFound
    else if jobs[id].status != Done then ResultNotReady
    else if Truthy(jobs[id].result.value.file) then ServeFile(jobs[id].result.value.file.value)
    else ResultUrl(jobs[id].result.value.url)
  }

  /** A store that satisfies its invariant never makes `get_result` read a missing result. */
  lemma ValidStoreHasResults(store: JobStore, id: string)
    requires store.Valid()
    ensures DoneHasResult(store.jobs, id)
  {
  }

  /** After an upload completes a job, `get_result` serves that file. */
  lemma ResultAfterUpload(jobs: map<string, Job>, id: string, fileName: string, now: nat)
    requires id in jobs && fileName != ""
    ensures DoneHasResult(jobs[id := CompletedWithFile(jobs[id], fileName, now)], id)
    ensures GetResult(jobs[id := CompletedWithFile(jobs[id], fileName, now)], id) == ServeFile(fileName)
  {
  }

  /** After a worker reports a URL, `get_result` returns that URL. */
  lemma ResultAfterUrl(jobs: map<string, Job>, id: string, url: string, now: nat)
    requires id in jobs
    ensures DoneHasResult(jobs[id := CompletedWithUrl(jobs[id], url, now)], id)
    ensures GetResult(jobs[id := CompletedWithUrl(jobs[id], url, now)], id) == ResultUrl(url)
  {
  }

  /** Failing a job withdraws its result from `get_result`, though the record keeps it. */
  lemma ResultAfterFailure(jobs: map<string, Job>, id: string, message: string, now: nat)
    requires id in jobs
    ensures FailedWith(jobs[id], message, now).result == jobs[id].result
    ensures GetResult(jobs[id := FailedWith(jobs[id], message, now)], id) == ResultNotReady
  {
  }

  /** Results of one job do not depend on, and do not disturb, any other job. */
  lemma ResultOfOtherJobUnchanged(jobs: map<string, Job>, id: string, other: string, j: Job)
    requires id != other && DoneHasResult(jobs, other)
    ensures DoneHasResult(jobs[id := j], other)
    ensures GetResult(jobs[id := j], other) == GetResult(jobs, other)
  {
  }

  // ---- job_next ----

  datatype NextReply = NoJobQueued | Assigned(job: Job) {
    function Code(): int {
      match this
      case NoJobQueued => 204
      case Assigned(_) => 200
    }
  }

  /** `body.get("worker_id") or request.remote_addr`. */
  function WorkerIdentity(given: Option<string>, remoteAddr: string): string
  {
    if Truthy(given) then given.value else remoteAddr
  }

  /** `job_next`: claim for the named worker (or the caller's address); 204 when nothing is queued. */
  method JobNext(store: JobStore, given: Option<string>, remoteAddr: string, now: nat) returns (reply: NextReply)
    requires store.Valid()
    modifies store
    ensures store.Valid() && store.order == old(store.order)
    ensures Covers(old(store.order), old(store.jobs))
    ensures FirstQueued(old(store.order), old(store.jobs)).None? ==>
      reply == NoJobQueued && store.jobs == old(store.jobs)
    ensures FirstQueued(old(store.order), old(store.jobs)).Some? ==>
      var id := old(store.order)[FirstQueued(old(store.order), old(store.jobs)).value];
      && reply == Assigned(Claimed(old(store.jobs)[id], WorkerIdentity(given, remoteAddr), now))
      && store.jobs == old(store.jobs)[id := reply.job]
  {
    var claimed := store.Claim(WorkerIdentity(given, remoteAddr), now);
    if claimed.None? {
      return NoJobQueued;
    }
    return Assigned(claimed.value);
  }

  // ---- job_complete ----

  datatype CompleteReply = JobNotFound | NoModelProvided | StoredFile(file: string) | StoredUrl(url: string) {
    function Code(): int {
      match this
      case JobNotFound => 404
      case NoModelProvided => 400
      case _ => 200
    }
    function Message(): string {
      match this
      case JobNotFound => "job not found"
      case NoModelProvided => "no model provided"
      case _ => "ok"
    }
  }

  /** `f"{job_id}__{filename}"`, the name under which an uploaded artifact is stored. */
  function ArtifactName(id: string, safeName: string): (n: string)
    ensures |n| == |id| + 2 + |safeName|
    ensures n[..|id|] == id && n[|id|..|id| + 2] == "__" && n[|id| + 2..] == safeName
  {
    id + "__" + safeName
  }

  /** Two jobs of one store never store their artifacts under the same name. */
  lemma ArtifactNamesDistinct(id1: string, id2: string, safe1: string, safe2: string)
    requires |id1| == IdLength && |id2| == IdLength && id1 != id2
    ensures ArtifactName(id1, safe1) != ArtifactName(id2, safe2)
  {
  }

  /**
   * `job_complete`. An unknown id is refused with 404. An uploaded `model`
   * file wins over `model_url`: it is stored as `<id>__<secure(name)>`, that
   * name becomes `result.file`, and the reply points at `/result/<id>`. A
   * non-empty `model_url` makes the job done with that URL. Otherwise 400
   * "no model provided" and nothing changes. No branch checks the job's
   * current status. `secure` stands for `werkzeug.secure_filename`.
   */
  method JobComplete(store: JobStore, id: string, upload: Option<string>, modelUrl: Option<string>,
                     secure: string -> string, now: nat) returns (reply: CompleteReply)
    requires store.Valid()
    modifies store
    ensures store.Valid() && store.order == old(store.order)
    ensures id !in old(store.jobs) ==> reply == JobNotFound && store.jobs == old(store.jobs)
    ensures id in old(store.jobs) && upload.Some? ==>
      && reply == StoredFile(RetrievalUrl(id))
      && store.jobs == old(store.jobs)[id := CompletedWithFile(old(store.jobs)[id], ArtifactName(id, secure(upload.value)), now)]
    ensures id in old(store.jobs) && upload.None? && Truthy(modelUrl) ==>
      && reply == StoredUrl(modelUrl.value)
      && store.jobs == old(store.jobs)[id := CompletedWithUrl(old(store.jobs)[id], modelUrl.value, now)]
    ensures id in old(store.jobs) && upload.None? && !Truthy(modelUrl) ==>
      reply == NoModelProvided && store.jobs == old(store.jobs)
  {
    if id !in store.jobs {
      return JobNotFound;
    }
    if upload.Some? {
      var outName := ArtifactName(id, secure(upload.value));
      var _ := store.MarkDone(id, outName, now);
      return StoredFile(RetrievalUrl(id));
    }
    if Truthy(modelUrl) {
      store.MarkDoneWithUrl(id, modelUrl.value, now);
      return StoredUrl(modelUrl.value);
    }
    return NoModelProvided;
  }
}
