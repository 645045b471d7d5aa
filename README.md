# Job queue of the Stagenix backend, in Dafny

This project models the in-memory job queue of the Stagenix backend (`app.py`)
and proves what each of its operations does to the queue.

Clients enqueue generation jobs from a text prompt. External workers poll for
the next queued job and claim it. When a worker finishes, it reports either an
uploaded model file or a URL. Clients then read the job's status and fetch its
result.

The model also covers the keyword heuristic `generate_objects_from_prompt`. It
turns a prompt into a list of named scene objects.

Modules:

- `Wrappers` (`wrappers.dfy`): `Option`, and Python truthiness of an optional string.
- `Jobs` (`jobs.dfy`): the job record, its four statuses, and the transition
  that each operation applies to one record. It also has the record invariant
  `Consistent`, the insertion-order scan that a claim performs
  (`FirstQueued`), and lemmas about claiming.
- `Store` (`store.dfy`): the shared `JOBS` dictionary as a class `JobStore`.
  It holds the ids in insertion order (Python dicts iterate in that order) and
  a map from id to record. Its methods are `new_job`,
  `next_queued_job_and_claim` (a loop over the insertion order),
  `update_job_done`, `update_job_failed` and the `model_url` write of
  `job_complete`. Every method keeps `Valid()` and states the whole new state
  in terms of the old one: which job changed, to what, and that no other job
  changed.
- `Api` (`api.dfy`): the handlers `generate`, `status`, `get_result`,
  `job_next` and `job_complete`, with their HTTP codes and error messages.
- `Scene` (`scene.dfy`): `generate_objects_from_prompt`.

The code is permissive, and the model follows it:

- Completing or failing a job never checks its current status.
- Failing a job keeps its `result`.
- Completing a failed job keeps its `error`.

So "result is set iff the job is done" is not an invariant of the code, and it
is not stated here. What the code does keep is proved as `Jobs.Consistent`:

- a queued job has never been touched;
- a running job has a worker and no result or error;
- a done job has a result;
- a failed job has an error;
- `worker_id` and `started_at` are always set together.

The code completes or fails a job whatever its status, so a done or failed
job can change status again. `JOBS[job_id] = job` would overwrite an existing
id. The model follows the code and assumes that `uuid4` draws a fresh id.

## Model

| member | source | states |
|---|---|---|
| `Jobs.Consistent` | app.py:168-217 | the bookkeeping every write keeps: a queued job has no start, finish, result, worker or error; a running job has a worker and no finish, result or error; a done job has a result and a finish time; a failed job has an error and a finish time; `worker_id` and `started_at` are set together. Each transition function proves it is kept |
| `Jobs.Created` | app.py:168-184 | a new record is queued, carries the id, prompt, `meta or {}` and creation time, has no start/finish time, result, worker or error, and satisfies the record invariant |
| `Jobs.Claimed` | app.py:190-193 | claiming sets status running, `started_at` and `worker_id` and nothing else; it keeps the record invariant for a queued record |
| `Jobs.RetrievalUrl` | app.py:205 | the recorded URL is `/result/` followed by exactly the job id |
| `Jobs.CompletedWithFile` | app.py:203-205 | done with `finished_at` and `result = {file, /result/<id>}`, from any prior status; every other field is unchanged; keeps the record invariant |
| `Jobs.CompletedWithUrl` | app.py:291-293 | done with `result = {file: None, url}`; every other field is unchanged; keeps the record invariant |
| `Jobs.FailedWith` | app.py:214-216 | failed with `finished_at` and `error`; `result`, `worker_id` and every other field are kept; keeps the record invariant |
| `Jobs.FirstQueuedFrom` | app.py:189-190 | the scan from a position finds the first queued job at or after it, or reports that none is queued there |
| `Jobs.FirstQueued` | app.py:187-195 | the claimed position is the first queued job in insertion order; `None` exactly when no job is queued |
| `Jobs.ClaimDropsOneQueued` | app.py:187-195 | a claim removes exactly the claimed id from the set of queued jobs, so the queued count drops by one |
| `Jobs.FirstQueuedAppend` | app.py:182-183 | FIFO: a newly created job is claimed only when no older job is still queued |
| `Store.JobStore.constructor` | app.py:165 | the store starts empty and valid |
| `Store.JobStore.NewJob` | app.py:168-184 | adds exactly one queued record under the fresh id and appends the id to the insertion order; existing records are unchanged; the queued count grows by one |
| `Store.JobStore.Claim` | app.py:187-195 | with no queued job: returns `None`, store unchanged; otherwise exactly the first queued job in insertion order becomes running for the worker and is returned, no other record changes, and the queued count drops by one |
| `Store.JobStore.MarkDone` | app.py:198-206 | unknown id: `None`, nothing changes; known id: that job only becomes done with the artifact and `/result/<id>`, whatever its prior status |
| `Store.JobStore.MarkFailed` | app.py:209-217 | unknown id: `None`, nothing changes; known id: that job only becomes failed with the message, keeping result and worker |
| `Store.JobStore.MarkDoneWithUrl` | app.py:289-293 | the found job only becomes done with `{file: None, url}` |
| `Api.Generate` | app.py:222-231 | missing or empty prompt: 400 "missing prompt" and no job created; otherwise one new queued job under the fresh id, whose id is returned with 201 |
| `Api.ViewOf` | app.py:240 | the status view is the record minus `meta`: restoring the job's `meta` gives back the record exactly |
| `Api.StatusOf` | app.py:236-240 | unknown id: 404 "not found"; known id: the record minus `meta` |
| `Api.StatusIgnoresMeta` | app.py:240 | changing a job's `meta` never changes its status reply |
| `Api.GetResult` | app.py:245-255 | unknown id: not found; a job that is not done: "result not ready" (both 404); a done job: its file when `result.file` is non-empty, else its URL |
| `Api.ValidStoreHasResults` | app.py:249-255 | in a valid store a done job always has a result, so `get_result` never reads a missing one |
| `Api.ResultAfterUpload` | app.py:252-253 | after completion with a file, `get_result` serves exactly that file |
| `Api.ResultAfterUrl` | app.py:254-255 | after completion with a URL, `get_result` returns exactly that URL |
| `Api.ResultAfterFailure` | app.py:209-217 | a failed job keeps its result in the record, but `get_result` reports it not ready |
| `Api.ResultOfOtherJobUnchanged` | app.py:245-255 | writing one job never changes the `get_result` reply for another job |
| `Api.JobNext` | app.py:259-267 | 204 with no change when nothing is queued; otherwise the first queued job is claimed for the resolved worker and returned |
| `Api.ArtifactName` | app.py:280 | the stored name is the job id, then `__`, then the sanitized file name, and each part can be read back |
| `Api.ArtifactNamesDistinct` | app.py:280 | two distinct 32-character job ids never store artifacts under the same name |
| `Api.JobComplete` | app.py:272-296 | unknown id: 404 "job not found", no change; an upload wins and is stored as `<id>__<secure(name)>` in `result.file`; else a non-empty `model_url` makes the job done with that URL; else 400 "no model provided", no change; the job's status is never checked |
| `Scene.Lower` | app.py:40 | lower-casing keeps the length, maps each character, and yields lower-case text |
| `Scene.LowerIdempotent` | app.py:40 | lower-casing twice equals lower-casing once |
| `Scene.OccursFrom` | app.py:57 | the substring test from a position is true exactly when the keyword occurs at some later position |
| `Scene.Contains` | app.py:57 | `keyword in prompt` is true exactly when the keyword occurs at some position |
| `Scene.MatchedNames` | app.py:55-62 | the names of the library entries whose keyword occurs in the prompt, at most one per entry; MatchedNamesMember, MatchedNamesEmpty and MatchedNamesConcat state which names, when none, and in what order |
| `Scene.MatchedNamesConcat` | app.py:56-62 | matching over a split library concatenates the two results, so library order is kept |
| `Scene.MatchedNamesMember` | app.py:56-62 | a name is produced iff some library entry with that name has a keyword occurring in the prompt |
| `Scene.MatchedNamesEmpty` | app.py:64 | nothing matches iff no keyword of the library occurs in the prompt |
| `Scene.MatchedNamesBound` | app.py:56-62 | one name for each library entry when every keyword occurs |
| `Scene.ObjectNames` | app.py:64-71 | the names returned are never empty |
| `Scene.FallbackIffNoKeyword` | app.py:64-69 | the answer is the single cube exactly when no keyword occurs in the lower-cased prompt |
| `Scene.PottedPlantKeywords` | app.py:43-44 | a potted plant is placed iff "plant" or "tree" occurs in the lower-cased prompt |
| `Scene.CaseInsensitive` | app.py:40 | a prompt and its lower-cased form give the same objects |
| `Scene.GenerateObjects` | app.py:39-71 | one scattered, unrotated object per library entry whose keyword occurs in the lower-cased prompt, in library order; when there is none, exactly one cube at the origin; never empty |

## Left out

- The YOLO segmentation call in `predict` is left out. It is an opaque machine-learning library call.
- The GitHub model proxy `serve_model` is left out. It is network streaming.
- Flask routing, CORS, JSON and multipart decoding, `send_from_directory` and static serving are left out. Replies are modelled as datatypes that carry the HTTP code.
- `f.save`, `os.makedirs`, the upload-sketch handler and the `uploads`, `assets`, `home` and `ping` routes are left out. They are file-system I/O and host-URL string building.
- `JOBS_LOCK` and the unlocked reads in `status`, `get_result` and `job_complete` are left out. Each operation is modelled as one atomic sequential step.
- `time.time()` is not modelled as a float. Callers pass a natural-number clock value `now`.
- `random.uniform` positions are not modelled as numbers. They are the `Scattered` position.
- `uuid.uuid4().hex` is not modelled. Callers pass a fresh id that is not yet in the store and has 32 characters.
- `werkzeug.secure_filename` is not modelled. It is the function parameter `secure` of `Api.JobComplete`.
- Meta payloads are any JSON in the code. Here they are `map<string, string>`.
- Prompts, URLs and worker ids are JSON strings here. The model does not cover non-string JSON values for them.
- `list_jobs` (a debug dump) and `print` logging are left out.
- Store methods return job records as values. In the code, `new_job` and `next_queued_job_and_claim` return the live dict, so later updates would show through that reference. The model does not capture this aliasing.
- `Scene.Lower`: folds only the ASCII letters A-Z, whereas Python's `str.lower` applies full Unicode case mapping. This does not change which keywords match. The only non-ASCII characters that `str.lower` maps to ASCII letters are U+212A (to "k") and U+0130 (to "i" followed by U+0307). No keyword contains "k". In "chair" and "wedding" the "i" is followed by a letter, so the combining dot after it blocks a match. So `Scene.ObjectNames` gives the code's answer on every prompt.
- `Store.JobStore.MarkDone`: builds the URL from the record's own id instead of the `job_id` argument. The store invariant makes the two equal.
