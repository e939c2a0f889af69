# ai-slider slide worker, modelled in Dafny

This project models the worker side of ai-slider. The worker receives a task for one
job. It downloads the job's input files from the blob store and asks the model
collaborator for a Marp presentation. It extracts the Markdown between the first two
code fences of the reply, renders the result, stores it in the record store, deletes
the inputs and marks the job completed. It reports its progress as `processing`
writes on the job, and it marks the job `failed` when a stage fails.

Modules, one per concern of the code:

- `Common`: `Option`, `Result`, `Outcome` and a `byte` type.
- `Markdown`: `extract_markdown_content`. `Extract` is the specification. `ExtractMarkdownContent`
  is the source's loop, with its `start`/`end` markers and `break`, proved equal to it. The
  lemmas state what the result is: the text unchanged when it has fewer than two fence lines,
  otherwise the lines strictly between the first two fences. They also prove the split/join
  round trips the extraction relies on.
- `Slides`: the guards of `generate_slides`. Generation is a function of what the foreign
  collaborators return (upload, token count, model reply, rendering). It yields the progress
  messages the status callback receives, in order, and the outcome.
- `Records`: `FirestoreService`, a class whose `jobs` and `results` maps its three methods update.
  A ghost log `attempts` records every job write the worker tries.
- `Blobs`: `GCSService`, a class over the bucket map, with download and delete.
- `Tasks`: `process_slides`. `Process` is the specification of one run as a function of the
  store, the bucket and a fault oracle. `ProcessSlides` is the handler over the two service
  objects, proved to agree with it. The lemmas state what a run promises: the order of the
  status writes, which failure stops what, the completed-implies-result invariant, that a
  failed deletion never aborts a run, and what a redelivered task leaves behind.

Inputs that the code gets from outside are parameters of the model:

- the clock (`now`, one reading per run);
- the transport failures of every store, download and delete call (`Faults`, keyed by the call's
  ordinal in the run or by the file's index);
- the answers of the model SDK and the renderer (`Collaborators`).

## Model

| member | source | states |
|---|---|---|
| Markdown.Split | backend/slides_service/services/slides/slides_service.py:121 | splitting at newlines always yields at least one piece |
| Markdown.SplitLines | backend/slides_service/services/slides/slides_service.py:121 | `text.splitlines()` for "\n" separators: the split less a final empty piece; its partners are `Markdown.SplitLinesJoinLines` and `Markdown.JoinLinesSplitLines` |
| Markdown.JoinLines | backend/slides_service/services/slides/slides_service.py:130 | `"\n".join(lines)`; `Markdown.SplitJoin` and `Markdown.JoinSplit` prove it inverse to the split |
| Markdown.IsFence | backend/slides_service/services/slides/slides_service.py:124 | a line is a fence when its first three characters are three backticks |
| Markdown.FenceFrom | backend/slides_service/services/slides/slides_service.py:123-129 | the result is the first line at or after `from` that starts with three backticks, or no such line exists |
| Markdown.ExtractMarkdownContent | backend/slides_service/services/slides/slides_service.py:118-130 | the loop with its `start`/`end` markers and early `break` returns exactly `Extract(text)` |
| Markdown.Extract | backend/slides_service/services/slides/slides_service.py:118-130 | the value `extract_markdown_content` returns; its meaning is stated by `Markdown.FewerThanTwoFencesUnchanged`, `Markdown.AtLeastTwoFencesExtracts` and `Markdown.BetweenFirstTwoFences` |
| Markdown.SplitWithoutNewline | backend/slides_service/services/slides/slides_service.py:121 | a text without a newline splits into itself alone |
| Markdown.SplitAtNewline | backend/slides_service/services/slides/slides_service.py:121 | a newline separates the pieces before it from the pieces after it |
| Markdown.SplitJoin | backend/slides_service/services/slides/slides_service.py:121-130 | splitting the newline join of newline-free lines gives the lines back |
| Markdown.JoinSplit | backend/slides_service/services/slides/slides_service.py:121-130 | joining the pieces of a split gives the text back |
| Markdown.JoinAppend | backend/slides_service/services/slides/slides_service.py:130 | joining one more line appends a newline and that line |
| Markdown.SplitHasNoNewlines | backend/slides_service/services/slides/slides_service.py:121 | no piece of a split contains a newline |
| Markdown.SplitLinesHaveNoNewlines | backend/slides_service/services/slides/slides_service.py:121 | no line from `splitlines` contains a newline |
| Markdown.SplitLinesJoinLines | backend/slides_service/services/slides/slides_service.py:121-130 | `splitlines` of a join gives the lines back, less a final empty line |
| Markdown.JoinLinesSplitLines | backend/slides_service/services/slides/slides_service.py:121-130 | joining the lines of a text gives the text back, less exactly one trailing newline when there is one |
| Markdown.SplitLastNonEmpty | backend/slides_service/services/slides/slides_service.py:121 | a non-empty text never splits into the single empty piece |
| Markdown.LastPieceEndsText | backend/slides_service/services/slides/slides_service.py:121 | the last piece is empty exactly when the text ends in a newline |
| Markdown.FenceFromCounts | backend/slides_service/services/slides/slides_service.py:123-129 | a fence exists from `i` on exactly when the fence count there is positive, and then one fewer lies after it |
| Markdown.FewerThanTwoFencesUnchanged | backend/slides_service/services/slides/slides_service.py:130 | with fewer than two fence lines the text comes back unchanged, not re-joined |
| Markdown.AtLeastTwoFencesExtracts | backend/slides_service/services/slides/slides_service.py:123-130 | with two or more fence lines there is a first pair, and the result is the join of the lines strictly between them |
| Markdown.BetweenFirstTwoFences | backend/slides_service/services/slides/slides_service.py:123-130 | given the first two fence lines, the result is the join of the lines strictly between them |
| Markdown.FenceFromIs | backend/slides_service/services/slides/slides_service.py:123-129 | the first fence from `from` on is the fence line with no fence before it |
| Markdown.ExtractedHasNoFence | backend/slides_service/services/slides/slides_service.py:123-130 | no line of an extracted presentation starts with a fence |
| Markdown.OnlyFirstTwoFencesMatter | backend/slides_service/services/slides/slides_service.py:127-129 | texts that agree up to the second fence line extract alike: the `break` ignores the rest |
| Markdown.AdjacentFencesEmpty | backend/slides_service/services/slides/slides_service.py:130 | two adjacent fence lines give the empty presentation |
| Slides.GenerateSlides | backend/slides_service/services/slides/slides_service.py:29-71 | the status callback receives one to four messages, always a prefix of the four in order, and all four when generation succeeds |
| Slides.WithinBudget | backend/slides_service/services/slides/slides_service.py:59 | a token count passes the size guard when it is at most 16384; the boundary is `Slides.TokenBudgetBoundary` |
| Slides.FinalizingOnlyAfterGuards | backend/slides_service/services/slides/slides_service.py:58-71 | "Finalizing your slides..." is sent exactly when both guards passed; the outcome is then rendering's, and otherwise a failure |
| Slides.TokenBudgetBoundary | backend/slides_service/services/slides/slides_service.py:59-60 | more than 16384 tokens fails with "Documents are too large to process" after three messages; exactly 16384 is accepted |
| Slides.AdjacentFencesFailGeneration | backend/slides_service/services/slides/slides_service.py:65-67 | a reply whose first two fences are adjacent fails with "Failed to generate presentation." after three messages |
| Records.UpdateFailure | backend/slides_service/services/infra/firestore.py:25 | a job update fails exactly when there is a transport fault or the document is missing |
| Records.WithStatus | backend/slides_service/services/infra/firestore.py:18-25 | a status update writes status, message and update time, and keeps id, result url, creation and expiry |
| Records.WithCompleted | backend/slides_service/services/infra/firestore.py:35-44 | completion writes `completed`, the message, the time and an expiry 300 seconds later, and keeps id, result url and creation |
| Records.NewResult | backend/slides_service/services/infra/firestore.py:54-65 | the result record carries the job id, url, both payloads, the creation time and an expiry 3600 seconds later |
| Records.StatusUpdatesLastWriterWins | backend/slides_service/services/infra/firestore.py:18-25 | of two status updates only the second's status, message and time remain |
| Records.ResultOutlivesJob | backend/slides_service/services/infra/firestore.py:37-56 | written at the same instant, a result expires 3300 seconds after its completed job |
| Records.FirestoreService.UpdateJobStatus | backend/slides_service/services/infra/firestore.py:15-29 | it passes or fails as `UpdateFailure` says, updates the job only on success, never touches results, and logs the attempt |
| Records.FirestoreService.SetJobCompleted | backend/slides_service/services/infra/firestore.py:32-48 | likewise for completion; the result url argument is never written |
| Records.FirestoreService.StoreResult | backend/slides_service/services/infra/firestore.py:51-69 | it fails only on a transport fault, and otherwise replaces or creates the result document under the job id |
| Records.StoreResultTwice | backend/slides_service/services/infra/firestore.py:65 | storing twice under one id leaves one record, the second, and no other record changes |
| Blobs.ContentTypeOf | backend/slides_service/services/infra/gcs.py:21 | an absent or empty content type becomes "application/actet-stream"; any other type is kept |
| Blobs.Fetch | backend/slides_service/services/infra/gcs.py:15-25 | a download succeeds exactly when there is no fault and the path exists, and then returns the stored bytes and type; an absent path raises the missing-attribute error |
| Blobs.Deleted | backend/slides_service/services/infra/gcs.py:28-34 | a delete without a fault removes the path; a failed one changes nothing; no other path is touched |
| Blobs.GCSService.DownloadFileFromGcs | backend/slides_service/services/infra/gcs.py:15-25 | returns `Fetch` of the bucket and leaves the bucket as it was |
| Blobs.GCSService.DeleteFileFromGcs | backend/slides_service/services/infra/gcs.py:28-34 | never fails; the new bucket is `Deleted` of the old one |
| Tasks.ReplayFrom | backend/slides_service/routers/tasks.py:41-51 | the progress writes attempted lie between message `i` and the last message, and every message is attempted when no write fails; `Tasks.ReplayKeepsProcessing` states that they stop at the first failure |
| Tasks.Process | backend/slides_service/routers/tasks.py:16-75 | the value of one run of `process_slides`: final store, bucket, reply and attempted job writes; `Tasks.ProcessSlides` is proved equal to it and the lemmas below state its properties |
| Tasks.AfterStart | backend/slides_service/routers/tasks.py:31-75 | the run once the first `processing` write is applied: the downloads and all that follows; `Tasks.AfterStartFailed`, `Tasks.AfterStartSucceeded` and `Tasks.AfterStartKeepsResults` state its cases and the invariant it keeps |
| Tasks.AfterDownloads | backend/slides_service/routers/tasks.py:41-51 | generation with its progress writes replayed in order, then the end of generation; `Tasks.ReplayKeepsProcessing` states what the writes do |
| Tasks.GenerationError | backend/slides_service/routers/tasks.py:41-51 | one `except` catches both the generator's error and a failing progress write's; a failing write's error comes first, since that write ended generation; `Tasks.GenerationFailureStoresNothing` states the branch it selects |
| Tasks.AfterGeneration | backend/slides_service/routers/tasks.py:41-75 | the `except` after generation, or the result write and what follows; `Tasks.AfterGenerationDone`, `Tasks.StoreFailureStoresNothing` and `Tasks.AfterGenerationKeepsResults` state its cases and invariant |
| Tasks.ResultUrl | backend/slides_service/routers/tasks.py:53 | the result url is "/results/" followed by the job id |
| Tasks.FetchFrom | backend/slides_service/routers/tasks.py:31-39 | the download loop from file `i` on, stopping at the first failure; `Tasks.FetchFromSpec` and `Tasks.FetchFromFirstFailure` state its result |
| Tasks.FetchFiles | backend/slides_service/routers/tasks.py:31-39 | all downloads of the payload in order; `Tasks.DownloadsReturnStoredFiles` states its result |
| Tasks.DeleteFrom | backend/slides_service/routers/tasks.py:62-67 | the delete loop from file `i` on, ignoring failures; `Tasks.DeletionRemovesExactly` states its result |
| Tasks.FailRun | backend/slides_service/routers/tasks.py:36-60 | an `except` branch: it appends one `failed` write with the message, always answers with a server error, touches neither results nor bucket, and marks the job failed exactly when that write succeeds |
| Tasks.AfterStore | backend/slides_service/routers/tasks.py:53-73 | from the result write on, the run attempts exactly one more job write; its failure branch is `Tasks.StoreFailureStoresNothing` and its success branch `Tasks.AfterGenerationDone` |
| Tasks.Finish | backend/slides_service/routers/tasks.py:69-75 | the completion write is appended; the run answers with success exactly when it succeeds, which marks the job completed; results and bucket are untouched |
| Tasks.StatusUpdate | backend/slides_service/routers/tasks.py:22-23 | the callback is one `processing` write: it passes exactly when the update succeeds, and the job changes only then |
| Tasks.DownloadFiles | backend/slides_service/routers/tasks.py:31-39 | the download loop returns `FetchFiles` of the bucket: every file in payload order, or the first error |
| Tasks.ReportProgress | backend/slides_service/routers/tasks.py:41-51 | the progress writes leave the store and the write log as `ReplayFrom` says |
| Tasks.DeleteInputs | backend/slides_service/routers/tasks.py:62-67 | the delete loop leaves the bucket as `DeleteFrom` says, ignoring every failure |
| Tasks.FailJob | backend/slides_service/routers/tasks.py:36-60 | an `except` branch writes `failed` and answers with the update's own error if it fails, else with the cause |
| Tasks.StoreAndComplete | backend/slides_service/routers/tasks.py:53-75 | the tail of the handler agrees with `AfterStore` on the reply, both collections, the bucket and the write log |
| Tasks.EndGeneration | backend/slides_service/routers/tasks.py:41-75 | the handler after generation agrees with `AfterGeneration` |
| Tasks.RunFromStart | backend/slides_service/routers/tasks.py:31-75 | the handler after the first write agrees with `AfterStart` |
| Tasks.GenerateAndStore | backend/slides_service/routers/tasks.py:41-75 | the handler after the downloads agrees with `AfterGeneration` over the replayed progress writes |
| Tasks.ProcessSlides | backend/slides_service/routers/tasks.py:16-75 | the handler's reply, final jobs, results, bucket and attempted job writes are exactly those of `Process` |
| Tasks.FetchFromSpec | backend/slides_service/routers/tasks.py:31-35 | downloads from file `i` on succeed exactly when each of those files is downloadable, and then append the stored files in order |
| Tasks.DownloadsReturnStoredFiles | backend/slides_service/routers/tasks.py:31-35 | all downloads succeed exactly when every file is present and fault-free, and then return each file's stored bytes and type in payload order |
| Tasks.FetchFromFirstFailure | backend/slides_service/routers/tasks.py:31-39 | from file `i` on, the downloads fail with the error of the first failing file |
| Tasks.DownloadErrorIsFirstFailure | backend/slides_service/routers/tasks.py:31-39 | a failed download run reports the error of the first file that could not be fetched |
| Tasks.ReplayKeepsProcessing | backend/slides_service/routers/tasks.py:41-51 | progress writes touch only the job's own document and keep it `processing`; every write before the last attempted one succeeded, and they fail exactly when one of their calls faults, with that fault |
| Tasks.DeletionRemovesExactly | backend/slides_service/routers/tasks.py:62-67 | deletion removes exactly the paths whose delete did not fail, and nothing else |
| Tasks.WritesFollowStatusOrder | backend/slides_service/routers/tasks.py:16-75 | every run first writes `processing` "Starting slide generation...", then only `processing` writes, and at most one `failed` or `completed` last |
| Tasks.StartFailureChangesNothing | backend/slides_service/routers/tasks.py:25-29 | a failed first write answers with its error and changes nothing |
| Tasks.DownloadFailureAborts | backend/slides_service/routers/tasks.py:31-39 | a failed download writes `failed` "Download error: " and the error next, and stores, generates and deletes nothing |
| Tasks.GenerationFailureStoresNothing | backend/slides_service/routers/tasks.py:41-51 | generation ending in an error, the generator's own or a failing progress write's, is followed by exactly one `failed` write "Failed to generate slides: " plus that error; results and bucket are unchanged, the reply carries the error, and the job is `failed` exactly when that write succeeds |
| Tasks.StoreFailureStoresNothing | backend/slides_service/routers/tasks.py:55-60 | a failed result write is followed by one `failed` write "Failed to store: " plus its error; results and bucket are unchanged, no completion is written, the reply carries the error, and the job is `failed` exactly when that write succeeds |
| Tasks.SuccessfulRun | backend/slides_service/routers/tasks.py:16-75 | a run succeeds exactly when every step does; it then stores the result under "/results/" + id, completes the job, deletes the inputs and writes the four progress messages in order |
| Tasks.AfterGenerationDone | backend/slides_service/routers/tasks.py:41-75 | after generation, the run succeeds exactly when generation and the two remaining writes do, with the store, bucket and writes that follow |
| Tasks.ReplayAllWrites | backend/slides_service/routers/tasks.py:22-23 | when every progress write succeeds, the job carries the last message |
| Tasks.CompletionFailureLeavesProcessing | backend/slides_service/routers/tasks.py:69-73 | a failed completion write answers with its error, writes no `failed`, and leaves the result stored and the job `processing` |
| Tasks.FailRunKeepsResults | backend/slides_service/routers/tasks.py:36-60 | a `failed` write keeps every completed job paired with a result |
| Tasks.AfterGenerationKeepsResults | backend/slides_service/routers/tasks.py:41-73 | the remaining steps keep every completed job paired with a result |
| Tasks.AfterStartKeepsResults | backend/slides_service/routers/tasks.py:31-73 | so do the downloads and what follows |
| Tasks.CompletedImpliesResult | backend/slides_service/routers/tasks.py:16-75 | whatever fails, a run never leaves a completed job without its result record |
| Tasks.FetchIgnoresDeletes | backend/slides_service/routers/tasks.py:31-35 | delete failures do not affect the downloads |
| Tasks.ReplayIgnoresDeletes | backend/slides_service/routers/tasks.py:22-23 | delete failures do not affect the progress writes |
| Tasks.AfterGenerationIgnoresDeletes | backend/slides_service/routers/tasks.py:53-73 | after generation, delete failures change only the bucket |
| Tasks.AfterStartIgnoresDeletes | backend/slides_service/routers/tasks.py:31-73 | after the first write, delete failures change only the bucket |
| Tasks.DeletionFailuresNeverAbort | backend/slides_service/routers/tasks.py:62-67 | failed deletions never change the reply, the job writes, the jobs or the results |
| Tasks.RedeliveryKeepsLastResult | backend/slides_service/routers/tasks.py:55-56 | a task that succeeds twice leaves one result for the job, the one its second run stored |
| Tasks.RedeliveryAfterCleanupFails | backend/slides_service/routers/tasks.py:31-39 | after a successful run that deleted its first input, the same task fails its first download: the job goes from `completed` to `failed`, the result record stays, and the reply carries the download error |

## Behaviour kept as written

The model follows the code in each of these cases, some of which look unintended.

- Status writes. `update_job_status` logs a failed write and re-raises it
  (`backend/slides_service/services/infra/firestore.py:27-29`). The handler answers with that error,
  and a failing progress write ends generation as a generation failure.
- Result url on the job. Both job writes accept `result_url` and never write it, so the job's
  `resultUrl` is never changed; the url lives only in the result record.
- Completion without `failed`. When the completion write fails, the handler writes no `failed`
  status (`backend/slides_service/routers/tasks.py:69-73`). The result is stored and the job stays
  `processing` (`Tasks.CompletionFailureLeavesProcessing`).
- Redelivery. The handler does not check the status the job is in when the task arrives, so a
  redelivered task reopens a completed job. In the ordinary case the successful run has deleted
  its inputs, so the second run fails its first download and the job ends `failed` while its
  result record stays (`Tasks.RedeliveryAfterCleanupFails`). The second run can complete the job
  again only when every input is still there, that is, when the payload has no files or each of
  the first run's deletes failed; it then leaves one result, its own
  (`Tasks.RedeliveryKeepsLastResult`).
- Missing blob error. A download of an absent blob is meant to raise "not found". As written, building
  that message reads `self.bucket_name`, which `GCSService` does not define. The error that
  propagates is therefore the missing attribute's (`Blobs.MissingBlobError`).
- The default content type is spelled "application/actet-stream", as in the code.

## Left out

- Rendering (`render_with_marp`, `run_marp_cli`), the model SDK (upload, token counting, content
  generation) and the prompt service are not part of this model. Their answers are inputs
  (`Slides.Collaborators`). The prompt service is taken never to raise.
- The theme and the slide settings only reach collaborators that are not modelled, so `Payload`
  omits them.
- Client construction, environment variables, logging, the HTTP framework and the JSON body of the
  success answer are not modelled. A failure is modelled as an HTTP 500 carrying the error's text
  (`Tasks.Reply`).
- An error raised inside an `except` branch (the `failed` write itself failing) propagates instead of
  the `HTTPException`. The model answers with that error's text, as for any other 500.
- The API service (`backend/api/`), `mime.py`, the task queue and the frontend are not part of this
  model. That includes job creation, status streams and expiry on read.
- Markdown.SplitLines: only "\n" separates lines. Python's `splitlines` also splits at "\r", "\r\n"
  and other separators; inputs that contain them are not covered.
- Tasks.Process: the clock is read once per run. The source reads `time.time()` in every store call.
- Tasks.ProcessSlides: generation is a pure function of the collaborators' answers. The progress
  callbacks are replayed in order afterwards, and the first failing write ends generation with its
  error. The order of the writes against the model calls is therefore not modelled, but the writes
  and their effects are.
- Records.FirestoreService.StoreResult: a failed store leaves the document unchanged; a partial write
  is not modelled.
- Records.NoDocumentError: the text of the store's missing-document error is an approximation of the
  client library's message.
- Concurrency between workers and asynchronous scheduling are not modelled.
