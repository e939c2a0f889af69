/**
 * The task handler `process_slides`: it drives one job through the record store —
 * a first `processing` write, the downloads, generation (whose progress messages
 * are further `processing` writes), the result write, best-effort deletion of the
 * inputs and the completion write — and stops at the first failure, writing
 * `failed` where the handler does.
 *
 * `Process` is the specification: it gives, for a store, a bucket and the outcomes
 * of every collaborator and store call, the final state, the reply and the job
 * writes attempted. `ProcessSlides` is the handler over the two service objects and
 * is proved to agree with it; the lemmas below state what the handler promises.
 */
module Tasks {
  import opened Common
  import opened Records
  import opened Blobs
  import opened Slides

  const StartMessage: string := "Starting slide generation..."
  const CompletedMessage: string := "Slides generated successfully"
  const DownloadPrefix: string := "Download error: "
  const GeneratePrefix: string := "Failed to generate slides: "
  const StorePrefix: string := "Failed to store: "

  datatype FileRef = FileRef(filename: string, gcsPath: string)

  /** `TaskPayload`, less the theme and settings, which only reach the collaborators. */
  datatype Payload = Payload(jobId: string, files: seq<FileRef>)

  /**
   * Which calls fail in transport, and with what text: store calls by their ordinal
   * in the run (0 is the first status write), downloads and deletions by file index.
   */
  datatype Faults = Faults(store: map<nat, string>, download: map<nat, string>, delete: set<nat>)

  function StoreFault(f: Faults, k: nat): Option<string> {
    if k in f.store then Some(f.store[k]) else None
  }

  function DownloadFault(f: Faults, i: nat): Option<string> {
    if i in f.download then Some(f.download[i]) else None
  }

  datatype World = World(jobs: map<string, Job>, results: map<string, ResultDoc>, bucket: map<string, Blob>)

  /** The handler's answer: success, or an HTTP 500 carrying the error's text. */
  datatype Reply = Done | ServerError(detail: string)

  datatype Run = Run(world: World, reply: Reply, writes: seq<JobWrite>)

  function ResultUrl(jobId: string): string {
    "/results/" + jobId
  }

  // ---------------------------------------------------------------------------
  // The steps of the run as functions

  /** The downloads from file `i` on, after `acc` was downloaded; stops at the first failure. */
  function FetchFrom(bucket: map<string, Blob>, refs: seq<FileRef>, f: Faults, i: nat, acc: seq<File>): Result<seq<File>>
    requires i <= |refs|
    decreases |refs| - i
  {
    if i == |refs| then Success(acc)
    else match Fetch(bucket, refs[i].gcsPath, DownloadFault(f, i))
      case Failure(e) => Failure(e)
      case Success(d) => FetchFrom(bucket, refs, f, i + 1, acc + [File(refs[i].filename, d.data, d.contentType)])
  }

  function FetchFiles(bucket: map<string, Blob>, refs: seq<FileRef>, f: Faults): Result<seq<File>> {
    FetchFrom(bucket, refs, f, 0, [])
  }

  datatype Replayed = Replayed(jobs: map<string, Job>, error: Option<string>, attempted: nat)

  /**
   * The progress writes from message `i` on; message `i` is store call `1 + i`.
   * The first failing write ends generation with its error.
   */
  function ReplayFrom(jobs: map<string, Job>, id: string, msgs: seq<string>, i: nat, now: int, f: Faults): (r: Replayed)
    requires i <= |msgs|
    ensures i <= r.attempted <= |msgs|
    ensures r.error.None? ==> r.attempted == |msgs|
    decreases |msgs| - i
  {
    if i == |msgs| then Replayed(jobs, None, i)
    else
      var e := UpdateFailure(jobs, id, StoreFault(f, 1 + i));
      if e.Some? then Replayed(jobs, e, i + 1)
      else ReplayFrom(jobs[id := WithStatus(jobs[id], Processing, msgs[i], now)], id, msgs, i + 1, now, f)
  }

  /** The bucket after deleting files `i` onwards, each failure ignored. */
  function DeleteFrom(bucket: map<string, Blob>, refs: seq<FileRef>, f: Faults, i: nat): map<string, Blob>
    requires i <= |refs|
    decreases |refs| - i
  {
    if i == |refs| then bucket
    else DeleteFrom(Deleted(bucket, refs[i].gcsPath, i in f.delete), refs, f, i + 1)
  }

  function ProcessingWrites(msgs: seq<string>): seq<JobWrite> {
    seq(|msgs|, k requires 0 <= k < |msgs| => JobWrite(Processing, msgs[k]))
  }

  /** Writes `failed` with `message` as store call `k`, then answers with the failure `cause`. */
  function FailRun(w: World, writes: seq<JobWrite>, id: string, message: string, now: int, f: Faults, k: nat, cause: string): (r: Run)
    ensures r.writes == writes + [JobWrite(Failed, message)]
    ensures r.reply.ServerError? && r.world.results == w.results && r.world.bucket == w.bucket
    ensures r.world.jobs.Keys == w.jobs.Keys
    ensures StoreFault(f, k).None? && id in w.jobs ==> r.world.jobs == w.jobs[id := WithStatus(w.jobs[id], Failed, message, now)]
    ensures StoreFault(f, k).Some? || id !in w.jobs ==> r.world.jobs == w.jobs
  {
    var e := UpdateFailure(w.jobs, id, StoreFault(f, k));
    var jobs := if e.None? then w.jobs[id := WithStatus(w.jobs[id], Failed, message, now)] else w.jobs;
    Run(World(jobs, w.results, w.bucket), ServerError(if e.Some? then e.value else cause), writes + [JobWrite(Failed, message)])
  }

  /** The error that ends generation, if any: a failed progress write, else the generator's own. */
  function GenerationError(rp: Replayed, g: Generation): Option<string> {
    if rp.error.Some? then rp.error
    else if g.outcome.Failure? then Some(g.outcome.error)
    else None
  }

  /** What `process_slides` does. */
  function Process(w: World, p: Payload, c: Collaborators, now: int, f: Faults): Run {
    var id := p.jobId;
    var e0 := UpdateFailure(w.jobs, id, StoreFault(f, 0));
    if e0.Some? then Run(w, ServerError(e0.value), [JobWrite(Processing, StartMessage)])
    else AfterStart(w.(jobs := w.jobs[id := WithStatus(w.jobs[id], Processing, StartMessage, now)]), p, c, now, f)
  }

  /** The run once the first `processing` write is applied: the downloads. */
  function AfterStart(w: World, p: Payload, c: Collaborators, now: int, f: Faults): Run {
    match FetchFiles(w.bucket, p.files, f)
    case Failure(e) => FailRun(w, [JobWrite(Processing, StartMessage)], p.jobId, DownloadPrefix + e, now, f, 1, e)
    case Success(files) => AfterDownloads(w, p, GenerateSlides(files, c), now, f)
  }

  /** The run once every file is downloaded: generation and its progress writes. */
  function AfterDownloads(w: World, p: Payload, g: Generation, now: int, f: Faults): Run {
    var rp := ReplayFrom(w.jobs, p.jobId, g.progress, 0, now, f);
    AfterGeneration(w.(jobs := rp.jobs), p, g, rp, now, f)
  }

  /** The run once generation has ended: a failure write, or the result write and what follows it. */
  function AfterGeneration(w: World, p: Payload, g: Generation, rp: Replayed, now: int, f: Faults): Run
    requires rp.attempted <= |g.progress|
  {
    var id := p.jobId;
    var writes := [JobWrite(Processing, StartMessage)] + ProcessingWrites(g.progress[..rp.attempted]);
    var k := 1 + rp.attempted;
    var ge := GenerationError(rp, g);
    if ge.Some? then FailRun(w, writes, id, GeneratePrefix + ge.value, now, f, k, ge.value)
    else AfterStore(w, p, g.outcome.value, writes, now, f, k)
  }

  /** The result write as store call `k`; on success the deletions and the completion write follow. */
  function AfterStore(w: World, p: Payload, out: Rendered, writes: seq<JobWrite>, now: int, f: Faults, k: nat): (r: Run)
    ensures |r.writes| == |writes| + 1 && r.writes == writes + [r.writes[|writes|]]
  {
    var id := p.jobId;
    var se := StoreFault(f, k);
    if se.Some? then FailRun(w, writes, id, StorePrefix + se.value, now, f, k + 1, se.value)
    else
      var results := w.results[id := NewResult(id, ResultUrl(id), out.pdf, out.html, now)];
      Finish(World(w.jobs, results, DeleteFrom(w.bucket, p.files, f, 0)), id, writes, now, f, k + 1)
  }

  /** The completion write, store call `k`; its failure is answered without a `failed` write. */
  function Finish(w: World, id: string, writes: seq<JobWrite>, now: int, f: Faults, k: nat): (r: Run)
    ensures r.writes == writes + [JobWrite(Completed, CompletedMessage)]
    ensures r.reply == Done <==> StoreFault(f, k).None? && id in w.jobs
    ensures r.world.results == w.results && r.world.bucket == w.bucket
    ensures r.reply == Done ==> r.world.jobs == w.jobs[id := WithCompleted(w.jobs[id], CompletedMessage, now)]
    ensures r.reply != Done ==> r.world.jobs == w.jobs
  {
    var ce := UpdateFailure(w.jobs, id, StoreFault(f, k));
    var jobs := if ce.None? then w.jobs[id := WithCompleted(w.jobs[id], CompletedMessage, now)] else w.jobs;
    Run(w.(jobs := jobs), if ce.Some? then ServerError(ce.value) else Done, writes + [JobWrite(Completed, CompletedMessage)])
  }

  lemma ProcessAfterStart(w: World, p: Payload, c: Collaborators, now: int, f: Faults)
    requires UpdateFailure(w.jobs, p.jobId, StoreFault(f, 0)).None?
    ensures Process(w, p, c, now, f) ==
            AfterStart(w.(jobs := w.jobs[p.jobId := WithStatus(w.jobs[p.jobId], Processing, StartMessage, now)]), p, c, now, f)
  {
  }

  lemma AfterStartSucceeded(w: World, p: Payload, c: Collaborators, now: int, f: Faults, files: seq<File>)
    requires FetchFiles(w.bucket, p.files, f) == Success(files)
    ensures var g := GenerateSlides(files, c);
            var rp := ReplayFrom(w.jobs, p.jobId, g.progress, 0, now, f);
            AfterStart(w, p, c, now, f) == AfterGeneration(w.(jobs := rp.jobs), p, g, rp, now, f)
  {
  }

  lemma AfterStartFailed(w: World, p: Payload, c: Collaborators, now: int, f: Faults, e: string)
    requires FetchFiles(w.bucket, p.files, f) == Failure(e)
    ensures AfterStart(w, p, c, now, f) == FailRun(w, [JobWrite(Processing, StartMessage)], p.jobId, DownloadPrefix + e, now, f, 1, e)
  {
  }

  lemma AfterGenerationSucceeded(w: World, p: Payload, g: Generation, rp: Replayed, now: int, f: Faults)
    requires rp.attempted <= |g.progress| && GenerationError(rp, g).None?
    ensures AfterGeneration(w, p, g, rp, now, f) ==
            AfterStore(w, p, g.outcome.value, [JobWrite(Processing, StartMessage)] + ProcessingWrites(g.progress[..rp.attempted]),
                       now, f, 1 + rp.attempted)
  {
  }

  lemma AfterStoreSucceeded(w: World, p: Payload, out: Rendered, writes: seq<JobWrite>, now: int, f: Faults, k: nat)
    requires StoreFault(f, k).None?
    ensures AfterStore(w, p, out, writes, now, f, k) ==
            Finish(World(w.jobs, w.results[p.jobId := NewResult(p.jobId, ResultUrl(p.jobId), out.pdf, out.html, now)],
                         DeleteFrom(w.bucket, p.files, f, 0)), p.jobId, writes, now, f, k + 1)
  {
  }

  // ---------------------------------------------------------------------------
  // The handler

  /** The inner `status_update` callback: a `processing` write with the given message. */
  method StatusUpdate(db: FirestoreService, jobId: string, message: string, now: int, fault: Option<string>)
    returns (r: Outcome)
    modifies db
    ensures r.Pass? <==> UpdateFailure(old(db.jobs), jobId, fault).None?
    ensures r.Fail? ==> UpdateFailure(old(db.jobs), jobId, fault) == Some(r.error)
    ensures db.jobs == if r.Pass? then old(db.jobs)[jobId := WithStatus(old(db.jobs)[jobId], Processing, message, now)]
                       else old(db.jobs)
    ensures db.results == old(db.results)
    ensures db.attempts == old(db.attempts) + [JobWrite(Processing, message)]
  {
    r := db.UpdateJobStatus(jobId, Processing, message, "", now, fault);
  }

  /** The download loop: every file in payload order, stopping at the first failure. */
  method DownloadFiles(gcs: GCSService, refs: seq<FileRef>, f: Faults) returns (r: Result<seq<File>>)
    ensures r == FetchFiles(gcs.blobs, refs, f)
  {
    var files: seq<File> := [];
    var i := 0;
    while i < |refs|
      invariant 0 <= i <= |refs|
      invariant FetchFiles(gcs.blobs, refs, f) == FetchFrom(gcs.blobs, refs, f, i, files)
    {
      var d := gcs.DownloadFileFromGcs(refs[i].gcsPath, DownloadFault(f, i));
      if d.Failure? {
        return Failure(d.error);
      }
      files := files + [File(refs[i].filename, d.value.data, d.value.contentType)];
      i := i + 1;
    }
    r := Success(files);
  }

  /** The progress callback invocations of one generation, in order; the first failing write ends them. */
  method ReportProgress(db: FirestoreService, id: string, msgs: seq<string>, now: int, f: Faults) returns (rp: Replayed)
    modifies db
    ensures rp == ReplayFrom(old(db.jobs), id, msgs, 0, now, f)
    ensures db.jobs == rp.jobs && db.results == old(db.results)
    ensures db.attempts == old(db.attempts) + ProcessingWrites(msgs[..rp.attempted])
  {
    var progressError: Option<string> := None;
    var n := 0;
    while n < |msgs| && progressError.None?
      invariant 0 <= n <= |msgs|
      invariant ReplayFrom(old(db.jobs), id, msgs, 0, now, f) ==
                if progressError.None? then ReplayFrom(db.jobs, id, msgs, n, now, f)
                else Replayed(db.jobs, progressError, n)
      invariant db.results == old(db.results)
      invariant db.attempts == old(db.attempts) + ProcessingWrites(msgs[..n])
    {
      var wr := StatusUpdate(db, id, msgs[n], now, StoreFault(f, 1 + n));
      if wr.Fail? {
        progressError := Some(wr.error);
      }
      assert ProcessingWrites(msgs[..n + 1]) == ProcessingWrites(msgs[..n]) + [JobWrite(Processing, msgs[n])];
      n := n + 1;
    }
    rp := Replayed(db.jobs, progressError, n);
  }

  /** The best-effort delete loop: every file in payload order, each failure ignored. */
  method DeleteInputs(gcs: GCSService, refs: seq<FileRef>, f: Faults)
    modifies gcs
    ensures gcs.blobs == DeleteFrom(old(gcs.blobs), refs, f, 0)
  {
    var m := 0;
    while m < |refs|
      invariant 0 <= m <= |refs|
      invariant DeleteFrom(old(gcs.blobs), refs, f, 0) == DeleteFrom(gcs.blobs, refs, f, m)
    {
      gcs.DeleteFileFromGcs(refs[m].gcsPath, m in f.delete);
      m := m + 1;
    }
  }

  /** An `except` branch of the handler: write `failed` as store call `k`, then answer with `cause`. */
  method FailJob(db: FirestoreService, ghost writes: seq<JobWrite>, id: string, message: string, now: int, f: Faults, k: nat, cause: string)
    returns (reply: Reply)
    modifies db
    ensures var run := FailRun(World(old(db.jobs), old(db.results), map[]), writes, id, message, now, f, k, cause);
            reply == run.reply && db.jobs == run.world.jobs && db.results == old(db.results)
    ensures db.attempts == old(db.attempts) + [JobWrite(Failed, message)]
  {
    var wr := db.UpdateJobStatus(id, Failed, message, "", now, StoreFault(f, k));
    reply := ServerError(if wr.Fail? then wr.error else cause);
  }

  /** The handler once generation has succeeded: store the result, delete the inputs, mark the job completed. */
  method StoreAndComplete(db: FirestoreService, gcs: GCSService, p: Payload, out: Rendered,
                          ghost writes: seq<JobWrite>, now: int, f: Faults, k: nat)
    returns (reply: Reply)
    modifies db, gcs
    ensures var run := AfterStore(World(old(db.jobs), old(db.results), old(gcs.blobs)), p, out, writes, now, f, k);
            && reply == run.reply
            && db.jobs == run.world.jobs && db.results == run.world.results && gcs.blobs == run.world.bucket
            && db.attempts == old(db.attempts) + [run.writes[|writes|]]
  {
    var id := p.jobId;
    var resultUrl := ResultUrl(id);
    var sr := db.StoreResult(id, resultUrl, out.pdf, out.html, now, StoreFault(f, k));
    if sr.Fail? {
      reply := FailJob(db, writes, id, StorePrefix + sr.error, now, f, k + 1, sr.error);
      return;
    }
    DeleteInputs(gcs, p.files, f);
    var cr := db.SetJobCompleted(id, CompletedMessage, resultUrl, now, StoreFault(f, k + 1));
    if cr.Fail? {
      return ServerError(cr.error);
    }
    reply := Done;
  }

  /** The handler once generation has ended: the failure write, or the result and completion writes. */
  method EndGeneration(db: FirestoreService, gcs: GCSService, p: Payload, g: Generation, rp: Replayed, now: int, f: Faults)
    returns (reply: Reply)
    requires rp.attempted <= |g.progress|
    modifies db, gcs
    ensures var run := AfterGeneration(World(old(db.jobs), old(db.results), old(gcs.blobs)), p, g, rp, now, f);
            var writes := [JobWrite(Processing, StartMessage)] + ProcessingWrites(g.progress[..rp.attempted]);
            && reply == run.reply
            && db.jobs == run.world.jobs && db.results == run.world.results && gcs.blobs == run.world.bucket
            && db.attempts == old(db.attempts) + [run.writes[|writes|]]
  {
    ghost var w := World(db.jobs, db.results, gcs.blobs);
    ghost var writes := [JobWrite(Processing, StartMessage)] + ProcessingWrites(g.progress[..rp.attempted]);
    var genError := GenerationError(rp, g);
    if genError.Some? {
      reply := FailJob(db, writes, p.jobId, GeneratePrefix + genError.value, now, f, 1 + rp.attempted, genError.value);
      return;
    }
    AfterGenerationSucceeded(w, p, g, rp, now, f);
    reply := StoreAndComplete(db, gcs, p, g.outcome.value, writes, now, f, 1 + rp.attempted);
  }

  /** The handler once the first `processing` write is applied: downloads, generation and what follows. */
  method RunFromStart(db: FirestoreService, gcs: GCSService, p: Payload, c: Collaborators, now: int, f: Faults,
                      ghost a0: seq<JobWrite>)
    returns (reply: Reply)
    requires db.attempts == a0 + [JobWrite(Processing, StartMessage)]
    modifies db, gcs
    ensures var run := AfterStart(World(old(db.jobs), old(db.results), old(gcs.blobs)), p, c, now, f);
            && reply == run.reply
            && db.jobs == run.world.jobs && db.results == run.world.results && gcs.blobs == run.world.bucket
            && db.attempts == a0 + run.writes
  {
    ghost var start := [JobWrite(Processing, StartMessage)];
    var files := DownloadFiles(gcs, p.files, f);
    if files.Failure? {
      AfterStartFailed(World(db.jobs, db.results, gcs.blobs), p, c, now, f, files.error);
      reply := FailJob(db, start, p.jobId, DownloadPrefix + files.error, now, f, 1, files.error);
      assert db.attempts == a0 + (start + [JobWrite(Failed, DownloadPrefix + files.error)]);
      return;
    }
    AfterStartSucceeded(World(db.jobs, db.results, gcs.blobs), p, c, now, f, files.value);
    reply := GenerateAndStore(db, gcs, p, GenerateSlides(files.value, c), now, f, a0);
  }

  /** The handler once every file is downloaded: the progress writes of generation `g`, then its outcome. */
  method GenerateAndStore(db: FirestoreService, gcs: GCSService, p: Payload, g: Generation, now: int, f: Faults,
                          ghost a0: seq<JobWrite>)
    returns (reply: Reply)
    requires db.attempts == a0 + [JobWrite(Processing, StartMessage)]
    modifies db, gcs
    ensures var rp := ReplayFrom(old(db.jobs), p.jobId, g.progress, 0, now, f);
            var run := AfterGeneration(World(rp.jobs, old(db.results), old(gcs.blobs)), p, g, rp, now, f);
            && reply == run.reply
            && db.jobs == run.world.jobs && db.results == run.world.results && gcs.blobs == run.world.bucket
            && db.attempts == a0 + run.writes
  {
    var rp := ReportProgress(db, p.jobId, g.progress, now, f);
    ghost var writes := [JobWrite(Processing, StartMessage)] + ProcessingWrites(g.progress[..rp.attempted]);
    assert db.attempts == a0 + writes;
    reply := EndGeneration(db, gcs, p, g, rp, now, f);
    ghost var run := AfterGeneration(World(rp.jobs, old(db.results), old(gcs.blobs)), p, g, rp, now, f);
    assert db.attempts == a0 + (writes + [run.writes[|writes|]]);
  }

  /** `process_slides` over the record store `db` and the bucket `gcs`. */
  method ProcessSlides(db: FirestoreService, gcs: GCSService, p: Payload, c: Collaborators, now: int, f: Faults)
    returns (reply: Reply)
    modifies db, gcs
    ensures var run := Process(World(old(db.jobs), old(db.results), old(gcs.blobs)), p, c, now, f);
            && reply == run.reply
            && db.jobs == run.world.jobs && db.results == run.world.results && gcs.blobs == run.world.bucket
            && db.attempts == old(db.attempts) + run.writes
  {
    ghost var w := World(db.jobs, db.results, gcs.blobs);
    ghost var a0 := db.attempts;
    var r := StatusUpdate(db, p.jobId, StartMessage, now, StoreFault(f, 0));
    if r.Fail? {
      StartFailureChangesNothing(w, p, c, now, f);
      return ServerError(r.error);
    }
    ProcessAfterStart(w, p, c, now, f);
    reply := RunFromStart(db, gcs, p, c, now, f, a0);
  }

  // ---------------------------------------------------------------------------
  // Properties of the steps

  /** The file a successful download of `ref` yields. */
  function FileOf(bucket: map<string, Blob>, ref: FileRef): File
    requires ref.gcsPath in bucket
  {
    File(ref.filename, bucket[ref.gcsPath].data, ContentTypeOf(bucket[ref.gcsPath]))
  }

  ghost predicate Downloadable(bucket: map<string, Blob>, refs: seq<FileRef>, f: Faults, j: nat)
    requires j < |refs|
  {
    DownloadFault(f, j).None? && refs[j].gcsPath in bucket
  }

  lemma {:induction false} FetchFromSpec(bucket: map<string, Blob>, refs: seq<FileRef>, f: Faults, i: nat, acc: seq<File>)
    requires i <= |refs|
    ensures FetchFrom(bucket, refs, f, i, acc).Success? <==> forall j :: i <= j < |refs| ==> Downloadable(bucket, refs, f, j)
    ensures FetchFrom(bucket, refs, f, i, acc).Success? ==>
              var files := FetchFrom(bucket, refs, f, i, acc).value;
              && |files| == |acc| + |refs| - i && files[..|acc|] == acc
              && forall j :: i <= j < |refs| ==> Downloadable(bucket, refs, f, j) && files[|acc| + (j - i)] == FileOf(bucket, refs[j])
    decreases |refs| - i
  {
    if i < |refs| && Downloadable(bucket, refs, f, i) {
      var acc' := acc + [FileOf(bucket, refs[i])];
      FetchFromSpec(bucket, refs, f, i + 1, acc');
      if FetchFrom(bucket, refs, f, i, acc).Success? {
        var files := FetchFrom(bucket, refs, f, i, acc).value;
        assert files[..|acc|] == files[..|acc'|][..|acc|];
        assert files[|acc| + (i - i)] == files[..|acc'|][|acc|];
      }
    }
  }

  /** The downloads succeed exactly when every file is present and reachable, and then return the stored bytes. */
  lemma DownloadsReturnStoredFiles(bucket: map<string, Blob>, refs: seq<FileRef>, f: Faults)
    ensures FetchFiles(bucket, refs, f).Success? <==> forall j :: 0 <= j < |refs| ==> Downloadable(bucket, refs, f, j)
    ensures FetchFiles(bucket, refs, f).Success? ==>
              var files := FetchFiles(bucket, refs, f).value;
              |files| == |refs| && forall j :: 0 <= j < |refs| ==> Downloadable(bucket, refs, f, j) && files[j] == FileOf(bucket, refs[j])
  {
    FetchFromSpec(bucket, refs, f, 0, []);
  }

  lemma {:induction false} FetchFromFirstFailure(bucket: map<string, Blob>, refs: seq<FileRef>, f: Faults, i: nat, acc: seq<File>, j: nat)
    requires i <= j < |refs| && !Downloadable(bucket, refs, f, j)
    requires forall l :: i <= l < j ==> Downloadable(bucket, refs, f, l)
    ensures FetchFrom(bucket, refs, f, i, acc) == Failure(Fetch(bucket, refs[j].gcsPath, DownloadFault(f, j)).error)
    decreases j - i
  {
    if i < j {
      assert Downloadable(bucket, refs, f, i);
      FetchFromFirstFailure(bucket, refs, f, i + 1, acc + [FileOf(bucket, refs[i])], j);
    }
  }

  /** A failed download reports the error of the first file that could not be fetched. */
  lemma DownloadErrorIsFirstFailure(bucket: map<string, Blob>, refs: seq<FileRef>, f: Faults, j: nat)
    requires j < |refs| && !Downloadable(bucket, refs, f, j)
    requires forall l :: 0 <= l < j ==> Downloadable(bucket, refs, f, l)
    ensures FetchFiles(bucket, refs, f) == Failure(Fetch(bucket, refs[j].gcsPath, DownloadFault(f, j)).error)
  {
    FetchFromFirstFailure(bucket, refs, f, 0, [], j);
  }

  /** Progress writes touch only the job's own document, keep it `processing`, and stop at the first fault. */
  lemma {:induction false} ReplayKeepsProcessing(jobs: map<string, Job>, id: string, msgs: seq<string>, i: nat, now: int, f: Faults)
    requires i <= |msgs| && id in jobs && jobs[id].status == Processing
    ensures var r := ReplayFrom(jobs, id, msgs, i, now, f);
            && r.jobs.Keys == jobs.Keys
            && (forall k :: k in jobs && k != id ==> r.jobs[k] == jobs[k])
            && r.jobs[id].status == Processing
            && r.jobs[id].expiresAt == jobs[id].expiresAt && r.jobs[id].resultUrl == jobs[id].resultUrl
            && (r.error.None? <==> forall k :: 1 + i <= k <= |msgs| ==> StoreFault(f, k).None?)
            && (r.error.Some? ==> r.error == StoreFault(f, r.attempted))
            && (forall k :: 1 + i <= k < r.attempted ==> StoreFault(f, k).None?)
    decreases |msgs| - i
  {
    if i < |msgs| && StoreFault(f, 1 + i).None? {
      ReplayKeepsProcessing(jobs[id := WithStatus(jobs[id], Processing, msgs[i], now)], id, msgs, i + 1, now, f);
    }
  }

  /** The paths removed by deleting files `i` onwards: those whose delete did not fail. */
  ghost function RemovedPaths(refs: seq<FileRef>, f: Faults, i: nat): set<string> {
    set j | i <= j < |refs| && j !in f.delete :: refs[j].gcsPath
  }

  /** Deletion is attempted for every file; exactly the paths of deletes that did not fail are gone. */
  lemma {:induction false} DeletionRemovesExactly(bucket: map<string, Blob>, refs: seq<FileRef>, f: Faults, i: nat)
    requires i <= |refs|
    ensures DeleteFrom(bucket, refs, f, i) == bucket - RemovedPaths(refs, f, i)
    decreases |refs| - i
  {
    if i < |refs| {
      var b := Deleted(bucket, refs[i].gcsPath, i in f.delete);
      DeletionRemovesExactly(b, refs, f, i + 1);
      var here: set<string> := if i in f.delete then {} else {refs[i].gcsPath};
      assert RemovedPaths(refs, f, i) == here + RemovedPaths(refs, f, i + 1);
      assert b == bucket - here;
    }
  }

  // ---------------------------------------------------------------------------
  // Properties of the handler

  /** The first write is `processing` / "Starting slide generation...", later writes are `processing` but the last. */
  ghost predicate StatusOrder(writes: seq<JobWrite>) {
    && |writes| >= 1
    && writes[0] == JobWrite(Processing, StartMessage)
    && (forall k :: 0 <= k < |writes| - 1 ==> writes[k].status == Processing)
    && writes[|writes| - 1].status != Queued
  }

  /** Every run writes `processing` one or more times, then at most one `failed` or `completed`. */
  lemma WritesFollowStatusOrder(w: World, p: Payload, c: Collaborators, now: int, f: Faults)
    ensures StatusOrder(Process(w, p, c, now, f).writes)
  {
  }

  /** When the first status write fails, the handler answers with that error and changes nothing. */
  lemma StartFailureChangesNothing(w: World, p: Payload, c: Collaborators, now: int, f: Faults)
    requires UpdateFailure(w.jobs, p.jobId, StoreFault(f, 0)).Some?
    ensures var run := Process(w, p, c, now, f);
            && run.world == w
            && run.reply == ServerError(UpdateFailure(w.jobs, p.jobId, StoreFault(f, 0)).value)
            && run.writes == [JobWrite(Processing, StartMessage)]
  {
  }

  /**
   * A failed download writes `failed` with the "Download error: " prefix next, and nothing after:
   * no generation, no result, no deletion, no completion.
   */
  lemma DownloadFailureAborts(w: World, p: Payload, c: Collaborators, now: int, f: Faults, e: string)
    requires UpdateFailure(w.jobs, p.jobId, StoreFault(f, 0)).None?
    requires FetchFiles(w.bucket, p.files, f) == Failure(e)
    ensures var run := Process(w, p, c, now, f);
            && run.writes == [JobWrite(Processing, StartMessage), JobWrite(Failed, DownloadPrefix + e)]
            && run.world.results == w.results && run.world.bucket == w.bucket
            && run.reply == ServerError(if StoreFault(f, 1).Some? then StoreFault(f, 1).value else e)
            && run.world.jobs[p.jobId].status == (if StoreFault(f, 1).None? then Failed else Processing)
  {
  }

  /**
   * Generation that ends in an error, the generator's own or that of a failing progress write,
   * is followed by one `failed` write carrying "Failed to generate slides: " and that error;
   * no result is stored and nothing is deleted.
   */
  lemma GenerationFailureStoresNothing(w: World, p: Payload, c: Collaborators, now: int, f: Faults, files: seq<File>)
    requires UpdateFailure(w.jobs, p.jobId, StoreFault(f, 0)).None?
    requires FetchFiles(w.bucket, p.files, f) == Success(files)
    requires var j0 := w.jobs[p.jobId := WithStatus(w.jobs[p.jobId], Processing, StartMessage, now)];
             var g := GenerateSlides(files, c);
             GenerationError(ReplayFrom(j0, p.jobId, g.progress, 0, now, f), g).Some?
    ensures var j0 := w.jobs[p.jobId := WithStatus(w.jobs[p.jobId], Processing, StartMessage, now)];
            var g := GenerateSlides(files, c);
            var rp := ReplayFrom(j0, p.jobId, g.progress, 0, now, f);
            var e := GenerationError(rp, g).value;
            var run := Process(w, p, c, now, f);
            && run.world.results == w.results && run.world.bucket == w.bucket
            && run.writes == [JobWrite(Processing, StartMessage)] + ProcessingWrites(g.progress[..rp.attempted]) +
                             [JobWrite(Failed, GeneratePrefix + e)]
            && run.reply == ServerError(if StoreFault(f, 1 + rp.attempted).Some? then StoreFault(f, 1 + rp.attempted).value else e)
            && p.jobId in run.world.jobs
            && run.world.jobs[p.jobId].status == (if StoreFault(f, 1 + rp.attempted).None? then Failed else Processing)
  {
    var id := p.jobId;
    var w0 := w.(jobs := w.jobs[id := WithStatus(w.jobs[id], Processing, StartMessage, now)]);
    ProcessAfterStart(w, p, c, now, f);
    AfterStartSucceeded(w0, p, c, now, f, files);
    var g := GenerateSlides(files, c);
    ReplayKeepsProcessing(w0.jobs, id, g.progress, 0, now, f);
  }

  /**
   * A failed `store_result` is followed by one `failed` write carrying "Failed to store: " and its
   * error; no result is stored, nothing is deleted and no completion is written.
   */
  lemma StoreFailureStoresNothing(w: World, p: Payload, g: Generation, rp: Replayed, now: int, f: Faults)
    requires rp.attempted <= |g.progress| && GenerationError(rp, g).None?
    requires StoreFault(f, 1 + rp.attempted).Some? && p.jobId in w.jobs
    ensures var se := StoreFault(f, 1 + rp.attempted).value;
            var ce := StoreFault(f, 2 + rp.attempted);
            var run := AfterGeneration(w, p, g, rp, now, f);
            && run.world.results == w.results && run.world.bucket == w.bucket
            && run.writes == [JobWrite(Processing, StartMessage)] + ProcessingWrites(g.progress[..rp.attempted]) +
                             [JobWrite(Failed, StorePrefix + se)]
            && run.reply == ServerError(if ce.Some? then ce.value else se)
            && p.jobId in run.world.jobs
            && run.world.jobs[p.jobId].status == (if ce.None? then Failed else w.jobs[p.jobId].status)
  {
    AfterGenerationSucceeded(w, p, g, rp, now, f);
  }

  /** Every step succeeds exactly when the handler answers with success. */
  ghost predicate AllStepsSucceed(w: World, p: Payload, c: Collaborators, f: Faults, files: seq<File>) {
    var g := GenerateSlides(files, c);
    && UpdateFailure(w.jobs, p.jobId, StoreFault(f, 0)).None?
    && FetchFiles(w.bucket, p.files, f) == Success(files)
    && (forall k :: 1 <= k <= |g.progress| ==> StoreFault(f, k).None?)
    && g.outcome.Success?
    && StoreFault(f, 1 + |g.progress|).None?
    && StoreFault(f, 2 + |g.progress|).None?
  }

  /**
   * A successful run stored the result under the job id with url "/results/" + id, marked the job
   * completed with its job TTL, deleted the inputs, and wrote the four progress messages in order.
   */
  lemma SuccessfulRun(w: World, p: Payload, c: Collaborators, now: int, f: Faults, files: seq<File>)
    requires FetchFiles(w.bucket, p.files, f) == Success(files)
    ensures Process(w, p, c, now, f).reply == Done <==> AllStepsSucceed(w, p, c, f, files)
    ensures Process(w, p, c, now, f).reply == Done ==>
              var run := Process(w, p, c, now, f);
              var id := p.jobId;
              var out := GenerateSlides(files, c).outcome.value;
              && run.world.results == w.results[id := NewResult(id, ResultUrl(id), out.pdf, out.html, now)]
              && run.world.jobs == w.jobs[id := WithCompleted(WithStatus(w.jobs[id], Processing, Finalizing, now), CompletedMessage, now)]
              && run.world.bucket == w.bucket - RemovedPaths(p.files, f, 0)
              && run.writes == [JobWrite(Processing, StartMessage)] + ProcessingWrites(ProgressMessages) +
                               [JobWrite(Completed, CompletedMessage)]
  {
    var id := p.jobId;
    DeletionRemovesExactly(w.bucket, p.files, f, 0);
    if UpdateFailure(w.jobs, id, StoreFault(f, 0)).None? {
      var w0 := w.(jobs := w.jobs[id := WithStatus(w.jobs[id], Processing, StartMessage, now)]);
      var g := GenerateSlides(files, c);
      var rp := ReplayFrom(w0.jobs, id, g.progress, 0, now, f);
      ReplayKeepsProcessing(w0.jobs, id, g.progress, 0, now, f);
      ProcessAfterStart(w, p, c, now, f);
      AfterStartSucceeded(w0, p, c, now, f, files);
      AfterGenerationDone(w0.(jobs := rp.jobs), p, g, rp, now, f);
      if rp.error.None? && g.outcome.Success? {
        ReplayAllWrites(w0.jobs, id, g.progress, 0, now, f);
        assert g.progress[..rp.attempted] == ProgressMessages;
      }
    }
  }

  /** From the end of generation on, the run succeeds exactly when the three remaining writes do. */
  lemma AfterGenerationDone(w: World, p: Payload, g: Generation, rp: Replayed, now: int, f: Faults)
    requires rp.attempted <= |g.progress|
    ensures var run := AfterGeneration(w, p, g, rp, now, f);
            var k := 1 + rp.attempted;
            run.reply == Done <==>
              GenerationError(rp, g).None? && StoreFault(f, k).None? && StoreFault(f, k + 1).None? && p.jobId in w.jobs
    ensures var run := AfterGeneration(w, p, g, rp, now, f);
            var id := p.jobId;
            run.reply == Done ==>
              && id in w.jobs && g.outcome.Success?
              && run.world.results == w.results[id := NewResult(id, ResultUrl(id), g.outcome.value.pdf, g.outcome.value.html, now)]
              && run.world.jobs == w.jobs[id := WithCompleted(w.jobs[id], CompletedMessage, now)]
              && run.world.bucket == DeleteFrom(w.bucket, p.files, f, 0)
              && run.writes == [JobWrite(Processing, StartMessage)] + ProcessingWrites(g.progress[..rp.attempted]) +
                               [JobWrite(Completed, CompletedMessage)]
  {
    if GenerationError(rp, g).None? {
      AfterGenerationSucceeded(w, p, g, rp, now, f);
      var k := 1 + rp.attempted;
      if StoreFault(f, k).None? {
        var writes := [JobWrite(Processing, StartMessage)] + ProcessingWrites(g.progress[..rp.attempted]);
        AfterStoreSucceeded(w, p, g.outcome.value, writes, now, f, k);
      }
    }
  }

  /** With every write succeeding, the progress writes leave the last message on the job. */
  lemma {:induction false} ReplayAllWrites(jobs: map<string, Job>, id: string, msgs: seq<string>, i: nat, now: int, f: Faults)
    requires i < |msgs| && id in jobs
    requires forall k :: 1 + i <= k <= |msgs| ==> StoreFault(f, k).None?
    ensures ReplayFrom(jobs, id, msgs, i, now, f).jobs == jobs[id := WithStatus(jobs[id], Processing, msgs[|msgs| - 1], now)]
    decreases |msgs| - i
  {
    if i + 1 < |msgs| {
      ReplayAllWrites(jobs[id := WithStatus(jobs[id], Processing, msgs[i], now)], id, msgs, i + 1, now, f);
    }
  }

  /**
   * When the completion write fails, the handler answers with its error and writes no `failed`:
   * the result is stored, yet the job stays `processing`.
   */
  lemma CompletionFailureLeavesProcessing(w: World, p: Payload, c: Collaborators, now: int, f: Faults, files: seq<File>)
    requires FetchFiles(w.bucket, p.files, f) == Success(files)
    requires var g := GenerateSlides(files, c);
             && UpdateFailure(w.jobs, p.jobId, StoreFault(f, 0)).None?
             && (forall k :: 1 <= k <= |g.progress| ==> StoreFault(f, k).None?)
             && g.outcome.Success?
             && StoreFault(f, 1 + |g.progress|).None?
             && StoreFault(f, 2 + |g.progress|).Some?
    ensures var run := Process(w, p, c, now, f);
            && run.reply == ServerError(StoreFault(f, 2 + |GenerateSlides(files, c).progress|).value)
            && p.jobId in run.world.jobs && run.world.jobs[p.jobId].status == Processing
            && p.jobId in run.world.results && run.world.results[p.jobId].resultUrl == ResultUrl(p.jobId)
            && forall k :: 0 <= k < |run.writes| ==> run.writes[k].status != Failed
  {
    var id := p.jobId;
    var w0 := w.(jobs := w.jobs[id := WithStatus(w.jobs[id], Processing, StartMessage, now)]);
    var g := GenerateSlides(files, c);
    ReplayKeepsProcessing(w0.jobs, id, g.progress, 0, now, f);
  }

  /** Every job marked completed has a result record under the same id. */
  ghost predicate CompletedHaveResults(w: World) {
    forall id :: id in w.jobs && w.jobs[id].status == Completed ==> id in w.results
  }

  lemma FailRunKeepsResults(w: World, writes: seq<JobWrite>, id: string, message: string, now: int, f: Faults, k: nat, cause: string)
    requires CompletedHaveResults(w)
    ensures CompletedHaveResults(FailRun(w, writes, id, message, now, f, k, cause).world)
  {
  }

  lemma AfterGenerationKeepsResults(w: World, p: Payload, g: Generation, rp: Replayed, now: int, f: Faults)
    requires rp.attempted <= |g.progress| && CompletedHaveResults(w)
    ensures CompletedHaveResults(AfterGeneration(w, p, g, rp, now, f).world)
  {
    var id := p.jobId;
    var writes := [JobWrite(Processing, StartMessage)] + ProcessingWrites(g.progress[..rp.attempted]);
    var k := 1 + rp.attempted;
    var ge := GenerationError(rp, g);
    if ge.Some? {
      FailRunKeepsResults(w, writes, id, GeneratePrefix + ge.value, now, f, k, ge.value);
    } else if StoreFault(f, k).Some? {
      FailRunKeepsResults(w, writes, id, StorePrefix + StoreFault(f, k).value, now, f, k + 1, StoreFault(f, k).value);
    }
  }

  lemma AfterStartKeepsResults(w: World, p: Payload, c: Collaborators, now: int, f: Faults)
    requires CompletedHaveResults(w) && p.jobId in w.jobs && w.jobs[p.jobId].status == Processing
    ensures CompletedHaveResults(AfterStart(w, p, c, now, f).world)
  {
    var id := p.jobId;
    match FetchFiles(w.bucket, p.files, f)
    case Failure(e) =>
      FailRunKeepsResults(w, [JobWrite(Processing, StartMessage)], id, DownloadPrefix + e, now, f, 1, e);
    case Success(files) =>
      var g := GenerateSlides(files, c);
      var rp := ReplayFrom(w.jobs, id, g.progress, 0, now, f);
      ReplayKeepsProcessing(w.jobs, id, g.progress, 0, now, f);
      AfterGenerationKeepsResults(w.(jobs := rp.jobs), p, g, rp, now, f);
  }

  /** A run, whatever fails in it, never leaves a completed job without its result. */
  lemma CompletedImpliesResult(w: World, p: Payload, c: Collaborators, now: int, f: Faults)
    requires CompletedHaveResults(w)
    ensures CompletedHaveResults(Process(w, p, c, now, f).world)
  {
    var id := p.jobId;
    if UpdateFailure(w.jobs, id, StoreFault(f, 0)).None? {
      ProcessAfterStart(w, p, c, now, f);
      AfterStartKeepsResults(w.(jobs := w.jobs[id := WithStatus(w.jobs[id], Processing, StartMessage, now)]), p, c, now, f);
    }
  }

  lemma {:induction false} FetchIgnoresDeletes(bucket: map<string, Blob>, refs: seq<FileRef>, f: Faults, d: set<nat>, i: nat, acc: seq<File>)
    requires i <= |refs|
    ensures FetchFrom(bucket, refs, f.(delete := d), i, acc) == FetchFrom(bucket, refs, f, i, acc)
    decreases |refs| - i
  {
    if i < |refs| && Downloadable(bucket, refs, f, i) {
      FetchIgnoresDeletes(bucket, refs, f, d, i + 1, acc + [FileOf(bucket, refs[i])]);
    }
  }

  lemma {:induction false} ReplayIgnoresDeletes(jobs: map<string, Job>, id: string, msgs: seq<string>, i: nat, now: int, f: Faults, d: set<nat>)
    requires i <= |msgs|
    ensures ReplayFrom(jobs, id, msgs, i, now, f.(delete := d)) == ReplayFrom(jobs, id, msgs, i, now, f)
    decreases |msgs| - i
  {
    if i < |msgs| && UpdateFailure(jobs, id, StoreFault(f, 1 + i)).None? {
      ReplayIgnoresDeletes(jobs[id := WithStatus(jobs[id], Processing, msgs[i], now)], id, msgs, i + 1, now, f, d);
    }
  }

  /** Two runs that differ at most in the bucket. */
  ghost predicate SameButBucket(r1: Run, r2: Run) {
    r1.reply == r2.reply && r1.writes == r2.writes && r1.world.jobs == r2.world.jobs && r1.world.results == r2.world.results
  }

  lemma AfterGenerationIgnoresDeletes(w: World, p: Payload, g: Generation, rp: Replayed, now: int, f: Faults, d: set<nat>)
    requires rp.attempted <= |g.progress|
    ensures SameButBucket(AfterGeneration(w, p, g, rp, now, f), AfterGeneration(w, p, g, rp, now, f.(delete := d)))
  {
    var f2 := f.(delete := d);
    if GenerationError(rp, g).None? {
      AfterGenerationSucceeded(w, p, g, rp, now, f);
      AfterGenerationSucceeded(w, p, g, rp, now, f2);
      var k := 1 + rp.attempted;
      assert StoreFault(f, k) == StoreFault(f2, k);
      if StoreFault(f, k).None? {
        var writes := [JobWrite(Processing, StartMessage)] + ProcessingWrites(g.progress[..rp.attempted]);
        AfterStoreSucceeded(w, p, g.outcome.value, writes, now, f, k);
        AfterStoreSucceeded(w, p, g.outcome.value, writes, now, f2, k);
        assert StoreFault(f, k + 1) == StoreFault(f2, k + 1);
      }
    }
  }

  lemma AfterStartIgnoresDeletes(w: World, p: Payload, c: Collaborators, now: int, f: Faults, d: set<nat>)
    ensures SameButBucket(AfterStart(w, p, c, now, f), AfterStart(w, p, c, now, f.(delete := d)))
  {
    FetchIgnoresDeletes(w.bucket, p.files, f, d, 0, []);
    match FetchFiles(w.bucket, p.files, f)
    case Failure(e) =>
    case Success(files) =>
      var g := GenerateSlides(files, c);
      ReplayIgnoresDeletes(w.jobs, p.jobId, g.progress, 0, now, f, d);
      var rp := ReplayFrom(w.jobs, p.jobId, g.progress, 0, now, f);
      AfterGenerationIgnoresDeletes(w.(jobs := rp.jobs), p, g, rp, now, f, d);
  }

  /** A failed deletion never changes the answer, the job writes or the store: only the bucket differs. */
  lemma DeletionFailuresNeverAbort(w: World, p: Payload, c: Collaborators, now: int, f: Faults, deleteFails: set<nat>)
    ensures SameButBucket(Process(w, p, c, now, f), Process(w, p, c, now, f.(delete := deleteFails)))
  {
    var id := p.jobId;
    if UpdateFailure(w.jobs, id, StoreFault(f, 0)).None? {
      ProcessAfterStart(w, p, c, now, f);
      ProcessAfterStart(w, p, c, now, f.(delete := deleteFails));
      AfterStartIgnoresDeletes(w.(jobs := w.jobs[id := WithStatus(w.jobs[id], Processing, StartMessage, now)]), p, c, now, f, deleteFails);
    }
  }

  /** A redelivered task that succeeds again leaves one result for the job: the one it stored. */
  lemma RedeliveryKeepsLastResult(w: World, p: Payload, c1: Collaborators, c2: Collaborators, t1: int, t2: int,
                                  f1: Faults, f2: Faults, files: seq<File>)
    requires Process(w, p, c1, t1, f1).reply == Done
    requires FetchFiles(Process(w, p, c1, t1, f1).world.bucket, p.files, f2) == Success(files)
    requires Process(Process(w, p, c1, t1, f1).world, p, c2, t2, f2).reply == Done
    ensures var run1 := Process(w, p, c1, t1, f1);
            var run2 := Process(run1.world, p, c2, t2, f2);
            var out := GenerateSlides(files, c2).outcome.value;
            && run2.world.results.Keys == run1.world.results.Keys
            && run2.world.results[p.jobId] == NewResult(p.jobId, ResultUrl(p.jobId), out.pdf, out.html, t2)
  {
    var run1 := Process(w, p, c1, t1, f1);
    DownloadsReturnStoredFiles(w.bucket, p.files, f1);
    var files1 := FetchFiles(w.bucket, p.files, f1).value;
    SuccessfulRun(w, p, c1, t1, f1, files1);
    SuccessfulRun(run1.world, p, c2, t2, f2, files);
  }

  /**
   * In the ordinary redelivery the inputs are gone: a run that succeeded deleted its first file,
   * so the next run of the same task fails its first download, writes `failed` and keeps the
   * stored result. The job goes from `completed` back through `processing` to `failed`.
   */
  lemma RedeliveryAfterCleanupFails(w: World, p: Payload, c1: Collaborators, c2: Collaborators, t1: int, t2: int,
                                    f1: Faults, f2: Faults)
    requires |p.files| >= 1 && 0 !in f1.delete
    requires Process(w, p, c1, t1, f1).reply == Done
    requires StoreFault(f2, 0).None? && StoreFault(f2, 1).None?
    ensures var run1 := Process(w, p, c1, t1, f1);
            var run2 := Process(run1.world, p, c2, t2, f2);
            var e := if DownloadFault(f2, 0).Some? then DownloadFault(f2, 0).value else MissingBlobError;
            && p.files[0].gcsPath !in run1.world.bucket
            && p.jobId in run1.world.jobs && run1.world.jobs[p.jobId].status == Completed
            && p.jobId in run2.world.jobs && run2.world.jobs[p.jobId].status == Failed
            && run2.world.results == run1.world.results && p.jobId in run2.world.results
            && run2.reply == ServerError(e)
            && run2.writes == [JobWrite(Processing, StartMessage), JobWrite(Failed, DownloadPrefix + e)]
  {
    var id := p.jobId;
    var run1 := Process(w, p, c1, t1, f1);
    DownloadsReturnStoredFiles(w.bucket, p.files, f1);
    var files1 := FetchFiles(w.bucket, p.files, f1).value;
    SuccessfulRun(w, p, c1, t1, f1, files1);
    assert p.files[0].gcsPath in RemovedPaths(p.files, f1, 0);
    assert !Downloadable(run1.world.bucket, p.files, f2, 0);
    DownloadErrorIsFirstFailure(run1.world.bucket, p.files, f2, 0);
    var e := if DownloadFault(f2, 0).Some? then DownloadFault(f2, 0).value else MissingBlobError;
    DownloadFailureAborts(run1.world, p, c2, t2, f2, e);
  }
}
