/**
 * The record store as the worker uses it (`FirestoreService`): two collections,
 * `jobs` and `results`, keyed by job id. Job writes are field-level updates, which
 * fail on a missing document; result writes replace the whole document. The clock
 * reading `now` and the store's transport failures (`fault`, the raised error's
 * text) are parameters. Every failure is passed back to the caller.
 */
module Records {
  import opened Common

  /** Seconds a completed job stays readable. */
  const JobTtl: int := 300
  /** Seconds a result stays readable. */
  const ResultTtl: int := 3600

  datatype Status = Queued | Processing | Completed | Failed

  datatype Job = Job(
    id: string,
    status: Status,
    message: string,
    resultUrl: Option<string>,
    createdAt: int,
    updatedAt: int,
    expiresAt: Option<int>)

  /** `FireStoreResult`, the document stored under `results/{id}`. */
  datatype ResultDoc = ResultDoc(
    id: string,
    resultUrl: string,
    pdfData: seq<byte>,
    htmlData: seq<byte>,
    createdAt: int,
    expiresAt: int)

  /** A write the worker attempted on a job document: the status and message it carried. */
  datatype JobWrite = JobWrite(status: Status, message: string)

  /** Text of the error a field update raises when the job document does not exist. */
  function NoDocumentError(id: string): string {
    "No document to update: jobs/" + id
  }

  /** The error a job update raises: a transport failure first, then a missing document. */
  function UpdateFailure(jobs: map<string, Job>, id: string, fault: Option<string>): (e: Option<string>)
    ensures e.None? <==> fault.None? && id in jobs
  {
    if fault.Some? then fault
    else if id !in jobs then Some(NoDocumentError(id))
    else None
  }

  /** The job after `update_job_status`: only status, message and the update time are written. */
  function WithStatus(j: Job, status: Status, message: string, now: int): (r: Job)
    ensures r.status == status && r.message == message && r.updatedAt == now
    ensures r.id == j.id && r.resultUrl == j.resultUrl && r.createdAt == j.createdAt && r.expiresAt == j.expiresAt
  {
    j.(status := status, message := message, updatedAt := now)
  }

  /** The job after `set_job_completed`: completed, and expiring `JobTtl` seconds from now. */
  function WithCompleted(j: Job, message: string, now: int): (r: Job)
    ensures r.status == Completed && r.message == message && r.updatedAt == now && r.expiresAt == Some(now + JobTtl)
    ensures r.id == j.id && r.resultUrl == j.resultUrl && r.createdAt == j.createdAt
  {
    j.(status := Completed, message := message, updatedAt := now, expiresAt := Some(now + JobTtl))
  }

  /** The document `store_result` writes. */
  function NewResult(id: string, resultUrl: string, pdf: seq<byte>, html: seq<byte>, now: int): (r: ResultDoc)
    ensures r.id == id && r.resultUrl == resultUrl && r.pdfData == pdf && r.htmlData == html
    ensures r.createdAt == now && r.expiresAt == now + ResultTtl
  {
    ResultDoc(id, resultUrl, pdf, html, now, now + ResultTtl)
  }

  /** Status updates are last-writer-wins: a second update hides the first entirely. */
  lemma StatusUpdatesLastWriterWins(j: Job, s1: Status, m1: string, t1: int, s2: Status, m2: string, t2: int)
    ensures WithStatus(WithStatus(j, s1, m1, t1), s2, m2, t2) == WithStatus(j, s2, m2, t2)
  {
  }

  /** Written at the same instant, a result outlives its completed job by 3300 seconds. */
  lemma ResultOutlivesJob(j: Job, message: string, id: string, url: string, pdf: seq<byte>, html: seq<byte>, now: int)
    ensures NewResult(id, url, pdf, html, now).expiresAt == WithCompleted(j, message, now).expiresAt.value + 3300
  {
  }

  class FirestoreService {
    var jobs: map<string, Job>
    var results: map<string, ResultDoc>
    /** Every job-document write attempted, in call order, whether or not it was applied. */
    ghost var attempts: seq<JobWrite>

    constructor (jobs0: map<string, Job>, results0: map<string, ResultDoc>)
      ensures jobs == jobs0 && results == results0 && attempts == []
    {
      jobs := jobs0;
      results := results0;
      attempts := [];
    }

    /** `update_job_status`; `resultUrl` is accepted and never written. */
    method UpdateJobStatus(jobId: string, status: Status, message: string, resultUrl: string, now: int, fault: Option<string>)
      returns (r: Outcome)
      modifies this
      ensures r.Pass? <==> UpdateFailure(old(jobs), jobId, fault).None?
      ensures r.Fail? ==> UpdateFailure(old(jobs), jobId, fault) == Some(r.error)
      ensures jobs == if r.Pass? then old(jobs)[jobId := WithStatus(old(jobs)[jobId], status, message, now)] else old(jobs)
      ensures results == old(results)
      ensures attempts == old(attempts) + [JobWrite(status, message)]
    {
      attempts := attempts + [JobWrite(status, message)];
      var e := UpdateFailure(jobs, jobId, fault);
      if e.Some? {
        return Fail(e.value);
      }
      jobs := jobs[jobId := WithStatus(jobs[jobId], status, message, now)];
      r := Pass;
    }

    /** `set_job_completed`; `resultUrl` is accepted and never written. */
    method SetJobCompleted(jobId: string, message: string, resultUrl: string, now: int, fault: Option<string>)
      returns (r: Outcome)
      modifies this
      ensures r.Pass? <==> UpdateFailure(old(jobs), jobId, fault).None?
      ensures r.Fail? ==> UpdateFailure(old(jobs), jobId, fault) == Some(r.error)
      ensures jobs == if r.Pass? then old(jobs)[jobId := WithCompleted(old(jobs)[jobId], message, now)] else old(jobs)
      ensures results == old(results)
      ensures attempts == old(attempts) + [JobWrite(Completed, message)]
    {
      attempts := attempts + [JobWrite(Completed, message)];
      var e := UpdateFailure(jobs, jobId, fault);
      if e.Some? {
        return Fail(e.value);
      }
      jobs := jobs[jobId := WithCompleted(jobs[jobId], message, now)];
      r := Pass;
    }

    /** `store_result`: replaces `results/{jobId}` whole, creating it when absent. */
    method StoreResult(jobId: string, resultUrl: string, pdf: seq<byte>, html: seq<byte>, now: int, fault: Option<string>)
      returns (r: Outcome)
      modifies this
      ensures r == if fault.Some? then Fail(fault.value) else Pass
      ensures results == if r.Pass? then old(results)[jobId := NewResult(jobId, resultUrl, pdf, html, now)] else old(results)
      ensures jobs == old(jobs) && attempts == old(attempts)
    {
      if fault.Some? {
        return Fail(fault.value);
      }
      results := results[jobId := NewResult(jobId, resultUrl, pdf, html, now)];
      r := Pass;
    }
  }

  /** Storing a result twice under one id, as a redelivered task does, leaves one record: the last. */
  method StoreResultTwice(db: FirestoreService, jobId: string, url: string,
                          pdf1: seq<byte>, html1: seq<byte>, t1: int,
                          pdf2: seq<byte>, html2: seq<byte>, t2: int)
    modifies db
    ensures db.results.Keys == old(db.results.Keys) + {jobId}
    ensures db.results[jobId] == NewResult(jobId, url, pdf2, html2, t2)
    ensures forall id :: id in old(db.results) && id != jobId ==> db.results[id] == old(db.results[id])
    ensures db.jobs == old(db.jobs)
  {
    var r1 := db.StoreResult(jobId, url, pdf1, html1, t1, None);
    var r2 := db.StoreResult(jobId, url, pdf2, html2, t2, None);
  }
}
