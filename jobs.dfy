/** The job lifecycle of the KYC service: the `JobStatus` record with its
    guarded status transitions and bookkeeping, and the service's registry
    of jobs with its submission, lookup, report retrieval and background
    processing. Clock readings, the upload's file write, the report
    pipeline, the e-mail delivery and the file system are given to the
    operations as values. */
module Jobs {
  import opened Base
  import Reports

  /** A clock reading, in microseconds. */
  type Instant = int

  const MicrosPerSecond: real := 1000000.0

  // ------------------------------------------------------------ job status

  datatype JobState = Submitted | Processing | Completed | Failed

  /** The status string a job holds and reports. */
  function StateName(s: JobState): string {
    match s
    case Submitted => "submitted"
    case Processing => "processing"
    case Completed => "completed"
    case Failed => "failed"
  }

  /** The status a string names, if it names one. */
  function StateNamed(name: string): (r: Option<JobState>)
    ensures r.Some? ==> StateName(r.value) == name
    ensures forall s :: StateName(s) == name ==> r == Some(s)
  {
    if name == "submitted" then Some(Submitted)
    else if name == "processing" then Some(Processing)
    else if name == "completed" then Some(Completed)
    else if name == "failed" then Some(Failed)
    else None
  }

  predicate Terminal(s: JobState) {
    s == Completed || s == Failed
  }

  /** The table of valid transitions of `update_status`. */
  function Successors(s: JobState): seq<JobState> {
    match s
    case Submitted => [Processing]
    case Processing => [Completed, Failed]
    case Completed => []
    case Failed => []
  }

  /** `update_status` accepts `newStatus` from a job in state `from`. */
  predicate Allowed(from: JobState, newStatus: string) {
    StateNamed(newStatus).Some? && StateNamed(newStatus).value in Successors(from)
  }

  /** The only accepted requests are submitted to processing and processing
      to completed or failed. */
  lemma {:induction false} TransitionTable(from: JobState, newStatus: string)
    ensures Allowed(from, newStatus) <==>
      (from == Submitted && newStatus == "processing") ||
      (from == Processing && (newStatus == "completed" || newStatus == "failed"))
  {
  }

  /** Nothing leaves a finished state. */
  lemma {:induction false} TerminalIsFinal(s: JobState, newStatus: string)
    requires Terminal(s)
    ensures !Allowed(s, newStatus)
  {
  }

  /** How far along the lifecycle a state is. */
  function Rank(s: JobState): nat {
    match s
    case Submitted => 0
    case Processing => 1
    case Completed => 2
    case Failed => 2
  }

  /** The state after a series of `update_status` requests, each rejected one
      leaving the state as it was. */
  function AfterUpdates(s: JobState, requests: seq<string>): JobState
    decreases |requests|
  {
    if requests == [] then s
    else AfterUpdates(if Allowed(s, requests[0]) then StateNamed(requests[0]).value else s, requests[1..])
  }

  /** How many requests of the series are accepted. */
  function AcceptedCount(s: JobState, requests: seq<string>): nat
    decreases |requests|
  {
    if requests == [] then 0
    else
      (if Allowed(s, requests[0]) then 1 else 0) +
      AcceptedCount(if Allowed(s, requests[0]) then StateNamed(requests[0]).value else s, requests[1..])
  }

  /** Every accepted request moves the job one step further along, so no
      state is ever entered twice and no series of requests is accepted more
      than twice. */
  lemma {:induction false} UpdatesMoveForward(s: JobState, requests: seq<string>)
    ensures Rank(AfterUpdates(s, requests)) == Rank(s) + AcceptedCount(s, requests)
    ensures AcceptedCount(s, requests) <= 2 - Rank(s)
    decreases |requests|
  {
    if requests != [] {
      var next := if Allowed(s, requests[0]) then StateNamed(requests[0]).value else s;
      UpdatesMoveForward(next, requests[1..]);
    }
  }

  /** Python truthiness of an optional string. */
  predicate Truthy(s: Option<string>) {
    s.Some? && s.value != ""
  }

  /** A value stored in `processing_metadata`. */
  datatype MetaValue = Flag(flag: bool) | Note(note: string)

  datatype MetadataEntry = MetadataEntry(value: MetaValue, timestamp: Instant)

  datatype EmailStatus = EmailStatus(success: bool, timestamp: Instant, error: Option<string>)

  /** `to_response_dict`; a key that is absent from the dictionary is
      `None` here, and `duration` is always present, possibly null. */
  datatype EmailNotice = EmailNotice(address: string, status: Option<EmailStatus>)

  datatype ResponseDict = ResponseDict(
    jobId: string,
    status: string,
    createdAt: Instant,
    duration: Option<real>,
    completedAt: Option<Instant>,
    error: Option<string>,
    report: Option<Reports.KYCReport>,
    emailNotification: Option<EmailNotice>)

  const InvalidTransition := "Invalid status transition: "
  const ErrorNeedsFailed := "Error message only valid for failed status"

  class JobStatus {
    const jobId: string
    const createdAt: Instant
    const documentPath: Option<string>
    const callbackUrl: Option<string>
    const emailNotification: Option<string>
    var status: JobState
    var completedAt: Option<Instant>
    var report: Option<Reports.KYCReport>
    var error: Option<string>
    var emailStatus: Option<EmailStatus>
    var processingMetadata: map<string, MetadataEntry>

    /** A finished job knows when it finished. */
    ghost predicate Valid()
      reads this
    {
      Terminal(status) ==> completedAt.Some?
    }

    /** A freshly submitted job. */
    constructor (jobId: string, createdAt: Instant, documentPath: Option<string>,
                 callbackUrl: Option<string>, emailNotification: Option<string>)
      ensures Valid()
      ensures this.jobId == jobId && this.createdAt == createdAt && this.documentPath == documentPath
      ensures this.callbackUrl == callbackUrl && this.emailNotification == emailNotification
      ensures status == Submitted && completedAt.None? && report.None? && error.None?
      ensures emailStatus.None? && processingMetadata == map[]
    {
      this.jobId := jobId;
      this.createdAt := createdAt;
      this.documentPath := documentPath;
      this.callbackUrl := callbackUrl;
      this.emailNotification := emailNotification;
      status := Submitted;
      completedAt := None;
      report := None;
      error := None;
      emailStatus := None;
      processingMetadata := map[];
    }

    /** `duration()`: the seconds from creation to completion, once the job
        has completed. */
    function Duration(): (d: Option<real>)
      reads this
      ensures d.Some? <==> completedAt.Some?
      ensures d.Some? ==> d.value * MicrosPerSecond == (completedAt.value - createdAt) as real
    {
      if completedAt.Some? then Some((completedAt.value - createdAt) as real / MicrosPerSecond) else None
    }

    /** `update_status`: a request the transition table rejects raises and
        changes nothing; an accepted one sets the status, and the completion
        time when the new status is final. An error message is stored with
        `failed`; with any other status it raises, after the status has
        already changed. The exception raised, if any, is returned. */
    method UpdateStatus(newStatus: string, error: Option<string>, now: Instant) returns (raised: Option<Exc>)
      requires Valid()
      modifies this`status, this`completedAt, this`error
      ensures Valid()
      ensures !Allowed(old(status), newStatus) ==>
        raised == Some(Exc(ValueError, InvalidTransition + StateName(old(status)) + " -> " + newStatus)) &&
        status == old(status) && completedAt == old(completedAt) && this.error == old(this.error)
      ensures Allowed(old(status), newStatus) ==>
        Some(status) == StateNamed(newStatus) &&
        completedAt == (if Terminal(status) then Some(now) else old(completedAt))
      ensures Allowed(old(status), newStatus) && Truthy(error) && status != Failed ==>
        raised == Some(Exc(ValueError, ErrorNeedsFailed)) && this.error == old(this.error)
      ensures Allowed(old(status), newStatus) && !(Truthy(error) && status != Failed) ==>
        raised.None? && this.error == (if Truthy(error) then error else old(this.error))
    {
      if !Allowed(status, newStatus) {
        return Some(Exc(ValueError, InvalidTransition + StateName(status) + " -> " + newStatus));
      }
      status := StateNamed(newStatus).value;
      if Terminal(status) {
        completedAt := Some(now);
      }
      raised := None;
      if Truthy(error) {
        if status != Failed {
          return Some(Exc(ValueError, ErrorNeedsFailed));
        }
        this.error := error;
      }
    }

    /** `add_metadata`: entry `key` is replaced by the value and the time it
        was recorded; every other entry stays as it was. */
    method AddMetadata(key: string, value: MetaValue, now: Instant)
      modifies this`processingMetadata
      ensures processingMetadata == old(processingMetadata)[key := MetadataEntry(value, now)]
    {
      processingMetadata := processingMetadata[key := MetadataEntry(value, now)];
    }

    /** `set_email_status`: replaces the e-mail delivery record. */
    method SetEmailStatus(success: bool, error: Option<string>, now: Instant)
      modifies this`emailStatus
      ensures emailStatus == Some(EmailStatus(success, now, error))
    {
      emailStatus := Some(EmailStatus(success, now, error));
    }

    /** `to_response_dict`: identity, status, creation time and duration are
        always reported; the completion time, the error, the report and the
        e-mail notice exactly when the job has them. */
    function ToResponseDict(): (r: ResponseDict)
      reads this
      ensures r.jobId == jobId && r.status == StateName(status) && r.createdAt == createdAt
      ensures r.duration == Duration() && r.completedAt == completedAt && r.report == report
      ensures r.error.Some? <==> Truthy(error)
      ensures r.error.Some? ==> r.error == error
      ensures r.emailNotification.Some? <==> Truthy(emailNotification)
      ensures r.emailNotification.Some? ==> r.emailNotification.value == EmailNotice(emailNotification.value, emailStatus)
    {
      ResponseDict(
        jobId, StateName(status), createdAt, Duration(), completedAt,
        if Truthy(error) then error else None,
        report,
        if Truthy(emailNotification) then Some(EmailNotice(emailNotification.value, emailStatus)) else None)
    }
  }

  /** A finished job always reports when it finished and how long it took. */
  lemma {:induction false} FinishedJobReportsDuration(job: JobStatus)
    requires job.Valid() && Terminal(job.status)
    ensures job.ToResponseDict().completedAt.Some? && job.ToResponseDict().duration.Some?
  {
  }

  // --------------------------------------------------------------- service

  datatype HttpError = HttpError(statusCode: int, detail: string)

  const UploadDir := "uploads"
  const JobNotFound := "Job not found"
  const SubmitFailed := "Error submitting document: "
  const NotReady := "Report not ready. Current status: "
  const PdfNotFound := "PDF report file not found"
  const RetrieveFailed := "Error retrieving report: "
  const PdfMediaType := "application/pdf"

  /** Where `analyze_document` writes an upload: `uploads/<job id>_<file name>`. */
  function UploadPath(jobId: string, filename: string): string {
    UploadDir + "/" + jobId + "_" + filename
  }

  /** Job ids of one length (every `uuid4` string has 36 characters) never
      share an upload file, whatever the uploaded files are called. */
  lemma {:induction false} UploadPathsDistinct(a: string, f: string, b: string, g: string)
    requires |a| == |b| && UploadPath(a, f) == UploadPath(b, g)
    ensures a == b && f == g
  {
    var lo := |UploadDir| + 1;
    var p := UploadPath(a, f);
    assert p[lo..lo + |a|] == a;
    assert UploadPath(b, g)[lo..lo + |b|] == b;
    assert p[lo + |a| + 1..] == f;
    assert UploadPath(b, g)[lo + |b| + 1..] == g;
  }

  datatype ReportFormat = Json | Pdf

  /** What `get_report` answers with: the report as JSON, or the PDF file. */
  datatype ReportBody = JsonBody(report: Reports.KYCReport) | PdfFile(path: string, mediaType: string, filename: string)

  /** The e-mail `process_document` asks to be sent. */
  datatype EmailRequest = EmailRequest(address: string, jobId: string, pdfPath: string)

  /** The JSON body `_send_callback` posts. */
  datatype CallbackPayload = CallbackPayload(jobId: string, status: string, completedAt: Option<Instant>, error: Option<string>)

  /** The metadata entry `process_document` records after trying to send the
      e-mail: `email_sent` when the send returned, `email_error` with the
      exception's text when it raised. */
  function EmailRecord(delivery: Option<Exc>): (string, MetaValue) {
    if delivery.None? then ("email_sent", Flag(true)) else ("email_error", Note(delivery.value.message))
  }

  class KYCService {
    var jobs: map<string, JobStatus>
    const reportDir: string

    /** Every job is filed under its own id and is consistent. */
    ghost predicate Valid()
      reads this, jobs.Values
    {
      forall id :: id in jobs ==> jobs[id].jobId == id && jobs[id].Valid()
    }

    constructor ()
      ensures Valid() && jobs == map[] && reportDir == Reports.ReportDir
    {
      jobs := map[];
      reportDir := Reports.ReportDir;
    }

    /** `analyze_document`: the upload is written to its file; if writing
        fails the request fails with status 500 and no job is registered,
        otherwise a new submitted job is filed under the new id. */
    method AnalyzeDocument(jobId: string, filename: string, callbackUrl: Option<string>,
                           emailNotification: Option<string>, written: Option<Exc>, now: Instant)
      returns (r: Result<JobStatus, HttpError>)
      requires Valid()
      modifies this
      ensures Valid()
      ensures written.Some? ==>
        r == Err(HttpError(500, SubmitFailed + written.value.message)) && jobs == old(jobs)
      ensures written.None? ==>
        r.Ok? && fresh(r.value) && jobs == old(jobs)[jobId := r.value] &&
        r.value.jobId == jobId && r.value.status == Submitted && r.value.createdAt == now &&
        r.value.documentPath == Some(UploadPath(jobId, filename)) &&
        r.value.callbackUrl == callbackUrl && r.value.emailNotification == emailNotification &&
        r.value.completedAt.None? && r.value.report.None? && r.value.error.None? &&
        r.value.emailStatus.None? && r.value.processingMetadata == map[]
    {
      var path := UploadPath(jobId, filename);
      if written.Some? {
        return Err(HttpError(500, SubmitFailed + written.value.message));
      }
      var job := new JobStatus(jobId, now, Some(path), callbackUrl, emailNotification);
      jobs := jobs[jobId := job];
      r := Ok(job);
    }

    /** `get_job_status`: the job filed under the id, or 404. */
    function GetJobStatus(jobId: string): (r: Result<JobStatus, HttpError>)
      reads this
      ensures r.Ok? <==> jobId in jobs
      ensures r.Ok? ==> r.value == jobs[jobId]
      ensures r.Err? ==> r.error == HttpError(404, JobNotFound)
    {
      if jobId in jobs then Ok(jobs[jobId]) else Err(HttpError(404, JobNotFound))
    }

    /** `get_report`, given the set of files that exist. As written, the
        404 for a missing PDF is raised inside the handler's own `try` and
        comes out as a 500 carrying its text; the corrected variant answers
        404. */
    function GetReport(jobId: string, format: ReportFormat, files: set<string>, variant: Variant)
      : (r: Result<ReportBody, HttpError>)
      reads this, jobs.Values
    {
      if jobId !in jobs then Err(HttpError(404, JobNotFound))
      else
        var job := jobs[jobId];
        if job.status != Completed || job.report.None? then
          Err(HttpError(400, NotReady + StateName(job.status)))
        else
          var report := job.report.value;
          match format
          case Json => Ok(JsonBody(report))
          case Pdf =>
            var path := Reports.ReportPath(reportDir, report.reportId, "pdf");
            if path in files then Ok(PdfFile(path, PdfMediaType, Reports.ReportFileName(report.reportId, "pdf")))
            else if variant == AsWritten then Err(HttpError(500, RetrieveFailed + "404: " + PdfNotFound))
            else Err(HttpError(404, PdfNotFound))
    }

    /** `_send_callback`: the payload posted for the job, when it has a
        callback URL; a failed post is swallowed, so nothing else comes
        of it. */
    method SendCallback(jobId: string) returns (payload: Option<CallbackPayload>)
      requires jobId in jobs
      ensures payload.Some? <==> Truthy(jobs[jobId].callbackUrl)
      ensures payload.Some? ==>
        payload.value == CallbackPayload(jobId, StateName(jobs[jobId].status), jobs[jobId].completedAt, jobs[jobId].error)
    {
      var job := jobs[jobId];
      if !Truthy(job.callbackUrl) {
        return None;
      }
      payload := Some(CallbackPayload(jobId, StateName(job.status), job.completedAt, job.error));
    }

    /** `process_document`, given what producing the report came to (the
        outcome of `Reports.ProduceReport`): the job is set to processing,
        then on success it is completed with the report, then the
        e-mail is sent when an address was given, its outcome recorded in
        the metadata only, and the callback is posted when a URL was given.
        On failure it is failed with the exception's text and nothing is
        sent. Either way the completion time is set. The e-mail asked for
        and the callback posted are returned. */
    method ProcessDocument(jobId: string, produced: Result<Reports.KYCReport, Exc>, finishedAt: Instant,
                           delivery: Option<Exc>, notedAt: Instant)
      returns (email: Option<EmailRequest>, callback: Option<CallbackPayload>)
      requires Valid() && jobId in jobs
      modifies jobs[jobId]
      ensures Valid()
      ensures jobs[jobId].completedAt == Some(finishedAt)
      ensures jobs[jobId].emailStatus == old(jobs[jobId].emailStatus)
      ensures var job := jobs[jobId];
        produced.Err? ==>
          job.status == Failed && job.error == Some(produced.error.message) && job.report == old(job.report) &&
          job.processingMetadata == old(job.processingMetadata) && email.None? && callback.None?
      ensures var job := jobs[jobId];
        produced.Ok? ==>
          job.status == Completed && job.report == Some(produced.value) && job.error == old(job.error) &&
          callback == (if Truthy(job.callbackUrl) then Some(CallbackPayload(jobId, "completed", Some(finishedAt), job.error)) else None)
      ensures var job := jobs[jobId];
        produced.Ok? && Truthy(job.emailNotification) ==>
          email == Some(EmailRequest(job.emailNotification.value, jobId,
                                     Reports.ReportPath(reportDir, produced.value.reportId, "pdf"))) &&
          job.processingMetadata ==
            old(job.processingMetadata)[EmailRecord(delivery).0 := MetadataEntry(EmailRecord(delivery).1, notedAt)]
      ensures var job := jobs[jobId];
        produced.Ok? && !Truthy(job.emailNotification) ==>
          email.None? && job.processingMetadata == old(job.processingMetadata)
    {
      var job := jobs[jobId];
      job.status := Processing;
      email, callback := None, None;
      if produced.Err? {
        job.status := Failed;
        job.error := Some(produced.error.message);
        job.completedAt := Some(finishedAt);
        return;
      }
      var report := produced.value;
      job.status := Completed;
      job.completedAt := Some(finishedAt);
      job.report := Some(report);
      if Truthy(job.emailNotification) {
        var pdfPath := Reports.ReportPath(reportDir, report.reportId, "pdf");
        email := Some(EmailRequest(job.emailNotification.value, jobId, pdfPath));
        var record := EmailRecord(delivery);
        job.AddMetadata(record.0, record.1, notedAt);
      }
      if Truthy(job.callbackUrl) {
        callback := SendCallback(jobId);
      }
    }
  }

  /** The outcomes of `get_report`: a body exactly for a completed job with
      a report, in JSON or as a PDF that exists; 404 for an unknown job, 400
      naming the status for an unfinished one, and, corrected, 404 for a
      missing PDF. */
  lemma {:induction false} GetReportOutcome(svc: KYCService, jobId: string, format: ReportFormat, files: set<string>)
    ensures var r := svc.GetReport(jobId, format, files, Corrected);
      var ready := jobId in svc.jobs && svc.jobs[jobId].status == Completed && svc.jobs[jobId].report.Some?;
      var pdf := if ready then Reports.ReportPath(svc.reportDir, svc.jobs[jobId].report.value.reportId, "pdf") else "";
      (r.Ok? <==> ready && (format == Json || pdf in files)) &&
      (r.Ok? && format == Json ==> r.value == JsonBody(svc.jobs[jobId].report.value)) &&
      (r.Ok? && format == Pdf ==> r.value.PdfFile? && r.value.path == pdf && r.value.mediaType == PdfMediaType) &&
      (r.Err? && r.error.statusCode == 404 <==> jobId !in svc.jobs || (ready && format == Pdf && pdf !in files)) &&
      (r.Err? && r.error.statusCode == 400 <==>
        jobId in svc.jobs && !ready && r.error.detail == NotReady + StateName(svc.jobs[jobId].status))
  {
  }

  /** As written, a completed job whose PDF is missing is answered with a
      server error carrying the not-found text; the corrected variant
      answers 404. */
  lemma {:induction false} MissingPdfIsServerError(svc: KYCService, jobId: string, files: set<string>)
    requires jobId in svc.jobs && svc.jobs[jobId].status == Completed && svc.jobs[jobId].report.Some?
    requires Reports.ReportPath(svc.reportDir, svc.jobs[jobId].report.value.reportId, "pdf") !in files
    ensures svc.GetReport(jobId, Pdf, files, AsWritten) == Err(HttpError(500, RetrieveFailed + "404: " + PdfNotFound))
    ensures svc.GetReport(jobId, Pdf, files, Corrected) == Err(HttpError(404, PdfNotFound))
  {
  }
}
