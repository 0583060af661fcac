/** The report pipeline of the KYC agent: `analyze_findings`, which runs the
    assistant and parses its reply, `generate_report`, which fans the
    screening checks in and builds the `KYCReport`, and the file naming of
    `ReportHandler`. Every call to the outside world is given as its
    outcome. */
module Reports {
  import opened Base
  import opened Text
  import opened Evidence
  import RunMonitor
  import opened AnalysisResponse

  /** `KYCReport`: the report a finished job carries. `riskLevel` holds the
      value of the assessed level ("low", "medium", ...). */
  datatype KYCReport = KYCReport(
    reportId: string,
    createdAt: string,
    identity: IdentityInfo,
    riskLevel: string,
    complianceMatches: seq<ComplianceMatch>,
    adverseMedia: seq<MediaFinding>,
    riskSummary: string,
    recommendations: string)

  // ------------------------------------------------------------ file names

  /** The default directory of `ReportHandler`. */
  const ReportDir := "reports"

  /** `ReportHandler._get_report_path`: `<dir>/kyc_<id>.<format>`. */
  function ReportPath(dir: string, reportId: string, format: string): string {
    dir + "/kyc_" + reportId + "." + format
  }

  /** The file name part of a report path (`Path.name`). */
  function ReportFileName(reportId: string, format: string): string {
    "kyc_" + reportId + "." + format
  }

  /** A report path is the directory, a separator and the file name, and it
      ends with the format as its extension. */
  lemma {:induction false} ReportPathParts(dir: string, reportId: string, format: string)
    ensures var p := ReportPath(dir, reportId, format);
      p == dir + "/" + ReportFileName(reportId, format) &&
      |p| > |format| && p[|p| - |format| - 1..] == "." + format
  {
    var p := ReportPath(dir, reportId, format);
    assert p == (dir + "/kyc_" + reportId) + ("." + format);
  }

  /** Two reports of one format never share a file: the path determines the
      report id. */
  lemma {:induction false} ReportPathInjective(dir: string, a: string, b: string, format: string)
    requires ReportPath(dir, a, format) == ReportPath(dir, b, format)
    ensures a == b
  {
    var p := ReportPath(dir, a, format);
    var lo := |dir| + 5;
    assert |a| == |b|;
    assert p[lo..lo + |a|] == a;
    assert ReportPath(dir, b, format)[lo..lo + |b|] == b;
  }

  /** The JSON and the PDF rendering of one report are different files. */
  lemma {:induction false} ReportFormatsDiffer(dir: string, reportId: string)
    ensures ReportPath(dir, reportId, "json") != ReportPath(dir, reportId, "pdf")
  {
    assert |ReportPath(dir, reportId, "json")| != |ReportPath(dir, reportId, "pdf")|;
  }

  // -------------------------------------------------------- analyze_findings

  /** What the assistant service answers during one analysis: the failure of
      creating the thread, the message or the run, if one of them fails; the
      id of the run; the monitor's polls; and the message listing. */
  datatype AnalysisEnv = AnalysisEnv(
    setup: Option<Exc>,
    runId: string,
    polls: seq<RunMonitor.Tick>,
    listed: Result<seq<Message>, Exc>)

  const AnalysisTimeoutMessage := "Analysis exceeded time limit"

  /** The run monitor as `analyze_findings` calls it, with the default
      budget of 600 seconds; `variant` says whether a failed run whose error
      mentions rate limiting is retried, as written, or fatal. */
  function MonitorOf(env: AnalysisEnv, variant: Variant): RunMonitor.Monitored {
    RunMonitor.Monitor(env.polls, env.runId, RunMonitor.DefaultTimeout, variant)
  }

  /** The body of `analyze_findings`' `try` block. */
  function AnalysisUnwrapped(env: AnalysisEnv, variant: Variant): Result<Processed, Exc> {
    if env.setup.Some? then Err(env.setup.value)
    else
      var m := MonitorOf(env, variant);
      if m.outcome.Err? then Err(m.outcome.error) else ProcessAnalysis(env.listed)
  }

  /** `analyze_findings`: any `TimeoutError` is replaced by one saying the
      analysis exceeded its time limit; every other failure passes through,
      and a success is the processed reply of a completed run. */
  function AnalyzeFindings(env: AnalysisEnv, variant: Variant): (r: Result<Processed, Exc>)
    ensures r.Err? && r.error.kind == TimeoutError ==> r.error.message == AnalysisTimeoutMessage
    ensures r.Ok? <==> env.setup.None? && MonitorOf(env, variant).outcome.Ok? && ProcessAnalysis(env.listed).Ok?
    ensures r.Ok? ==> r == ProcessAnalysis(env.listed) && MonitorOf(env, variant).outcome.value.status == RunMonitor.Completed
  {
    RunMonitor.SuccessIsCompletedWithinBudget(env.polls, 0, env.runId, RunMonitor.DefaultTimeout, variant);
    match AnalysisUnwrapped(env, variant)
    case Ok(p) => Ok(p)
    case Err(e) => if e.kind == TimeoutError then Err(Exc(TimeoutError, AnalysisTimeoutMessage)) else Err(e)
  }

  /** A run that outlives its budget is cancelled and the analysis reports
      the time limit, not the monitor's own message. */
  lemma {:induction false} AnalysisTimeout(env: AnalysisEnv, variant: Variant)
    requires env.setup.None? && RunMonitor.CancelRun in MonitorOf(env, variant).actions
    ensures AnalyzeFindings(env, variant) == Err(Exc(TimeoutError, AnalysisTimeoutMessage))
  {
    RunMonitor.CancelOnlyOnTimeout(env.polls, 0, env.runId, RunMonitor.DefaultTimeout, variant);
  }

  /** A run that ended without completing fails the analysis with the
      monitor's `RuntimeError`, message and all: as written only when that
      message does not mention rate limiting, once corrected always. */
  lemma {:induction false} AnalysisRunFailure(env: AnalysisEnv, run: RunMonitor.Run, variant: Variant)
    requires env.setup.None? && |env.polls| > 0
    requires RunMonitor.WithinBudget(env.polls[0].elapsed, RunMonitor.DefaultTimeout)
    requires env.polls[0].retrieval == Ok(run) && RunMonitor.Terminal(run.status)
    requires variant == Corrected || !RunMonitor.Transient(RunMonitor.RunFailure(env.runId, run))
    ensures AnalyzeFindings(env, variant) == Err(RunMonitor.RunFailure(env.runId, run))
  {
  }

  /** As written, a run that failed with a rate-limit error and is not
      polled again before the budget runs out ends the analysis with the
      time-limit error instead of the run's failure. */
  lemma {:induction false} AnalysisRateLimitedFailure(env: AnalysisEnv, lastError: string)
    requires env.setup.None? && Contains(lastError, RunMonitor.RateLimitMarker)
    requires env.polls == [RunMonitor.Tick(0, Ok(RunMonitor.Run(env.runId, RunMonitor.Failed, lastError)), None)]
    ensures AnalyzeFindings(env, AsWritten) == Err(Exc(TimeoutError, AnalysisTimeoutMessage))
    ensures AnalyzeFindings(env, Corrected) ==
      Err(RunMonitor.RunFailure(env.runId, RunMonitor.Run(env.runId, RunMonitor.Failed, lastError)))
  {
    RunMonitor.FailedRunRetriedAsWritten(env.runId, lastError, RunMonitor.DefaultTimeout);
  }

  // --------------------------------------------------------- generate_report

  /** The outcome of each screening request: the parsed response, or the
      exception the request raised. */
  datatype Checks = Checks(
    watchman: Result<WatchmanPayload, Exc>,
    sanctions: Result<SanctionsPayload, Exc>,
    media: Result<MediaPayload, Exc>)

  /** Everything `generate_report` receives from outside: the checks, the
      assistant, the id and creation time the new report is stamped with,
      and the failure of `save_report`, if it fails. */
  datatype ReportEnv = ReportEnv(
    checks: Checks,
    analysis: AnalysisEnv,
    reportId: string,
    createdAt: string,
    saved: Option<Exc>)

  /** The `ExceptionGroup` an `asyncio.TaskGroup` raises when `n` of its
      tasks fail. */
  function TaskGroupFailure(n: nat): Exc {
    Exc(ExceptionGroup, "unhandled errors in a TaskGroup (" + NatToString(n) +
      (if n == 1 then " sub-exception)" else " sub-exceptions)"))
  }

  function FailedCount(compliance: Result<seq<ComplianceMatch>, Exc>, media: Result<seq<MediaFinding>, Exc>): nat {
    (if compliance.Err? then 1 else 0) + (if media.Err? then 1 else 0)
  }

  /** `generate_report`: the compliance and the adverse-media check run in
      one task group, then the analysis, then the report is built and
      saved. */
  function GenerateReport(identity: IdentityInfo, env: ReportEnv, variant: Variant): (r: Result<KYCReport, Exc>)
    ensures r.Ok? ==> r.value.identity == identity && r.value.reportId == env.reportId
  {
    var compliance := Compliance(env.checks.watchman, env.checks.sanctions);
    var media := AdverseMedia(env.checks.media);
    if compliance.Err? || media.Err? then Err(TaskGroupFailure(FailedCount(compliance, media)))
    else
      match AnalyzeFindings(env.analysis, variant)
      case Err(e) => Err(e)
      case Ok(p) =>
        if env.saved.Some? then Err(env.saved.value)
        else
          Ok(KYCReport(env.reportId, env.createdAt, identity, RiskValue(p.analysis.riskLevel),
                       compliance.value, media.value, p.analysis.summary, p.analysis.recommendations))
  }

  /** A report exists only when every stage succeeded, and it holds exactly
      what the stages produced; a failed check fails the report with the
      task group's error, whatever the other stages would have done. */
  lemma {:induction false} GenerateReportOutcome(identity: IdentityInfo, env: ReportEnv, variant: Variant)
    ensures var r := GenerateReport(identity, env, variant);
      var compliance := Compliance(env.checks.watchman, env.checks.sanctions);
      var media := AdverseMedia(env.checks.media);
      var analysis := AnalyzeFindings(env.analysis, variant);
      (r.Ok? <==> compliance.Ok? && media.Ok? && analysis.Ok? && env.saved.None?) &&
      (r.Ok? ==>
        r.value.complianceMatches == compliance.value && r.value.adverseMedia == media.value &&
        r.value.riskLevel == RiskValue(analysis.value.analysis.riskLevel) &&
        r.value.riskSummary == analysis.value.analysis.summary &&
        r.value.recommendations == analysis.value.analysis.recommendations) &&
      (compliance.Err? || media.Err? ==> r.Err? && r.error.kind == ExceptionGroup)
  {
  }

  /** The risk level a report records is always one of the four level
      values. */
  lemma {:induction false} ReportRiskLevelIsALevel(identity: IdentityInfo, env: ReportEnv, variant: Variant)
    ensures var r := GenerateReport(identity, env, variant);
      r.Ok? ==> r.value.riskLevel in {"low", "medium", "high", "critical"}
  {
  }

  /** End to end: when every request succeeds and the assistant's last text
      is a reply in the instructed layout (any preamble, such as the
      identity verification and match quality lines, then the risk line,
      the summary and the recommendations), the report records that
      reply's level, summary and recommendations and every screening
      match. */
  lemma {:induction false} ReportCarriesReply(identity: IdentityInfo, env: ReportEnv, messages: seq<Message>,
                           preamble: string, level: RiskLevel, summary: string, recs: string, variant: Variant)
    requires Compliance(env.checks.watchman, env.checks.sanctions).Ok?
    requires AdverseMedia(env.checks.media).Ok?
    requires env.analysis.setup.None? && MonitorOf(env.analysis, variant).outcome.Ok?
    requires env.analysis.listed == Ok(messages)
    requires Gather(AssistantContents(messages)).Ok?
    requires Gather(AssistantContents(messages)).value.text == preamble + Render(level, summary, recs)
    requires Preamble(preamble)
    requires Trimmed(summary) && Trimmed(recs) && !Contains(summary, RecommendationsLabel)
    requires env.saved.None?
    ensures GenerateReport(identity, env, variant).Ok?
    ensures var report := GenerateReport(identity, env, variant).value;
      report.riskLevel == RiskValue(level) && report.riskSummary == summary && report.recommendations == recs &&
      report.complianceMatches == Compliance(env.checks.watchman, env.checks.sanctions).value &&
      report.adverseMedia == AdverseMedia(env.checks.media).value
  {
    ParseRenderedAfter(preamble, level, summary, recs);
  }

  // ----------------------------------------------------- the job's pipeline

  /** What processing one uploaded document meets: the outcome of reading
      the identity from it, the report environment, and the failure of the
      second `save_report`, if it fails. */
  datatype Submission = Submission(
    identity: Result<IdentityInfo, Exc>,
    report: ReportEnv,
    resaved: Option<Exc>)

  /** The `try` block of `process_document` up to the report: the identity
      is extracted, the report generated, then saved once more. */
  function ProduceReport(s: Submission, variant: Variant): (r: Result<KYCReport, Exc>)
    ensures r.Ok? <==> s.identity.Ok? && GenerateReport(s.identity.value, s.report, variant).Ok? && s.resaved.None?
    ensures r.Ok? ==> r == GenerateReport(s.identity.value, s.report, variant) && r.value.identity == s.identity.value
  {
    if s.identity.Err? then Err(s.identity.error)
    else
      match GenerateReport(s.identity.value, s.report, variant)
      case Err(e) => Err(e)
      case Ok(report) => if s.resaved.Some? then Err(s.resaved.value) else Ok(report)
  }
}
