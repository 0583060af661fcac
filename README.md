# KYC analysis service — verified model

This project models the decision logic of a KYC (know-your-customer) service. The service takes an uploaded identity document and screens the person. It checks them against the Watchman and OpenSanctions lists and against Dilisense adverse-media news. An assistant then judges the findings. The service files a report and tracks the job that produces it.

The model covers two parts of the repository.

The first part is the evidence and analysis pipeline of `kyc_agent.py`:
- `base.dfy` (module `Base`) holds the shared vocabulary: `Option`, `Result`, and Python exceptions as values (`Exc`: class and message).
- `text.dfy` (module `Text`) gives Python's string operations the meaning the code relies on: substring search, `strip()`, `upper()`, the regex classes `\s` and `\w`, and `str(int)`.
- `evidence.dfy` (module `Evidence`) holds the screening payloads and the three normalisers, written as loops over the response. It also holds the all-or-nothing aggregation of the two list checks.
- `monitor.dfy` (module `RunMonitor`) is the polling loop that waits for the assistant's run. It is driven by a script of polls, each carrying the clock reading at the loop test.
- `response.dfy` (module `AnalysisResponse`) covers the assistant's reply:
  - it collects the reply from the thread's messages;
  - it parses the `RISK_LEVEL:`, `SUMMARY:` and `RECOMMENDATIONS:` sections;
  - it proves a round trip: a reply written in the requested layout parses back to what was written.
- `reports.dfy` (module `Reports`) holds the `KYCReport` record and the report file names. It also holds `analyze_findings`, `generate_report`, and the report-producing part of `process_document`.

The second part is the job lifecycle of `kyc_service.py`:
- `jobs.dfy` (module `Jobs`) holds the `JobStatus` class and the `KYCService` class.
- `JobStatus` carries the guarded status transitions and the timestamp, error, metadata and e-mail bookkeeping.
- `KYCService` keeps its registry of jobs as a map. It covers submission, status lookup, report retrieval, background processing and the completion callback.

The outside world appears only as values:
- the HTTP responses;
- the assistant's run polls and message list;
- the outcomes of file writes and of sending e-mail;
- clock readings;
- the set of existing files.

Where a documented behaviour and the code differ, the model follows the code:
- **Sections may be empty.** The parser does not check that the summary or the recommendations are non-empty (`AnalysisResponse.EmptySectionsAccepted`).
- **Risk level lookup.** The risk token is the whole run of word characters after the label. It is upper-cased and looked up by enum member name. An unknown token fails the parse with a `KeyError` naming the token.
- **Which reply text is used.** The message list is requested newest first, and each text item overwrites the previous one. So the text parsed is the last text item in list order, which is the oldest assistant text among those listed.
- **Regex `$`.** It also matches before a final newline.
- **Monitor budget.** The monitor's loop test reads `timedelta.seconds`, the seconds field of the elapsed time, which wraps every day (`RunMonitor.WithinBudget`).
- **The `email_sent` flag.** `process_document` records `email_sent` whenever the e-mail call returns, whatever delivery result it returns. Only an exception records `email_error`.
- **Notifications.** E-mail and callback are sent only after a successful report. A failed job notifies no one.
- **Processing bypasses the guard.** `process_document` sets the status fields directly and does not go through `update_status`.

## Model

| member | source | states |
|---|---|---|
| Evidence.WatchmanMatches | kyc_agent.py:305-321 | every Watchman match has source "Watchman", `lists == [category]`, risk category equal to its category, and name, score, dates and countries taken from its hit |
| Evidence.WatchmanOneMatchPerItem | kyc_agent.py:305-321 | exactly one match per item of each non-empty list-valued category, in response order, built from that (category, item); non-list and empty values contribute nothing |
| Evidence.CheckWatchman | kyc_agent.py:300-323 | the nested loop over categories and items returns exactly the Watchman normalisation of the response |
| Evidence.KeepRelevant | kyc_agent.py:349-370 | a successful conversion yields only OpenSanctions matches with a score strictly above 0.8 |
| Evidence.KeepRelevantIsFilter | kyc_agent.py:349-370 | normalisation succeeds iff every result scoring above 0.8 has a caption and datasets; it then keeps exactly those results, in order, with score, caption, datasets and the first topic (or none) |
| Evidence.SanctionsErrorIsFinal | kyc_agent.py:355-358 | a missing `caption` or `datasets` on a relevant result raises its `KeyError`, which aborts the whole OpenSanctions check |
| Evidence.CheckOpenSanctions | kyc_agent.py:345-372 | the loop over queries and results returns exactly the OpenSanctions normalisation, including its first error |
| Evidence.ComplianceAllOrNothing | kyc_agent.py:374-393 | the aggregation succeeds iff both sources do, and then returns the Watchman matches followed by the OpenSanctions matches; a failure of either source is the whole outcome |
| Evidence.CheckComplianceLists | kyc_agent.py:374-393 | the method returns exactly the all-or-nothing aggregation |
| Evidence.MediaArticlesOrigin | kyc_agent.py:413-415 | every article kept comes from a category that is an object with a positive hit count |
| Evidence.MediaArticlesComplete | kyc_agent.py:413-415 | conversely, every article of an object category with a positive hit count is kept, after the articles of the categories before it and in its category's own order |
| Evidence.MediaFindingsShape | kyc_agent.py:415-438 | the conversion succeeds iff every article has all four keys; it then gives one finding per article, in order, with its category and the article's own timestamp, headline, body and source link, and risk level "high" iff the category is terrorism, financial_crime or organized_crime, "medium" otherwise |
| Evidence.MediaFindingsFailure | kyc_agent.py:419-427 | a failed conversion raises the `KeyError` of the first article that lacks a key |
| Evidence.ReportedFindings | kyc_agent.py:415-438 | the inner loop appends the findings of one category's articles, or stops at the first article missing a key |
| Evidence.CheckAdverseMedia | kyc_agent.py:408-446 | the loop over categories and articles returns exactly the adverse-media normalisation |
| RunMonitor.StatusNamed | kyc_agent.py:554-583 | each of the seven status strings the loop tests names its own status; every other string is the one unrecognised status |
| RunMonitor.MonitorAnalysisRun | kyc_agent.py:532-602 | the polling loop returns the outcome and the sequence of service calls and sleeps that the monitor specification gives for the poll script |
| RunMonitor.SuccessIsCompletedWithinBudget | kyc_agent.py:540-556 | a successful monitor returns a completed run retrieved by a poll inside the budget, and never cancels |
| RunMonitor.StopAfterContinues | kyc_agent.py:540-594 | when the polls before it only went round again, the first poll inside the budget that leaves the loop decides the outcome |
| RunMonitor.CompletedIsReturned | kyc_agent.py:554-556 | a completed run retrieved by a poll inside the budget, after polls that only went round again, is returned |
| RunMonitor.NonTransientErrorIsFatal | kyc_agent.py:588-594 | in both variants, a retrieval or tool-handling error that does not mention "Rate limit" is raised at once |
| RunMonitor.RunFailureIsFatalAsWritten | kyc_agent.py:564-594 | as written, a failed, expired or cancelled run whose RuntimeError does not mention "Rate limit" ends the monitor with that error |
| RunMonitor.PendingPollsAgain | kyc_agent.py:579-586 | a queued, in-progress or unrecognised run is followed by a 2-second sleep and the next poll |
| RunMonitor.TransientErrorBacksOff | kyc_agent.py:588-592 | a retrieval error mentioning "Rate limit" is followed by a 5-second sleep and the next poll |
| RunMonitor.CancelOnlyOnTimeout | kyc_agent.py:596-602 | the run is cancelled only on timeout, exactly once and as the last call, and the outcome is then the TimeoutError naming the run and the budget |
| RunMonitor.ExhaustedBudgetTimesOut | kyc_agent.py:540-602 | when every poll inside the budget only goes round again, the monitor cancels and raises the timeout |
| RunMonitor.TransientErrorsNeverSurface | kyc_agent.py:588-594 | as written, a reported error is the timeout or does not mention "Rate limit" |
| RunMonitor.TransientErrorsSurfaceOnlyAsRunFailures | kyc_agent.py:564-594 | corrected, a reported error mentioning "Rate limit" is the timeout or the error of a failed, expired or cancelled run |
| RunMonitor.StepActionsShape | kyc_agent.py:541-594 | each pass starts with the retrieval, sleeps only 2 or 5 seconds, and follows tool-call handling only by the rate-limit backoff |
| RunMonitor.SleepDiscipline | kyc_agent.py:558-592 | the whole run sleeps only 2 seconds (poll) or 5 seconds (rate limit), and never the poll interval right after handling tool calls |
| RunMonitor.FailedRunRetriedAsWritten | kyc_agent.py:564-592 | as written, a failed run whose error mentions "Rate limit" is polled again and ends in a timeout; corrected, it fails at once with the run's error |
| RunMonitor.RunFailureIsFatal | kyc_agent.py:564-577 | corrected, a poll inside the budget that sees a failed, expired or cancelled run ends the monitor with that run's RuntimeError |
| AnalysisResponse.RiskLevelNamed | kyc_agent.py:42-48 | lookup by member name finds exactly the level whose name is given, case-sensitively |
| AnalysisResponse.LowerCaseLevelAccepted | kyc_agent.py:636 | since the token is upper-cased first, the lower-case spelling of every level is accepted |
| AnalysisResponse.RiskToken | kyc_agent.py:632-634 | the token is missing only when the pattern matches nowhere, and is otherwise a non-empty run of word characters |
| AnalysisResponse.RiskTokenLeftmostMaximal | kyc_agent.py:632-636 | the token exists iff some `RISK_LEVEL:` label is followed by optional whitespace and a word character; it is read at the leftmost such label (an earlier label without a word after it is skipped) and is the longest run of word characters there |
| AnalysisResponse.SummaryEnd | kyc_agent.py:640-642 | the summary group ends at the first recommendations label or end-of-text position after the label, and nowhere earlier |
| AnalysisResponse.SummaryAfterHead | kyc_agent.py:640-642 | behind a head ending in the summary label, the summary is what follows the head up to where the group ends there, stripped |
| AnalysisResponse.TextEnd | kyc_agent.py:643-645 | the recommendations group ends at the first end-of-text position after the label |
| AnalysisResponse.RecommendationsAfterHead | kyc_agent.py:643-645 | no recommendations label starts in the head, so the recommendations section of a reply is that of the text after its head |
| AnalysisResponse.ParseAnalysisAccepts | kyc_agent.py:632-653 | the parse succeeds iff there is a risk token naming a level in any case and both section labels are present; an unknown token raises KeyError naming the upper-cased token |
| AnalysisResponse.ParseRendered | kyc_agent.py:632-653 | round trip: a reply in the instructed layout parses back to its level, summary and recommendations |
| AnalysisResponse.ParseBehind | kyc_agent.py:632-653 | text before the risk line that ends in a newline and holds none of the three labels does not change the parse |
| AnalysisResponse.ParseRenderedAfter | kyc_agent.py:632-653 | round trip behind any such preamble: the reply parses back to its level, summary and recommendations |
| AnalysisResponse.LayoutPreambleAccepted | kyc_agent.py:499-503 | the instructed `IDENTITY_VERIFICATION:` and `MATCH_QUALITY:` lines, each followed by a blank line, form such a preamble whenever neither quality mentions a label |
| AnalysisResponse.ParseLayout | kyc_agent.py:499-508 | round trip for the complete instructed layout, identity and match quality lines included: it parses back to its level, summary and recommendations |
| AnalysisResponse.EmptySectionsAccepted | kyc_agent.py:647-653 | a reply with both sections empty is accepted (the sections are not checked for content) |
| AnalysisResponse.GatherMeaning | kyc_agent.py:620-629 | the analysis text is the last assistant text item in list order (empty when there is none); collection fails iff some function call cannot be decoded, with the first such error |
| AnalysisResponse.GatherMessage | kyc_agent.py:623-629 | the content loop of one message continues exactly the collection of the earlier messages |
| AnalysisResponse.StructuredFindings | kyc_agent.py:655-660 | every structured finding is an `analysis_results` entry of some decoded call |
| AnalysisResponse.StructuredFindingsSingle | kyc_agent.py:657-659 | one call contributes its `analysis_results` entries, or nothing when it has none |
| AnalysisResponse.StructuredFindingsAppend | kyc_agent.py:656-659 | the findings of consecutive calls are concatenated in call order |
| AnalysisResponse.StructuredFindingsComplete | kyc_agent.py:656-659 | every entry of every call is kept, after those of the calls before it and before those of the calls after it |
| AnalysisResponse.ProcessAnalysis | kyc_agent.py:604-669 | a failed listing, collection or parse becomes a RuntimeError whose message is "Analysis processing failed: " followed by the original message; when all three succeed the result is the parsed reply with the structured findings of the decoded calls |
| AnalysisResponse.ProcessAnalysisResponse | kyc_agent.py:604-669 | the message and findings loops return exactly the specified processing outcome |
| Reports.ReportPathParts | kyc_agent.py:754-756 | a report path is the directory, "/", then `kyc_<id>.<format>`, and ends with "." and the format |
| Reports.ReportPathInjective | kyc_agent.py:754-756 | for one directory and format, the path determines the report id |
| Reports.ReportFormatsDiffer | kyc_agent.py:754-756 | the JSON and the PDF file of a report are different paths |
| Reports.AnalyzeFindings | kyc_agent.py:447-530 | for either monitor variant, any TimeoutError comes out as "Analysis exceeded time limit"; the analysis succeeds iff setup, monitor and processing all succeed, and then returns the processed reply of a completed run |
| Reports.AnalysisTimeout | kyc_agent.py:524-526 | a run cancelled for running out of budget fails the analysis with "Analysis exceeded time limit" |
| Reports.AnalysisRunFailure | kyc_agent.py:511-530 | a run first seen failed, expired or cancelled fails the analysis with the monitor's RuntimeError unchanged: as written when that error does not mention "Rate limit", corrected always |
| Reports.AnalysisRateLimitedFailure | kyc_agent.py:511-530 | as written, a run that failed with a "Rate limit" error and is not polled again inside the budget fails the analysis with "Analysis exceeded time limit"; corrected, with the run's RuntimeError |
| Reports.GenerateReport | kyc_agent.py:671-713 | a generated report is stamped with the given identity and report id |
| Reports.GenerateReportOutcome | kyc_agent.py:671-713 | a report exists iff both checks, the analysis and the save succeed; it holds exactly their matches, findings, level value, summary and recommendations; a failed check fails with the task group's ExceptionGroup |
| Reports.ReportRiskLevelIsALevel | kyc_agent.py:693-700 | the stored risk level is one of "low", "medium", "high", "critical" |
| Reports.ReportCarriesReply | kyc_agent.py:679-700 | end to end: with every request succeeding and a reply in the instructed layout, behind any preamble such as the quality lines, the report records that reply's level, summary and recommendations, all compliance matches and all adverse-media findings |
| Reports.ProduceReport | kyc_service.py:339-346 | processing produces a report iff the identity is read, the report is generated and the second save succeeds |
| Jobs.StateNamed | kyc_service.py:68-72 | the four status strings name the four states and nothing else |
| Jobs.TransitionTable | kyc_service.py:127-135 | `update_status` accepts exactly submitted→processing, processing→completed and processing→failed |
| Jobs.TerminalIsFinal | kyc_service.py:127-135 | no request leaves completed or failed |
| Jobs.UpdatesMoveForward | kyc_service.py:116-144 | each accepted request moves one step along the lifecycle, so at most two requests are ever accepted and no state is entered twice |
| Jobs.JobStatus.constructor | kyc_service.py:264-270 | a new job is submitted, unfinished, with no report, error, e-mail status or metadata |
| Jobs.JobStatus.Duration | kyc_service.py:105-114 | the duration exists iff the job has a completion time, and is completion minus creation in seconds |
| Jobs.JobStatus.UpdateStatus | kyc_service.py:116-144 | a rejected request raises ValueError naming both statuses and changes nothing; an accepted one sets the status, sets the completion time iff the new status is final, stores an error only with failed, and raises after the change when an error comes with another status |
| Jobs.JobStatus.AddMetadata | kyc_service.py:146-157 | only entry `key` is replaced, by the value and its timestamp |
| Jobs.JobStatus.SetEmailStatus | kyc_service.py:159-165 | only the e-mail status is replaced, by success, timestamp and error |
| Jobs.JobStatus.ToResponseDict | kyc_service.py:167-196 | id, status, creation time and duration are always present; completion time, error, report and e-mail notice exactly when the job has them (the error and address when non-empty) |
| Jobs.FinishedJobReportsDuration | kyc_service.py:174-182 | a completed or failed job always reports a completion time and a duration |
| Jobs.UploadPathsDistinct | kyc_service.py:251-253 | uploads of two job ids of one length never share a file |
| Jobs.KYCService.constructor | kyc_service.py:202-211 | the service starts with no jobs and the default report directory |
| Jobs.KYCService.AnalyzeDocument | kyc_service.py:239-281 | a failed upload write answers 500 with the error and registers nothing; otherwise a fresh submitted job with the upload path, callback and e-mail targets is filed under the new id |
| Jobs.KYCService.GetJobStatus | kyc_service.py:283-290 | the job filed under the id, or 404 "Job not found" iff there is none |
| Jobs.KYCService.SendCallback | kyc_service.py:375-393 | a payload is posted iff the callback URL is non-empty, carrying the job's id, status, completion time and error |
| Jobs.KYCService.ProcessDocument | kyc_service.py:333-373 | given the outcome of producing the report (`Reports.ProduceReport`), the job ends completed with the report or failed with the exception's text, with its completion time set either way; the e-mail outcome only adds `email_sent` or `email_error` metadata; e-mail and callback go out only after success and only to non-empty targets |
| Jobs.GetReportOutcome | kyc_service.py:292-327 | corrected: a body exactly for a completed job with a report, as JSON or an existing PDF; 404 for an unknown job or a missing PDF; 400 naming the current status for a job that is not ready |
| Jobs.MissingPdfIsServerError | kyc_service.py:310-327 | as written, a missing PDF answers 500 "Error retrieving report: 404: PDF report file not found"; corrected, 404 |

## Findings

| source | as written | input that shows it | evidently intended | confidence | as-written member | corrected member |
|---|---|---|---|---|---|---|
| kyc_agent.py:564-592 | The RuntimeError for a failed, expired or cancelled run is raised inside the loop's `try`. Its own `except` catches it. When the message mentions "Rate limit" (a run failing with a rate-limit `last_error`), the monitor sleeps and polls the dead run until the budget runs out, then reports a timeout. | A first poll returns status `failed` with a last error mentioning "Rate limit", and the clock has run past the budget at the next poll. | The failure is reported at once as the run's RuntimeError. | not executed | RunMonitor.FailedRunRetriedAsWritten | RunMonitor.RunFailureIsFatal |
| kyc_service.py:310-327 | The 404 for a missing PDF is raised inside the handler's `try`. `except Exception` turns it into a 500 with detail "Error retrieving report: 404: PDF report file not found". | A completed job with a report whose `reports/kyc_<id>.pdf` does not exist, requested with `format=pdf`. | 404 "PDF report file not found". | not executed | Jobs.MissingPdfIsServerError | Jobs.GetReportOutcome |

Each member that depends on one of these behaviours takes the variant as a parameter: `AsWritten` is the code as it stands, `Corrected` the evidently intended behaviour. This holds for `Reports.MonitorOf`, `Reports.AnalyzeFindings`, `Reports.GenerateReport`, `Reports.ProduceReport` and `Jobs.KYCService.GetReport`.

## Left out

- `email_service.py` is not part of this model. Whether sending raised is a parameter of `ProcessDocument`.
- `process_id_document` (the multipart upload of the document and the file read) is left out. Only its outcome, an identity or an exception, is modelled.
- The assistant calls are left out: `_create_assistant`, `_prepare_analysis_prompt` (prompt text only) and `_handle_required_actions` (not in the source shown). Their outcomes are fields of the poll script and of the analysis environment.
- `save_report` and the PDF rendering are left out. Each save is given as its outcome.
- The HTTP surface is left out, because the framework does it before the handlers run:
  - FastAPI routing, templates, the status page and the health check;
  - query validation of `format` (anything but json or pdf is refused), which is why `get_report` takes a two-valued format;
  - `EmailStr` validation.
- Uvicorn start-up, the command line and the module-level agent construction are left out.
- asyncio is modelled sequentially, including `gather` and `TaskGroup`.
- Jobs.KYCService.ProcessDocument: takes the outcome of `Reports.ProduceReport` as a parameter instead of calling it, because that outcome depends on the outside world's answers.
- Scheduling the background task is left out: `AnalyzeDocument` files the job, and `ProcessDocument` is the separate call the background task makes.
- Reports.GenerateReport: counts a failed check as a sub-exception of the task group whenever it fails. At run time the first failure may cancel the other check before it fails, giving "(1 sub-exception)" where the model says 2.
- Evidence.Compliance: when both list checks fail, `gather` propagates whichever failure happens first in time. The model reports the Watchman error.
- Clock readings are integers in microseconds. The ISO-8601 and `strftime` renderings are not modelled. The report id and creation-time strings are parameters.
- Each `datetime.now()` reading is a parameter: `finishedAt` and `notedAt` for `process_document`, `now` elsewhere.
- Floating point is not modelled: match scores and durations are exact reals.
- Jobs.JobStatus.Duration: is the exact quotient, not the float that `total_seconds()` rounds to.
- Jobs.KYCService.ProcessDocument: requires the job to be registered. The source would raise `KeyError` out of its own `except` clause, and only `analyze_document`, right after filing the job, schedules it.
- Jobs.KYCService.SendCallback: requires the job to be registered, for the same reason. The POST itself and its swallowed failure are not modelled beyond returning the payload.
- The screening payloads (`WatchmanHit`, `SanctionsResult`, `Article`, `Exposure`) are typed values. Every Watchman item, OpenSanctions result and Dilisense article is taken to be a JSON object whose fields, when present, have the expected types. In the source, a non-object item raises `AttributeError` on `.get` or `TypeError` on subscripting, and a wrongly typed field fails Pydantic validation of `ComplianceMatch`. The model does not capture these failures.
- Reading the uploaded bytes is not modelled. Only the outcome of writing them is.
- Pydantic validation of `JobStatus.status` happens only at construction. The model's four-valued state cannot hold other strings, and `process_document` assigns only valid ones.
- `KYCReport.risk_level` is taken to store the level's value ("low", ...), as the field's default does. Pydantic's coercion of the enum member passed in is assumed to yield that value.
- Text operations cover the ASCII range only: `\s`, `\w`, `strip()` and `upper()`.
- The entries of `analysis_results` are abstracted as strings. A decoded call is either a JSON object, with or without that key, or undecodable.
- Report and upload paths are plain string concatenation. Path normalisation (repeated separators, ids containing separators) is not modelled.
- Logging, including the monitor's status-change messages, is left out.
