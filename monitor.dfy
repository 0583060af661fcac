/** The analysis-run monitor (`_monitor_analysis_run`): polls a remote
    assistant run until it completes, fails or exceeds its time budget,
    backing off on rate-limit errors.

    The clock, the remote service and the tool-call handler are outside the
    model: a run of the monitor is driven by a script of ticks, one per
    loop test, each giving the elapsed time read at that test, what the
    status retrieval returned or raised, and, when the run asks for tool
    calls, whether handling them raised. A script that ends stands for a
    clock reading past the budget. The monitor's result is its outcome and
    the sequence of remote calls and sleeps it made. */
module RunMonitor {
  import opened Base
  import opened Text

  /** `run.status`; every string other than the seven the loop tests for
      is `Unrecognised`, whose name the source only logs. */
  datatype RunStatus =
    | Queued | InProgress | RequiresAction | Completed | Failed | Expired | Cancelled
    | Unrecognised

  const KnownStatusNames := ["queued", "in_progress", "requires_action", "completed", "failed", "expired", "cancelled"]

  /** The status a status string stands for. */
  function StatusNamed(name: string): (r: RunStatus)
    ensures r == Unrecognised <==> name !in KnownStatusNames
    ensures r == Completed <==> name == "completed"
    ensures r == RequiresAction <==> name == "requires_action"
    ensures (r == Queued || r == InProgress) <==> name in ["queued", "in_progress"]
    ensures (r == Failed || r == Expired || r == Cancelled) <==> name in ["failed", "expired", "cancelled"]
  {
    if name == "queued" then Queued
    else if name == "in_progress" then InProgress
    else if name == "requires_action" then RequiresAction
    else if name == "completed" then Completed
    else if name == "failed" then Failed
    else if name == "expired" then Expired
    else if name == "cancelled" then Cancelled
    else Unrecognised
  }

  /** A retrieved run; `lastError` is `str(run.last_error)`. */
  datatype Run = Run(id: string, status: RunStatus, lastError: string)

  datatype Tick = Tick(elapsed: nat, retrieval: Result<Run, Exc>, handling: Option<Exc>)

  datatype Action = Retrieve | HandleRequiredActions | Sleep(seconds: nat) | CancelRun

  datatype Monitored = Monitored(outcome: Result<Run, Exc>, actions: seq<Action>)

  /** What one pass of the loop does: go round again, or leave it. */
  datatype Step = Continue(actions: seq<Action>) | Stop(outcome: Result<Run, Exc>, actions: seq<Action>)

  const DefaultTimeout: int := 600
  const SecondsPerDay: nat := 86400
  const RateLimitMarker := "Rate limit"
  const RateLimitBackoff: nat := 5
  const PollInterval: nat := 2

  /** The loop test: `timedelta.seconds` is the seconds field of the
      elapsed time, which restarts from zero every day. */
  predicate WithinBudget(elapsed: nat, timeout: int) {
    elapsed % SecondsPerDay < timeout
  }

  predicate Transient(e: Exc) {
    Contains(e.message, RateLimitMarker)
  }

  function TimeoutExc(runId: string, timeout: int): Exc {
    Exc(TimeoutError, "Run " + runId + " exceeded timeout of " + IntToString(timeout) + " seconds")
  }

  predicate Terminal(s: RunStatus) {
    s == Failed || s == Expired || s == Cancelled
  }

  /** The error raised for a run that ended without completing. */
  function RunFailure(runId: string, run: Run): Exc
    requires Terminal(run.status)
  {
    match run.status
    case Failed => Exc(RuntimeError, "Run " + runId + " failed: " + run.lastError)
    case Expired => Exc(RuntimeError, "Run " + runId + " expired")
    case Cancelled => Exc(RuntimeError, "Run " + runId + " was cancelled")
  }

  /** The `except` clause: a rate-limit error sleeps five seconds and polls
      again, anything else leaves the loop. */
  function Recover(e: Exc, before: seq<Action>): Step {
    if Transient(e) then Continue(before + [Sleep(RateLimitBackoff)]) else Stop(Err(e), before)
  }

  /** One pass of the loop body. As written, the error raised for a
      failed, expired or cancelled run is caught by the loop's own `except`
      clause; the corrected variant lets it leave the loop. */
  function StepOf(runId: string, tick: Tick, variant: Variant): Step {
    match tick.retrieval
    case Err(e) => Recover(e, [Retrieve])
    case Ok(run) =>
      if run.status == Completed then Stop(Ok(run), [Retrieve])
      else if run.status == RequiresAction then
        if tick.handling.Some? then Recover(tick.handling.value, [Retrieve, HandleRequiredActions])
        else Continue([Retrieve, HandleRequiredActions])
      else if Terminal(run.status) then
        if variant == AsWritten then Recover(RunFailure(runId, run), [Retrieve])
        else Stop(Err(RunFailure(runId, run)), [Retrieve])
      else Continue([Retrieve, Sleep(PollInterval)])
  }

  function Then(before: seq<Action>, m: Monitored): Monitored {
    Monitored(m.outcome, before + m.actions)
  }

  /** The monitor run from tick `i` of the script on. */
  function MonitorFrom(script: seq<Tick>, i: nat, runId: string, timeout: int, variant: Variant): Monitored
    decreases |script| - i
  {
    if i >= |script| || !WithinBudget(script[i].elapsed, timeout) then
      Monitored(Err(TimeoutExc(runId, timeout)), [CancelRun])
    else
      match StepOf(runId, script[i], variant)
      case Stop(outcome, actions) => Monitored(outcome, actions)
      case Continue(actions) => Then(actions, MonitorFrom(script, i + 1, runId, timeout, variant))
  }

  function Monitor(script: seq<Tick>, runId: string, timeout: int, variant: Variant): Monitored {
    MonitorFrom(script, 0, runId, timeout, variant)
  }

  /** One turn of the loop, as `MonitorFrom` takes it. */
  lemma {:induction false} MonitorStep(script: seq<Tick>, i: nat, runId: string, timeout: int, variant: Variant, before: seq<Action>)
    requires i < |script| && WithinBudget(script[i].elapsed, timeout)
    ensures var step := StepOf(runId, script[i], variant);
      Then(before, MonitorFrom(script, i, runId, timeout, variant)) ==
        if step.Stop? then Monitored(step.outcome, before + step.actions)
        else Then(before + step.actions, MonitorFrom(script, i + 1, runId, timeout, variant))
  {
    var step := StepOf(runId, script[i], variant);
    if step.Continue? {
      var rest := MonitorFrom(script, i + 1, runId, timeout, variant);
      assert before + (step.actions + rest.actions) == (before + step.actions) + rest.actions;
    }
  }

  /** `_monitor_analysis_run`. */
  method MonitorAnalysisRun(script: seq<Tick>, runId: string, timeout: int, variant: Variant)
    returns (outcome: Result<Run, Exc>, actions: seq<Action>)
    ensures Monitored(outcome, actions) == Monitor(script, runId, timeout, variant)
  {
    actions := [];
    var i := 0;
    while i < |script| && script[i].elapsed % SecondsPerDay < timeout
      invariant 0 <= i <= |script|
      invariant Monitor(script, runId, timeout, variant) == Then(actions, MonitorFrom(script, i, runId, timeout, variant))
      decreases |script| - i
    {
      var tick := script[i];
      ghost var step := StepOf(runId, tick, variant);
      ghost var before := actions;
      MonitorStep(script, i, runId, timeout, variant, actions);
      var raised: Option<Exc> := None;
      actions := actions + [Retrieve];
      if tick.retrieval.Err? {
        raised := Some(tick.retrieval.error);
      } else {
        var run := tick.retrieval.value;
        if run.status == Completed {
          outcome := Ok(run);
          return;
        } else if run.status == RequiresAction {
          actions := actions + [HandleRequiredActions];
          raised := tick.handling;
          if raised.None? {
            assert step == Continue([Retrieve, HandleRequiredActions]);
            assert actions == before + step.actions;
            i := i + 1;
            continue;
          }
        } else if Terminal(run.status) {
          raised := Some(RunFailure(runId, run));
          if variant == Corrected {
            outcome := Err(raised.value);
            return;
          }
        }
      }
      if raised.Some? {
        if Contains(raised.value.message, RateLimitMarker) {
          actions := actions + [Sleep(RateLimitBackoff)];
          assert step.Continue? && actions == before + step.actions;
          i := i + 1;
          continue;
        }
        outcome := Err(raised.value);
        return;
      }
      actions := actions + [Sleep(PollInterval)];
      assert step == Continue([Retrieve, Sleep(PollInterval)]);
      assert actions == before + step.actions;
      i := i + 1;
    }
    actions := actions + [CancelRun];
    outcome := Err(TimeoutExc(runId, timeout));
  }

  // ------------------------------------------------------------ properties

  /** A successful monitor returns a completed run that a poll within the
      budget retrieved, and never cancels. */
  lemma {:induction false} SuccessIsCompletedWithinBudget(script: seq<Tick>, i: nat, runId: string, timeout: int, variant: Variant)
    ensures var m := MonitorFrom(script, i, runId, timeout, variant);
      m.outcome.Ok? ==>
        m.outcome.value.status == Completed && CancelRun !in m.actions &&
        exists k :: i <= k < |script| && script[k].retrieval == m.outcome && WithinBudget(script[k].elapsed, timeout)
    decreases |script| - i
  {
    if i < |script| && WithinBudget(script[i].elapsed, timeout) {
      var step := StepOf(runId, script[i], variant);
      if step.Continue? {
        SuccessIsCompletedWithinBudget(script, i + 1, runId, timeout, variant);
        assert CancelRun !in step.actions;
      }
    }
  }

  /** A cancellation that is the single last action of `b` stays so after
      actions without one are put before it. */
  lemma {:induction false} CancelLastAfter(a: seq<Action>, b: seq<Action>)
    requires CancelRun !in a
    requires CancelRun in b ==> b[|b| - 1] == CancelRun && CancelRun !in b[..|b| - 1]
    ensures CancelRun in a + b ==>
      CancelRun in b && (a + b)[|a + b| - 1] == CancelRun && CancelRun !in (a + b)[..|a + b| - 1]
  {
    if CancelRun in a + b {
      assert CancelRun in b;
      assert (a + b)[..|a + b| - 1] == a + b[..|b| - 1];
    }
  }

  /** Cancellation happens only on timeout: it is then the last call made,
      made once, and the outcome is the timeout error. */
  lemma {:induction false} CancelOnlyOnTimeout(script: seq<Tick>, i: nat, runId: string, timeout: int, variant: Variant)
    ensures var m := MonitorFrom(script, i, runId, timeout, variant);
      CancelRun in m.actions ==>
        m.outcome == Err(TimeoutExc(runId, timeout)) &&
        m.actions[|m.actions| - 1] == CancelRun && CancelRun !in m.actions[..|m.actions| - 1]
    decreases |script| - i
  {
    if i < |script| && WithinBudget(script[i].elapsed, timeout) {
      var step := StepOf(runId, script[i], variant);
      StepActionsShape(runId, script[i], variant);
      if step.Continue? {
        CancelOnlyOnTimeout(script, i + 1, runId, timeout, variant);
        var rest := MonitorFrom(script, i + 1, runId, timeout, variant);
        assert MonitorFrom(script, i, runId, timeout, variant) == Monitored(rest.outcome, step.actions + rest.actions);
        CancelLastAfter(step.actions, rest.actions);
      }
    } else {
      assert MonitorFrom(script, i, runId, timeout, variant).actions == [CancelRun];
    }
  }

  /** When every poll in the budget only goes round again, the monitor
      cancels the run and reports the timeout. */
  lemma {:induction false} ExhaustedBudgetTimesOut(script: seq<Tick>, i: nat, runId: string, timeout: int, variant: Variant)
    requires forall k :: i <= k < |script| && WithinBudget(script[k].elapsed, timeout) ==>
      StepOf(runId, script[k], variant).Continue?
    ensures MonitorFrom(script, i, runId, timeout, variant).outcome == Err(TimeoutExc(runId, timeout))
    ensures CancelRun in MonitorFrom(script, i, runId, timeout, variant).actions
    decreases |script| - i
  {
    if i < |script| && WithinBudget(script[i].elapsed, timeout) {
      ExhaustedBudgetTimesOut(script, i + 1, runId, timeout, variant);
    }
  }

  /** Once the polls before it have only gone round again, the first poll
      within the budget that leaves the loop decides the outcome. */
  lemma {:induction false} StopAfterContinues(script: seq<Tick>, i: nat, j: nat, runId: string, timeout: int, variant: Variant)
    requires i <= j < |script| && WithinBudget(script[j].elapsed, timeout)
    requires StepOf(runId, script[j], variant).Stop?
    requires forall k :: i <= k < j ==>
      WithinBudget(script[k].elapsed, timeout) && StepOf(runId, script[k], variant).Continue?
    ensures MonitorFrom(script, i, runId, timeout, variant).outcome == StepOf(runId, script[j], variant).outcome
    decreases j - i
  {
    if i < j {
      StopAfterContinues(script, i + 1, j, runId, timeout, variant);
      ContinueKeepsOutcome(script, i, runId, timeout, variant);
    }
  }

  /** A completed run that a poll within the budget retrieves is returned,
      once the polls before it have only gone round again. */
  lemma {:induction false} CompletedIsReturned(script: seq<Tick>, i: nat, j: nat, runId: string, timeout: int,
                                               variant: Variant, run: Run)
    requires i <= j < |script| && WithinBudget(script[j].elapsed, timeout)
    requires script[j].retrieval == Ok(run) && run.status == Completed
    requires forall k :: i <= k < j ==>
      WithinBudget(script[k].elapsed, timeout) && StepOf(runId, script[k], variant).Continue?
    ensures MonitorFrom(script, i, runId, timeout, variant).outcome == Ok(run)
  {
    StopAfterContinues(script, i, j, runId, timeout, variant);
  }

  /** An error of the status retrieval or of the tool-call handling that
      does not mention rate limiting propagates at once, once the polls
      before it have only gone round again. */
  lemma {:induction false} NonTransientErrorIsFatal(script: seq<Tick>, i: nat, j: nat, runId: string, timeout: int,
                                                    variant: Variant, e: Exc)
    requires i <= j < |script| && WithinBudget(script[j].elapsed, timeout)
    requires script[j].retrieval == Err(e) ||
      (script[j].retrieval.Ok? && script[j].retrieval.value.status == RequiresAction && script[j].handling == Some(e))
    requires !Transient(e)
    requires forall k :: i <= k < j ==>
      WithinBudget(script[k].elapsed, timeout) && StepOf(runId, script[k], variant).Continue?
    ensures MonitorFrom(script, i, runId, timeout, variant).outcome == Err(e)
  {
    StopAfterContinues(script, i, j, runId, timeout, variant);
  }

  /** As written, a failed, expired or cancelled run whose error does not
      mention rate limiting still ends the monitor with that error. */
  lemma {:induction false} RunFailureIsFatalAsWritten(script: seq<Tick>, i: nat, j: nat, runId: string, timeout: int, run: Run)
    requires i <= j < |script| && WithinBudget(script[j].elapsed, timeout)
    requires script[j].retrieval == Ok(run) && Terminal(run.status) && !Transient(RunFailure(runId, run))
    requires forall k :: i <= k < j ==>
      WithinBudget(script[k].elapsed, timeout) && StepOf(runId, script[k], AsWritten).Continue?
    ensures MonitorFrom(script, i, runId, timeout, AsWritten).outcome == Err(RunFailure(runId, run))
  {
    StopAfterContinues(script, i, j, runId, timeout, AsWritten);
  }

  /** A queued, in-progress or unrecognised run is polled again after the
      two-second sleep. */
  lemma {:induction false} PendingPollsAgain(script: seq<Tick>, i: nat, runId: string, timeout: int, variant: Variant, run: Run)
    requires i < |script| && WithinBudget(script[i].elapsed, timeout)
    requires script[i].retrieval == Ok(run) && run.status in {Queued, InProgress, Unrecognised}
    ensures MonitorFrom(script, i, runId, timeout, variant) ==
      Then([Retrieve, Sleep(PollInterval)], MonitorFrom(script, i + 1, runId, timeout, variant))
  {
  }

  /** A rate-limit error of the status retrieval is followed by the
      five-second backoff and another poll. */
  lemma {:induction false} TransientErrorBacksOff(script: seq<Tick>, i: nat, runId: string, timeout: int, variant: Variant, e: Exc)
    requires i < |script| && WithinBudget(script[i].elapsed, timeout)
    requires script[i].retrieval == Err(e) && Transient(e)
    ensures MonitorFrom(script, i, runId, timeout, variant) ==
      Then([Retrieve, Sleep(RateLimitBackoff)], MonitorFrom(script, i + 1, runId, timeout, variant))
  {
    assert [Retrieve] + [Sleep(RateLimitBackoff)] == [Retrieve, Sleep(RateLimitBackoff)];
    assert StepOf(runId, script[i], variant) == Continue([Retrieve, Sleep(RateLimitBackoff)]);
  }

  /** Rate-limit errors are absorbed: as written, an error the monitor
      reports either is the timeout or does not mention rate limiting. */
  lemma {:induction false} TransientErrorsNeverSurface(script: seq<Tick>, i: nat, runId: string, timeout: int)
    ensures var m := MonitorFrom(script, i, runId, timeout, AsWritten);
      m.outcome.Err? ==> m.outcome.error == TimeoutExc(runId, timeout) || !Transient(m.outcome.error)
    decreases |script| - i
  {
    if i < |script| && WithinBudget(script[i].elapsed, timeout) {
      if StepOf(runId, script[i], AsWritten).Continue? {
        TransientErrorsNeverSurface(script, i + 1, runId, timeout);
      }
    }
  }

  /** Corrected: a reported error that mentions rate limiting is the timeout
      or the error of a run that ended without completing. */
  lemma {:induction false} TransientErrorsSurfaceOnlyAsRunFailures(script: seq<Tick>, i: nat, runId: string, timeout: int)
    ensures var m := MonitorFrom(script, i, runId, timeout, Corrected);
      m.outcome.Err? && Transient(m.outcome.error) ==>
        m.outcome.error == TimeoutExc(runId, timeout) ||
        exists k, run :: i <= k < |script| && script[k].retrieval == Ok(run) && Terminal(run.status) &&
          m.outcome.error == RunFailure(runId, run)
    decreases |script| - i
  {
    if i < |script| && WithinBudget(script[i].elapsed, timeout) {
      if StepOf(runId, script[i], Corrected).Continue? {
        TransientErrorsSurfaceOnlyAsRunFailures(script, i + 1, runId, timeout);
      }
    }
  }

  /** A single pass starts with the status retrieval, sleeps only 2 or 5
      seconds, and follows tool-call handling by nothing but the rate-limit
      backoff. */
  lemma {:induction false} StepActionsShape(runId: string, tick: Tick, variant: Variant)
    ensures var acts := StepOf(runId, tick, variant).actions;
      |acts| > 0 && acts[0] == Retrieve && CancelRun !in acts &&
      (forall k :: 0 <= k < |acts| && acts[k].Sleep? ==> acts[k].seconds == PollInterval || acts[k].seconds == RateLimitBackoff) &&
      (forall k :: 0 <= k < |acts| - 1 && acts[k] == HandleRequiredActions ==> acts[k + 1] == Sleep(RateLimitBackoff))
  {
  }

  /** Every sleep is the poll interval or the rate-limit backoff. */
  predicate KnownSleeps(acts: seq<Action>) {
    forall k :: 0 <= k < |acts| && acts[k].Sleep? ==> acts[k].seconds == PollInterval || acts[k].seconds == RateLimitBackoff
  }

  /** Handling tool calls is never followed by the poll-interval sleep. */
  predicate NoPollAfterHandling(acts: seq<Action>) {
    forall k :: 0 <= k < |acts| - 1 && acts[k] == HandleRequiredActions ==> acts[k + 1] != Sleep(PollInterval)
  }

  lemma {:induction false} DisciplineAppends(a: seq<Action>, b: seq<Action>)
    requires KnownSleeps(a) && KnownSleeps(b) && NoPollAfterHandling(a) && NoPollAfterHandling(b)
    requires |a| > 0 && |b| > 0 && a[|a| - 1] == HandleRequiredActions ==> b[0] != Sleep(PollInterval)
    ensures KnownSleeps(a + b) && NoPollAfterHandling(a + b)
  {
    var acts, n := a + b, |a|;
    forall k | 0 <= k < |acts| && acts[k].Sleep?
      ensures acts[k].seconds == PollInterval || acts[k].seconds == RateLimitBackoff
    {
      if k >= n { assert acts[k] == b[k - n]; } else { assert acts[k] == a[k]; }
    }
    forall k | 0 <= k < |acts| - 1 && acts[k] == HandleRequiredActions
      ensures acts[k + 1] != Sleep(PollInterval)
    {
      if k + 1 < n {
        assert acts[k] == a[k] && acts[k + 1] == a[k + 1];
      } else if k + 1 == n {
        assert acts[k] == a[n - 1] && acts[k + 1] == b[0];
      } else {
        assert acts[k] == b[k - n] && acts[k + 1] == b[k + 1 - n];
      }
    }
  }

  /** The monitor only ever sleeps 2 seconds (a normal poll) or 5 seconds
      (after a rate-limit error), and never sleeps the poll interval right
      after handling tool calls. */
  lemma {:induction false} SleepDiscipline(script: seq<Tick>, i: nat, runId: string, timeout: int, variant: Variant)
    ensures var acts := MonitorFrom(script, i, runId, timeout, variant).actions;
      |acts| > 0 && (acts[0] == Retrieve || acts[0] == CancelRun) && KnownSleeps(acts) && NoPollAfterHandling(acts)
    decreases |script| - i
  {
    if i < |script| && WithinBudget(script[i].elapsed, timeout) {
      var step := StepOf(runId, script[i], variant);
      StepActionsShape(runId, script[i], variant);
      if step.Continue? {
        SleepDiscipline(script, i + 1, runId, timeout, variant);
        var rest := MonitorFrom(script, i + 1, runId, timeout, variant).actions;
        DisciplineAppends(step.actions, rest);
        assert MonitorFrom(script, i, runId, timeout, variant).actions == step.actions + rest;
      }
    }
  }

  // -------------------------------------------------------------- finding

  /** As written, a run that fails with a last error mentioning rate limits
      is polled again instead of failing: a script whose first poll sees
      that failure and whose clock then runs out ends in a timeout, where
      the corrected monitor reports the failure. */
  lemma {:induction false} FailedRunRetriedAsWritten(runId: string, lastError: string, timeout: int)
    requires Contains(lastError, RateLimitMarker) && timeout > 0
    ensures var run := Run(runId, Failed, lastError);
      var script := [Tick(0, Ok(run), None)];
      Monitor(script, runId, timeout, AsWritten) ==
        Monitored(Err(TimeoutExc(runId, timeout)), [Retrieve, Sleep(RateLimitBackoff), CancelRun]) &&
      Monitor(script, runId, timeout, Corrected) ==
        Monitored(Err(RunFailure(runId, run)), [Retrieve])
  {
    var run := Run(runId, Failed, lastError);
    var script := [Tick(0, Ok(run), None)];
    ContainsAfterPrefix("Run " + runId + " failed: ", lastError, RateLimitMarker);
    assert Transient(RunFailure(runId, run));
    assert WithinBudget(script[0].elapsed, timeout);
    assert StepOf(runId, script[0], AsWritten) == Continue([Retrieve, Sleep(RateLimitBackoff)]);
    assert MonitorFrom(script, 1, runId, timeout, AsWritten) == Monitored(Err(TimeoutExc(runId, timeout)), [CancelRun]);
    assert StepOf(runId, script[0], Corrected) == Stop(Err(RunFailure(runId, run)), [Retrieve]);
  }

  /** A pass that goes round again leaves the outcome to the later polls. */
  lemma {:induction false} ContinueKeepsOutcome(script: seq<Tick>, i: nat, runId: string, timeout: int, variant: Variant)
    requires i < |script| && WithinBudget(script[i].elapsed, timeout)
    requires StepOf(runId, script[i], variant).Continue?
    ensures MonitorFrom(script, i, runId, timeout, variant).outcome ==
      MonitorFrom(script, i + 1, runId, timeout, variant).outcome
  {
  }

  /** Corrected: a poll within the budget that sees a failed, expired or
      cancelled run stops the monitor with that run's error. */
  lemma {:induction false} FailedPollStops(script: seq<Tick>, j: nat, runId: string, timeout: int, run: Run)
    requires j < |script| && WithinBudget(script[j].elapsed, timeout)
    requires script[j].retrieval == Ok(run) && Terminal(run.status)
    ensures MonitorFrom(script, j, runId, timeout, Corrected).outcome == Err(RunFailure(runId, run))
  {
    assert StepOf(runId, script[j], Corrected) == Stop(Err(RunFailure(runId, run)), [Retrieve]);
  }

  /** Corrected: once the polls before it have only gone round again, a
      poll within the budget that sees a failed, expired or cancelled run
      ends the monitor with that run's error. */
  lemma {:induction false} RunFailureIsFatal(script: seq<Tick>, i: nat, j: nat, runId: string, timeout: int, run: Run)
    requires i <= j < |script| && WithinBudget(script[j].elapsed, timeout)
    requires script[j].retrieval == Ok(run) && Terminal(run.status)
    requires forall k :: i <= k < j ==>
      WithinBudget(script[k].elapsed, timeout) && StepOf(runId, script[k], Corrected).Continue?
    ensures MonitorFrom(script, i, runId, timeout, Corrected).outcome == Err(RunFailure(runId, run))
    decreases j - i
  {
    if i < j {
      RunFailureIsFatal(script, i + 1, j, runId, timeout, run);
      ContinueKeepsOutcome(script, i, runId, timeout, Corrected);
    } else {
      FailedPollStops(script, j, runId, timeout, run);
    }
  }
}
