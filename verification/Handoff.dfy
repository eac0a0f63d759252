/** From a gated run to the parked job: the command a human is shown is the one the run proposed. */
module Handoff {
  import opened Values
  import opened Profiles
  import opened Proposals
  import Policy
  import opened Commands
  import Gate
  import AgentLoop
  import Transcript
  import RunProperties
  import RunEnds
  import RunOutcomes
  import JobResults
  import opened Durable
  import opened Machine
  import opened Invariants

  /** What the worker sees of an ended run (`serve_once`, `_persist_result`). */
  function OutcomeOf(r: AgentLoop.RunResult, summary: JobResults.Result): RunOutcome {
    if !r.completed then AgentFailure(r.reason == AgentLoop.ToolExecutionFailed)
    else Complete(r.path == [], RunProperties.ApprovalWasRequested(r), summary)
  }

  lemma {:induction false} UngrantedRequestsCrash(
      model: AgentLoop.Model, rt: Runtime, world: RunProperties.World, limit: nat, st: AgentLoop.LoopState)
    requires AgentLoop.Continued(model, RunProperties.GateTools(rt, world), limit, st).Ended?
    requires RunProperties.Granted(model, rt, world, limit, st).None?
    ensures RunProperties.Requests(model, rt, world, limit, st) == []
    decreases limit - st.steps
  {
    if st.steps < limit {
      var tools := RunProperties.GateTools(rt, world);
      match AgentLoop.Advance(model, tools, st)
      case Next(next) =>
        UngrantedRequestsCrash(model, rt, world, limit, next);
        var p := model(st.messages).value;
        RunProperties.ContinuingCalls(rt, p, p.toolCall.value, world(st.messages + [Transcript.AssistantTurn(p)]));
      case Stop(_) =>
    }
  }

  /** The thread of an attempt whose run ended, in the machine's terms. */
  function ThreadOf(granted: Option<Command>): Thread {
    if granted.Some? then Machine.Granted(granted.value) else Working
  }

  /** Every ended gated run gives the machine an outcome it accepts: a completed run parks exactly when its
      one request was granted, without a request otherwise, and never with an empty path. */
  lemma RunOutcomesFit(model: AgentLoop.Model, rt: Runtime, world: RunProperties.World, maxSteps: nat,
                       initial: seq<Transcript.Message>, summary: JobResults.Result)
    ensures var end := AgentLoop.Run(model, RunProperties.GateTools(rt, world), maxSteps, initial);
      var start := AgentLoop.Start(initial);
      var granted := RunProperties.Granted(model, rt, world, AgentLoop.Limit(maxSteps), start);
      var requests := RunProperties.Requests(model, rt, world, AgentLoop.Limit(maxSteps), start);
      end.Ended? ==>
        && OutcomeFits(ThreadOf(granted), OutcomeOf(end.result, summary))
        && requests == (if granted.Some? then [granted.value] else [])
  {
    var start := AgentLoop.Start(initial);
    RunProperties.ParkingRuns(model, rt, world, AgentLoop.Limit(maxSteps), start);
    if AgentLoop.Run(model, RunProperties.GateTools(rt, world), maxSteps, initial).Ended?
       && RunProperties.Granted(model, rt, world, AgentLoop.Limit(maxSteps), start).None? {
      UngrantedRequestsCrash(model, rt, world, AgentLoop.Limit(maxSteps), start);
    }
  }

  // ---------------------------------------------------------------- runs that fail

  /** What the worker of an ended run resolves to. A failed run never succeeds, parks or retries: with an effect nobody
      can tell, and without one the job fails as its run did. A completed run parks or succeeds with its summary, unless
      it has nothing to show for itself. */
  lemma RunsResolveExactly(r: AgentLoop.RunResult, summary: JobResults.Result, hasEffect: bool, k: nat, maxRetries: nat)
    ensures var i := IntentFor(OutcomeOf(r, summary), hasEffect, k, maxRetries);
      i == if !r.completed && hasEffect then UncertainIt(AgentFailedAfterSideEffect)
           else if !r.completed then
             FailIt(if r.reason == AgentLoop.ToolExecutionFailed then ToolFailed else AgentFailed)
           else if r.path == [] then FailIt(AgentFailed)
           else if RunProperties.ApprovalWasRequested(r) then ParkIt(summary)
           else SucceedIt(summary)
  {
  }

  /** What the worker of a failed run resolves to, unless it has lost its lease. */
  predicate ResolvesAsFailed(s: Slot, k: nat, after: Control, code: ErrorCode)
    requires k in s.attempts
  {
    && (after.Finished? <==> !s.attempts[k].markerSeen && !Owned(s.rows.job, s.rows.job.tenant, k))
    && (after.Resolved? ==>
          after.intent == if s.attempts[k].markerSeen || s.rows.job.marker.Some?
                          then UncertainIt(AgentFailedAfterSideEffect) else FailIt(code))
    && !after.Executing?
  }

  lemma FailedRunsFinish(cfg: Config, s: Slot, k: nat, r: AgentLoop.RunResult, summary: JobResults.Result)
    requires k in s.attempts && s.attempts[k].control.Executing? && !r.completed
    ensures k in SlotEvent(cfg, s, Finish(k, OutcomeOf(r, summary))).attempts
    ensures ResolvesAsFailed(s, k, SlotEvent(cfg, s, Finish(k, OutcomeOf(r, summary))).attempts[k].control,
                             if r.reason == AgentLoop.ToolExecutionFailed then ToolFailed else AgentFailed)
  {
    RunsResolveExactly(r, summary, true, k, cfg.maxRetries);
    RunsResolveExactly(r, summary, false, k, cfg.maxRetries);
  }

  /** A gated run whose last executed call met a broken port is never recorded as a success: the attempt's worker
      resolves to fail the job with `tool_execution_failed`, or as uncertain if the job shows an effect, unless it has
      lost its lease. */
  lemma BackendFailuresFailTheJob(
      cfg: Config, s: Slot, k: nat, model: AgentLoop.Model, rt: Runtime, world: RunProperties.World, maxSteps: nat,
      initial: seq<Transcript.Message>, summary: JobResults.Result)
    requires k in s.attempts && s.attempts[k].control.Executing?
    ensures var last := RunEnds.LastOf(model, rt, world, maxSteps, initial);
      var end := AgentLoop.Run(model, RunProperties.GateTools(rt, world), maxSteps, initial);
      last.steps < AgentLoop.Limit(maxSteps) && RunOutcomes.LastCallFails(model, rt, world, last) ==>
        && end.Ended? && !end.result.completed
        && k in SlotEvent(cfg, s, Finish(k, OutcomeOf(end.result, summary))).attempts
        && ResolvesAsFailed(s, k, SlotEvent(cfg, s, Finish(k, OutcomeOf(end.result, summary))).attempts[k].control,
                            ToolFailed)
  {
    RunOutcomes.BackendFailuresFailTheRun(model, rt, world, maxSteps, initial);
    var end := AgentLoop.Run(model, RunProperties.GateTools(rt, world), maxSteps, initial);
    if end.Ended? && !end.result.completed {
      FailedRunsFinish(cfg, s, k, end.result, summary);
    }
  }

  // ---------------------------------------------------------------- storing and parking it

  lemma AskGoesThrough(cfg: Config, s: Slot, k: nat, c: Command, reason: Policy.Reason)
    requires k in s.attempts && s.attempts[k].thread == Working && Authorized(cfg.rules, s.rows.job.profile, c)
    ensures SlotEvent(cfg, s, Ask(k, c, reason)) == Attempts(s, k, s.attempts[k].(thread := Asking(c, reason)))
  {
  }

  /** While the attempt holds the lease, `request_approval` cannot fail, whatever earlier attempts staged. */
  lemma StageGoesThrough(cfg: Config, s: Slot, k: nat, id: Id, now: Time)
    requires SlotOk(cfg, s) && Owned(s.rows.job, s.rows.job.tenant, k)
    requires k in s.attempts && s.attempts[k].thread.Asking?
    ensures var after := SlotEvent(cfg, s, Stage(k, id, now));
      && after.rows.approval.Some? && after.rows.approval.value.status == Staged
      && after.rows.approval.value.command == s.attempts[k].thread.command
      && after == Attempts(s.(rows := s.rows.(approval := after.rows.approval)), k,
                           s.attempts[k].(thread := Machine.Granted(s.attempts[k].thread.command)))
  {
    var t := s.attempts[k].thread;
    var after := CreateApproval(s.rows, s.rows.job.tenant, k, id, t.command, t.reason, now + cfg.approvalTimeout);
    StageUnfolds(cfg, s, k, id, now, after);
    StagedRow(s.rows, s.rows.job.tenant, k, id, t.command, t.reason, now + cfg.approvalTimeout);
  }

  lemma ParkGoesThrough(cfg: Config, s: Slot, k: nat, summary: JobResults.Result, now: Time, availableAt: Time)
    requires Owned(s.rows.job, s.rows.job.tenant, k)
    requires s.rows.approval.Some? && s.rows.approval.value.status == Staged
    requires k in s.attempts && s.attempts[k].thread.Granted? && s.attempts[k].control.Executing?
    ensures var finished := SlotEvent(cfg, s, Finish(k, Complete(false, true, summary)));
      var parked := SlotEvent(cfg, finished, Commit(k, now, availableAt)).rows;
      && parked.job.status == AwaitingApproval && parked.job.result == Some(summary)
      && parked.approval == Some(s.rows.approval.value.(status := Pending))
      && Published(parked.approval.value, parked.job)
  {
  }

  /** A run that parks, executed by the attempt that holds the lease, publishes exactly the command that the
      run's last proposal asked for. */
  lemma ParkedCommandIsTheProposed(
      cfg: Config, s: Slot, k: nat, model: AgentLoop.Model, rt: Runtime, world: RunProperties.World, maxSteps: nat,
      initial: seq<Transcript.Message>, reason: Policy.Reason, id: Id, staged: Time, now: Time)
    requires SlotOk(cfg, s) && Owned(s.rows.job, s.rows.job.tenant, k)
    requires k in s.attempts && s.attempts[k].thread == Working && s.attempts[k].control == Executing
    requires rt.rules == cfg.rules && rt.profile == s.rows.job.profile
    requires AgentLoop.Run(model, RunProperties.GateTools(rt, world), maxSteps, initial).Ended?
    requires RunProperties.ApprovalWasRequested(
      AgentLoop.Run(model, RunProperties.GateTools(rt, world), maxSteps, initial).result)
    ensures var result := AgentLoop.Run(model, RunProperties.GateTools(rt, world), maxSteps, initial).result;
      var granted := RunProperties.Granted(model, rt, world, AgentLoop.Limit(maxSteps), AgentLoop.Start(initial));
      && granted.Some?
      && var s1 := SlotEvent(cfg, s, Ask(k, granted.value, reason));
      && var s2 := SlotEvent(cfg, s1, Stage(k, id, staged));
      && var s3 := SlotEvent(cfg, s2, Finish(k, OutcomeOf(result, JobResults.ResultSummary(result))));
      && var s4 := SlotEvent(cfg, s3, Commit(k, now, now));
      && s4.rows.job.status == AwaitingApproval
      && s4.rows.job.result == Some(JobResults.ResultSummary(result))
      && s4.rows.approval.Some? && Published(s4.rows.approval.value, s4.rows.job)
      && s4.rows.approval.value.command == granted.value
  {
    var start := AgentLoop.Start(initial);
    var result := AgentLoop.Run(model, RunProperties.GateTools(rt, world), maxSteps, initial).result;
    RunProperties.ParkingRuns(model, rt, world, AgentLoop.Limit(maxSteps), start);
    RunProperties.RequestsAreAuthorized(model, rt, world, AgentLoop.Limit(maxSteps), start);
    var c := RunProperties.Granted(model, rt, world, AgentLoop.Limit(maxSteps), start).value;
    assert c in RunProperties.Requests(model, rt, world, AgentLoop.Limit(maxSteps), start);
    var s1 := SlotEvent(cfg, s, Ask(k, c, reason));
    AskGoesThrough(cfg, s, k, c, reason);
    ThreadKeeps(cfg, s, Ask(k, c, reason));
    StageGoesThrough(cfg, s1, k, id, staged);
    var s2 := SlotEvent(cfg, s1, Stage(k, id, staged));
    ParkGoesThrough(cfg, s2, k, JobResults.ResultSummary(result), now, now);
  }
}
