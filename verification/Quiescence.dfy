/** When "never requeued after an effect" holds: between a worker's marker check and its next transaction no
    tool transaction of that attempt commits (app/workers/agent_worker.py:215-310). */
module Quiescence {
  import opened Values
  import opened Profiles
  import opened Commands
  import opened JobResults
  import opened Durable
  import opened Machine
  import opened Invariants
  import opened Fencing
  import opened Reachability
  import opened Effects

  /** The worker of attempt k has read the marker and decided to retry or fail. */
  predicate GaveUp(s: Slot, k: nat) {
    k in s.attempts && s.attempts[k].control.Resolved? && GivesUp(s.attempts[k].control.intent)
  }

  predicate Quiet(w: World, step: Step) {
    step.At? && step.event.Tool? && step.job in w.jobs ==> !GaveUp(w.jobs[step.job], step.event.k)
  }

  /** An attempt that gave up, or never got a runtime, has left no effect while it holds the lease. */
  predicate NoLateEffect(s: Slot) {
    var k := s.rows.job.attempt;
    s.rows.job.status == Running && k in s.attempts
      && (GaveUp(s, k) || s.attempts[k].thread.Building? || s.attempts[k].thread.NoRuntime?)
    ==> s.rows.job.marker.None?
  }

  lemma FinishKeepsQuiet(cfg: Config, s: Slot, k: nat, o: RunOutcome)
    requires SlotOk(cfg, s) && NoLateEffect(s)
    ensures NoLateEffect(SlotEvent(cfg, s, Finish(k, o)))
  {
  }

  lemma SlotEventKeepsQuiet(cfg: Config, s: Slot, e: Event)
    requires SlotOk(cfg, s) && NoLateEffect(s) && Clean(s.rows.job) && !e.Finish? && !e.Commit?
    ensures NoLateEffect(SlotEvent(cfg, s, e))
  {
  }

  lemma CommitKeepsQuiet(cfg: Config, job: Id, s: Slot, cases: Cases, e: Event)
    requires e.Commit? && NoLateEffect(s)
    ensures NoLateEffect(Happen(cfg, job, s, cases, e).0)
  {
    if e.k in s.attempts && s.attempts[e.k].control.Resolved? {
      CommitUnfolds(cfg, job, s, cases, e.k, e.now, e.availableAt);
      var intent := s.attempts[e.k].control.intent;
      if CommitRows(s.rows, s.rows.job.tenant, e.k, intent, e.now, e.availableAt).Some? {
        CommitMoves(s.rows, s.rows.job.tenant, e.k, intent, e.now, e.availableAt);
        assert CommitRows(s.rows, s.rows.job.tenant, e.k, intent, e.now, e.availableAt).value.job.status != Running;
      }
    }
  }

  lemma ToolKeepsQuiet(cfg: Config, job: Id, s: Slot, cases: Cases, e: Event)
    requires SlotOk(cfg, s) && e.Tool? && NoLateEffect(s) && !GaveUp(s, e.k)
    ensures NoLateEffect(Happen(cfg, job, s, cases, e).0)
  {
    if ThreadRuns(s, e.k) && RunTool(Store(s.rows, cases), job, s.rows.job.tenant, e.k, e.tx, e.now).Some? {
      ToolRows(Store(s.rows, cases), job, s.rows.job.tenant, e.k, e.tx, e.now);
    }
  }

  lemma VerdictKeepsQuiet(cfg: Config, job: Id, s: Slot, cases: Cases, e: Event)
    requires SlotOk(cfg, s) && e.Verdict? && NoLateEffect(s)
    ensures NoLateEffect(Happen(cfg, job, s, cases, e).0)
  {
    VerdictMoves(cfg, job, s, cases, e);
    if s.rows.job.status != AwaitingApproval {
      NothingPending(cfg.rules, Store(s.rows, cases), job, e.tenant, e.actor, e.approve, e.now, e.lookups);
    }
  }

  lemma EventKeepsQuiet(cfg: Config, j: Id, s: Slot, cases: Cases, e: Event)
    requires SlotOk(cfg, s) && NoLateEffect(s) && Clean(s.rows.job) && (e.Tool? ==> !GaveUp(s, e.k))
    ensures NoLateEffect(Happen(cfg, j, s, cases, e).0)
  {
    match e
    case Finish(k, o) => FinishKeepsQuiet(cfg, s, k, o);
    case Commit(_, _, _) => CommitKeepsQuiet(cfg, j, s, cases, e);
    case Tool(_, _, _) => ToolKeepsQuiet(cfg, j, s, cases, e);
    case Verdict(_, _, _, _, _) => VerdictKeepsQuiet(cfg, j, s, cases, e);
    case _ => SlotEventKeepsQuiet(cfg, s, e);
  }

  lemma RecoveredIsQuiet(cfg: Config, s: Slot, now: Time, delay: nat)
    requires NoLateEffect(s)
    ensures NoLateEffect(Recovered(cfg, s, now, delay))
  {
  }

  lemma SweptIsQuiet(s: Slot, now: Time)
    requires NoLateEffect(s)
    ensures NoLateEffect(Swept(s, now))
  {
  }

  lemma StepKeepsQuiet(cfg: Config, w: World, step: Step, j: Id)
    requires WorldOk(cfg, w) && j in w.jobs && Quiet(w, step)
    requires NoLateEffect(w.jobs[j]) && Clean(w.jobs[j].rows.job)
    ensures NoLateEffect(StepOn(cfg, w, step, j))
  {
    match step
    case Enqueue(_, _, _, _, _) =>
    case At(i, e) =>
      if i == j {
        EventKeepsQuiet(cfg, j, w.jobs[j], w.cases, e);
      }
    case RecoverLeases(now, delay, unlocked) =>
      if j in unlocked {
        RecoveredIsQuiet(cfg, w.jobs[j], now, delay);
      }
    case ExpireApprovals(now, unlocked) =>
      if j in unlocked && !SweepConflicts(w, now, unlocked) {
        SweptIsQuiet(w.jobs[j], now);
      }
  }

  lemma QuietIsNeverLate(w: World, step: Step)
    requires forall j <- w.jobs :: NoLateEffect(w.jobs[j])
    ensures !LateCommit(w, step)
  {
  }

  ghost predicate QuietWorld(w: World) {
    forall j <- w.jobs :: NoLateEffect(w.jobs[j]) && Clean(w.jobs[j].rows.job)
  }

  lemma QuietWorldsStayQuiet(cfg: Config, w: World, step: Step)
    requires WorldOk(cfg, w) && Quiet(w, step) && QuietWorld(w)
    ensures QuietWorld(Apply(cfg, w, step))
  {
    QuietIsNeverLate(w, step);
    forall j <- Apply(cfg, w, step).jobs
      ensures NoLateEffect(Apply(cfg, w, step).jobs[j]) && Clean(Apply(cfg, w, step).jobs[j].rows.job)
    {
      if j in w.jobs {
        StepKeepsQuiet(cfg, w, step, j);
        StaysClean(cfg, w, step, j);
        assert StepOn(cfg, w, step, j) == Apply(cfg, w, step).jobs[j];
      }
    }
  }

  predicate QuietHistory(cfg: Config, w: World, history: seq<Step>) {
    history != [] ==>
      && Quiet(Run(cfg, w, history[..|history| - 1]), history[|history| - 1])
      && QuietHistory(cfg, w, history[..|history| - 1])
  }

  lemma {:induction false} QuietHistoriesStayQuiet(cfg: Config, w: World, history: seq<Step>)
    requires Fresh(w) && QuietHistory(cfg, w, history)
    ensures QuietWorld(Run(cfg, w, history)) && NeverLate(cfg, w, history)
  {
    if history != [] {
      var n := |history| - 1;
      QuietHistoriesStayQuiet(cfg, w, history[..n]);
      ReachableOk(cfg, w, history[..n]);
      QuietIsNeverLate(Run(cfg, w, history[..n]), history[n]);
      QuietWorldsStayQuiet(cfg, Run(cfg, w, history[..n]), history[n]);
    }
  }

  /** Under quiescence, statuses tell the truth about effects, in every world of the history. */
  lemma QuiescentStatusesAreTruthful(cfg: Config, w: World, history: seq<Step>, j: Id)
    requires Fresh(w) && QuietHistory(cfg, w, history) && j in Run(cfg, w, history).jobs
    ensures AlwaysClean(cfg, w, history)
    ensures var r := Run(cfg, w, history).jobs[j].rows;
      && (r.job.status == Queued ==> r.effects == [])
      && (r.job.status == Failed && r.job.error != Some(ApprovalTimedOut) ==> r.effects == [])
      && (r.job.status == FailedUncertain ==> r.effects != [])
  {
    QuietHistoriesStayQuiet(cfg, w, history);
    NeverRequeuedAfterAnEffect(cfg, w, history);
    ReachableOk(cfg, w, history);
  }

  // ---------------------------------------------------------------- why the hypothesis is needed

  lemma RunExtended(cfg: Config, w: World, history: seq<Step>, step: Step)
    ensures Run(cfg, w, history + [step]) == Apply(cfg, Run(cfg, w, history), step)
  {
    assert (history + [step])[..|history|] == history;
  }

  /** A timed-out attempt: its worker has seen no marker and will retry. */
  function TimedOut(profile: Profile): seq<Step> {
    [] + [Enqueue(0, 0, 0, profile, 0)] + [At(0, Claim(0, 10, {}))] + [At(0, Build(1))]
    + [At(0, Finish(1, Retryable(JobTimedOut)))]
  }

  /** Then the attempt's thread, still running, stores an artifact before the retry commits. */
  function LateHistory(profile: Profile): seq<Step> {
    TimedOut(profile) + [At(0, Tool(1, ArtifactTx(ReviewFlag, 7, Flag("note")), 1))] + [At(0, Commit(1, 2, 3))]
  }

  predicate AboutToRetry(w: World) {
    && 0 in w.jobs
    && var s := w.jobs[0];
       && Owned(s.rows.job, s.rows.job.tenant, 1) && s.rows.artifacts == map[]
       && 1 in s.attempts && s.attempts[1] == Attempt(false, Working, Resolved(RetryIt(WorkerTimeout)))
  }

  lemma FirstAttemptTimesOut(cfg: Config, w: World, profile: Profile)
    requires 0 in w.jobs && cfg.maxRetries >= 1
    requires w.jobs[0] == Slot(Rows(NewJob(0, 0, profile, 0), None, None, map[], []), map[])
    ensures var claimed := Apply(cfg, w, At(0, Claim(0, 10, {})));
      var built := Apply(cfg, claimed, At(0, Build(1)));
      AboutToRetry(Apply(cfg, built, At(0, Finish(1, Retryable(JobTimedOut)))))
  {
  }

  lemma TimedOutIsAboutToRetry(cfg: Config, profile: Profile)
    requires ValidProfile(profile) && cfg.maxRetries >= 1
    ensures AboutToRetry(Run(cfg, EMPTY, TimedOut(profile)))
  {
    var h0: seq<Step> := [] + [Enqueue(0, 0, 0, profile, 0)];
    var h1 := h0 + [At(0, Claim(0, 10, {}))];
    var h2 := h1 + [At(0, Build(1))];
    RunExtended(cfg, EMPTY, [], Enqueue(0, 0, 0, profile, 0));
    RunExtended(cfg, EMPTY, h0, At(0, Claim(0, 10, {})));
    RunExtended(cfg, EMPTY, h1, At(0, Build(1)));
    RunExtended(cfg, EMPTY, h2, At(0, Finish(1, Retryable(JobTimedOut))));
    FirstAttemptTimesOut(cfg, Run(cfg, EMPTY, h0), profile);
  }

  lemma LateToolThenRetry(cfg: Config, w: World)
    requires AboutToRetry(w)
    ensures var stored := Apply(cfg, w, At(0, Tool(1, ArtifactTx(ReviewFlag, 7, Flag("note")), 1)));
      var end := Apply(cfg, stored, At(0, Commit(1, 2, 3)));
      && 0 in end.jobs && end.jobs[0].rows.job.status == Queued
      && end.jobs[0].rows.effects != [] && end.jobs[0].rows.job.marker == Some(1)
  {
  }

  /** So the hypothesis is needed: this history requeues a job that has an effect. */
  lemma LateEffectsCanBeRequeued(cfg: Config, profile: Profile)
    requires ValidProfile(profile) && cfg.maxRetries >= 1
    ensures var end := Run(cfg, EMPTY, LateHistory(profile));
      && 0 in end.jobs && end.jobs[0].rows.job.status == Queued
      && end.jobs[0].rows.effects != [] && end.jobs[0].rows.job.marker == Some(1)
  {
    TimedOutIsAboutToRetry(cfg, profile);
    LateToolThenRetry(cfg, Run(cfg, EMPTY, TimedOut(profile)));
    var tool := At(0, Tool(1, ArtifactTx(ReviewFlag, 7, Flag("note")), 1));
    RunExtended(cfg, EMPTY, TimedOut(profile), tool);
    RunExtended(cfg, EMPTY, TimedOut(profile) + [tool], At(0, Commit(1, 2, 3)));
  }
}
