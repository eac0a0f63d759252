/** Which status, error code and result go together, in every reachable world
    (app/workers/agent_worker.py, app/domain/job_repository.py, app/domain/approval_repository.py). */
module Outcomes {
  import opened Values
  import opened Profiles
  import opened JobResults
  import opened Durable
  import opened Machine
  import opened Invariants
  import opened Fencing
  import opened Reachability

  predicate RetryCode(c: ErrorCode) {
    c == ProviderUnavailable || c == GatewayTimeout || c == WorkerTimeout || c == LeaseExpired
  }

  predicate UncertainCode(c: ErrorCode) {
    c == SideEffectCommitted || c == UnexpectedAfterSideEffect || c == AgentFailedAfterSideEffect
      || c == LeaseExpiredAfterSideEffect
  }

  predicate FailureCode(c: ErrorCode) { !RetryCode(c) && !UncertainCode(c) && c != ApprovalTimedOut }

  /** What the code and the result of a job say about its status. */
  predicate Explained(job: Job) {
    match job.status
    case Queued =>
      && job.result.None?
      && (if job.attempt == 0 then job.error.None? else job.error.Some? && RetryCode(job.error.value))
    case Running => job.result.None?
    case AwaitingApproval => job.result.Some? && job.error.None?
    case Succeeded => job.result.Some? && job.error.None?
    case Failed =>
      && job.error.Some?
      && (if job.result.Some? then job.error.value == ApprovalTimedOut else FailureCode(job.error.value))
    case FailedUncertain => job.result.None? && job.error.Some? && UncertainCode(job.error.value)
  }

  predicate IntentExplained(i: Intent) {
    match i
    case RetryIt(code) => RetryCode(code)
    case FailIt(code) => FailureCode(code)
    case UncertainIt(code) => UncertainCode(code)
    case _ => true
  }

  ghost predicate SlotExplained(s: Slot) {
    && Explained(s.rows.job)
    && (forall k <- s.attempts :: s.attempts[k].control.Resolved? ==> IntentExplained(s.attempts[k].control.intent))
  }

  /** The branches of `serve_once`, exactly: an outcome that inspects the marker becomes uncertain with an effect;
      without one, only a retryable outcome within the limit retries; only a completed run that asked parks; and each
      error code has one cause. */
  lemma OutcomesResolveExactly(o: RunOutcome, hasEffect: bool, attempt: nat, maxRetries: nat)
    requires !o.LeaseLost? && (hasEffect ==> InspectsMarker(o))
    ensures var i := IntentFor(o, hasEffect, attempt, maxRetries);
      && IntentExplained(i)
      && (i.UncertainIt? <==> hasEffect)
      && (i.RetryIt? <==> o.Retryable? && !hasEffect && attempt <= maxRetries)
      && (i.ParkIt? <==> o.Complete? && !o.emptyPath && o.parks)
      && (i.SucceedIt? <==> o.PreflightUnreadable? || (o.Complete? && !o.emptyPath && !o.parks))
      && (i.ParkIt? || i.SucceedIt? ==> i.result == o.summary)
      && (i.FailIt? ==> FailureCause(i.code, o))
      && (i == FailIt(RetryExhausted) <==> o.Retryable? && !hasEffect && attempt > maxRetries)
      && (i.RetryIt? ==> RetriedFor(i.code, o.cause))
      && (i.UncertainIt? ==> UncertainCause(i.code, o))
  {
  }

  /** The one kind of outcome behind each code a worker fails a job with. */
  predicate FailureCause(c: ErrorCode, o: RunOutcome) {
    match c
    case RetryExhausted => o.Retryable?
    case ToolFailed => o == AgentFailure(true)
    case AgentFailed => o == AgentFailure(false) || (o.Complete? && o.emptyPath)
    case ProviderRequestRejected => o.ProviderRejected?
    case WorkerError => o.Unexpected?
    case SnapshotIncompatible => o == PreflightFailed(true)
    case CapabilityUnavailable => o == PreflightFailed(false)
    case _ => false
  }

  predicate RetriedFor(c: ErrorCode, cause: RetryCause) {
    match c
    case ProviderUnavailable => cause.ProviderDown?
    case GatewayTimeout => cause.GatewayTimedOut?
    case WorkerTimeout => cause.JobTimedOut?
    case _ => false
  }

  predicate UncertainCause(c: ErrorCode, o: RunOutcome) {
    match c
    case SideEffectCommitted => o.Retryable?
    case AgentFailedAfterSideEffect => o.AgentFailure?
    case UnexpectedAfterSideEffect => o.ProviderRejected? || o.Unexpected?
    case _ => false
  }

  lemma CommittedIsExplained(r: Rows, tenant: Id, k: nat, intent: Intent, now: Time, availableAt: Time)
    requires CommitRows(r, tenant, k, intent, now, availableAt).Some? && k > 0
    requires Explained(r.job) && IntentExplained(intent)
    ensures Explained(CommitRows(r, tenant, k, intent, now, availableAt).value.job)
  {
  }

  lemma CommitExplained(cfg: Config, j: Id, s: Slot, cases: Cases, e: Event)
    requires SlotOk(cfg, s) && SlotExplained(s) && e.Commit?
    ensures SlotExplained(Happen(cfg, j, s, cases, e).0)
  {
    if e.k in s.attempts && s.attempts[e.k].control.Resolved? {
      var intent := s.attempts[e.k].control.intent;
      if CommitRows(s.rows, s.rows.job.tenant, e.k, intent, e.now, e.availableAt).Some? {
        CommittedIsExplained(s.rows, s.rows.job.tenant, e.k, intent, e.now, e.availableAt);
      }
    }
  }

  lemma FinishExplained(cfg: Config, j: Id, s: Slot, cases: Cases, e: Event)
    requires SlotExplained(s) && e.Finish?
    ensures SlotExplained(Happen(cfg, j, s, cases, e).0)
  {
  }

  lemma FinalizedIsExplained(before: Job, after: Job)
    requires Finalizes(before, after) && Explained(before)
    requires before.status != AwaitingApproval ==> after == before
    ensures Explained(after)
  {
  }

  lemma VerdictExplained(cfg: Config, j: Id, s: Slot, cases: Cases, e: Event)
    requires SlotOk(cfg, s) && SlotExplained(s) && e.Verdict?
    ensures SlotExplained(Happen(cfg, j, s, cases, e).0)
  {
    VerdictFinalizes(cfg, j, s, cases, e);
    if s.rows.job.status != AwaitingApproval {
      NothingPending(cfg.rules, Store(s.rows, cases), j, e.tenant, e.actor, e.approve, e.now, e.lookups);
    }
    FinalizedIsExplained(s.rows.job, Happen(cfg, j, s, cases, e).0.rows.job);
  }

  lemma OtherEventExplained(cfg: Config, j: Id, s: Slot, cases: Cases, e: Event)
    requires SlotOk(cfg, s) && SlotExplained(s) && !e.Verdict? && !e.Commit? && !e.Finish? && !e.Tool?
    ensures SlotExplained(Happen(cfg, j, s, cases, e).0)
  {
  }

  lemma ToolExplained(cfg: Config, j: Id, s: Slot, cases: Cases, e: Event)
    requires SlotOk(cfg, s) && SlotExplained(s) && e.Tool?
    ensures SlotExplained(Happen(cfg, j, s, cases, e).0)
  {
    if ThreadRuns(s, e.k) && RunTool(Store(s.rows, cases), j, s.rows.job.tenant, e.k, e.tx, e.now).Some? {
      ToolRows(Store(s.rows, cases), j, s.rows.job.tenant, e.k, e.tx, e.now);
    }
  }

  lemma RecoveredIsExplained(cfg: Config, s: Slot, now: Time, delay: nat)
    requires Bounded(cfg, s) && SlotExplained(s)
    ensures SlotExplained(Recovered(cfg, s, now, delay))
  {
  }

  lemma SweptIsExplained(s: Slot, now: Time)
    requires SlotExplained(s)
    ensures SlotExplained(Swept(s, now))
  {
  }

  lemma EventExplained(cfg: Config, j: Id, s: Slot, cases: Cases, e: Event)
    requires SlotOk(cfg, s) && SlotExplained(s)
    ensures SlotExplained(Happen(cfg, j, s, cases, e).0)
  {
    match e
    case Verdict(_, _, _, _, _) => VerdictExplained(cfg, j, s, cases, e);
    case Commit(_, _, _) => CommitExplained(cfg, j, s, cases, e);
    case Finish(_, _) => FinishExplained(cfg, j, s, cases, e);
    case Tool(_, _, _) => ToolExplained(cfg, j, s, cases, e);
    case _ => OtherEventExplained(cfg, j, s, cases, e);
  }

  lemma StepExplained(cfg: Config, w: World, step: Step, j: Id)
    requires j in w.jobs && SlotOk(cfg, w.jobs[j]) && SlotExplained(w.jobs[j])
    ensures SlotExplained(StepOn(cfg, w, step, j))
  {
    match step
    case Enqueue(_, _, _, _, _) =>
    case At(i, e) =>
      if i == j {
        EventExplained(cfg, j, w.jobs[j], w.cases, e);
      }
    case RecoverLeases(now, delay, unlocked) =>
      if j in unlocked {
        RecoveredIsExplained(cfg, w.jobs[j], now, delay);
      }
    case ExpireApprovals(now, unlocked) =>
      if j in unlocked && !SweepConflicts(w, now, unlocked) {
        SweptIsExplained(w.jobs[j], now);
      }
  }

  /** In every reachable world the error code and the stored result explain the status of every job. */
  lemma {:induction false} StatusesAreExplained(cfg: Config, w: World, history: seq<Step>, j: Id)
    requires Fresh(w) && j in Run(cfg, w, history).jobs
    ensures Explained(Run(cfg, w, history).jobs[j].rows.job)
    ensures SlotExplained(Run(cfg, w, history).jobs[j])
  {
    var n := |history| - 1;
    var before := Run(cfg, w, history[..n]);
    if j in before.jobs {
      StatusesAreExplained(cfg, w, history[..n], j);
      ReachableOk(cfg, w, history[..n]);
      StepExplained(cfg, before, history[n], j);
    }
  }

  // ---------------------------------------------------------------- giving up

  /** Retries count as exhausted only when they are: for the job, and for a worker about to say so. */
  ghost predicate GaveUpLate(cfg: Config, s: Slot) {
    && (s.rows.job.error == Some(RetryExhausted) ==> s.rows.job.attempt > cfg.maxRetries)
    && (forall k <- s.attempts :: s.attempts[k].control == Resolved(FailIt(RetryExhausted)) ==> k > cfg.maxRetries)
  }

  lemma CommitGivesUpLate(cfg: Config, s: Slot, k: nat, now: Time, availableAt: Time)
    requires GaveUpLate(cfg, s) && Explained(s.rows.job)
    requires forall i <- s.attempts :: s.attempts[i].control.Resolved? ==> IntentExplained(s.attempts[i].control.intent)
    ensures GaveUpLate(cfg, SlotEvent(cfg, s, Commit(k, now, availableAt)))
  {
  }

  lemma FinishGivesUpLate(cfg: Config, s: Slot, k: nat, o: RunOutcome)
    requires GaveUpLate(cfg, s)
    ensures GaveUpLate(cfg, SlotEvent(cfg, s, Finish(k, o)))
  {
  }

  lemma FinalizingGivesUpLate(cfg: Config, before: Job, after: Job)
    requires Finalizes(before, after) && before.error == Some(RetryExhausted) ==> before.attempt > cfg.maxRetries
    ensures Finalizes(before, after) && after.error == Some(RetryExhausted) ==> after.attempt > cfg.maxRetries
  {
  }

  lemma VerdictGivesUpLate(cfg: Config, j: Id, s: Slot, cases: Cases, e: Event)
    requires e.Verdict? && GaveUpLate(cfg, s)
    ensures GaveUpLate(cfg, Happen(cfg, j, s, cases, e).0)
  {
    VerdictFinalizes(cfg, j, s, cases, e);
    FinalizingGivesUpLate(cfg, s.rows.job, Happen(cfg, j, s, cases, e).0.rows.job);
  }

  lemma ToolGivesUpLate(cfg: Config, j: Id, s: Slot, cases: Cases, e: Event)
    requires e.Tool? && EffectLists(s.rows) && GaveUpLate(cfg, s)
    ensures GaveUpLate(cfg, Happen(cfg, j, s, cases, e).0)
  {
    if ThreadRuns(s, e.k) && RunTool(Store(s.rows, cases), j, s.rows.job.tenant, e.k, e.tx, e.now).Some? {
      ToolRows(Store(s.rows, cases), j, s.rows.job.tenant, e.k, e.tx, e.now);
    }
  }

  lemma OthersGiveUpLate(cfg: Config, s: Slot, e: Event)
    requires GaveUpLate(cfg, s) && !e.Commit? && !e.Finish?
    ensures GaveUpLate(cfg, SlotEvent(cfg, s, e))
  {
  }

  lemma EventGivesUpLate(cfg: Config, j: Id, s: Slot, cases: Cases, e: Event)
    requires SlotOk(cfg, s) && SlotExplained(s) && GaveUpLate(cfg, s)
    ensures GaveUpLate(cfg, Happen(cfg, j, s, cases, e).0)
  {
    match e
    case Verdict(_, _, _, _, _) => VerdictGivesUpLate(cfg, j, s, cases, e);
    case Tool(_, _, _) => ToolGivesUpLate(cfg, j, s, cases, e);
    case Commit(k, now, availableAt) => CommitGivesUpLate(cfg, s, k, now, availableAt);
    case Finish(k, o) => FinishGivesUpLate(cfg, s, k, o);
    case _ => OthersGiveUpLate(cfg, s, e);
  }

  lemma SweepsGiveUpLate(cfg: Config, s: Slot, now: Time, delay: nat)
    requires GaveUpLate(cfg, s)
    ensures GaveUpLate(cfg, Recovered(cfg, s, now, delay)) && GaveUpLate(cfg, Swept(s, now))
  {
  }

  lemma StepGivesUpLate(cfg: Config, w: World, step: Step, j: Id)
    requires j in w.jobs && SlotOk(cfg, w.jobs[j]) && SlotExplained(w.jobs[j]) && GaveUpLate(cfg, w.jobs[j])
    ensures GaveUpLate(cfg, StepOn(cfg, w, step, j))
  {
    match step
    case Enqueue(_, _, _, _, _) =>
    case At(i, e) => EventGivesUpLate(cfg, j, w.jobs[j], w.cases, e);
    case RecoverLeases(now, delay, _) => SweepsGiveUpLate(cfg, w.jobs[j], now, delay);
    case ExpireApprovals(now, _) => SweepsGiveUpLate(cfg, w.jobs[j], now, 0);
  }

  lemma {:induction false} HistoriesGiveUpLate(cfg: Config, w: World, history: seq<Step>, j: Id)
    requires Fresh(w) && j in Run(cfg, w, history).jobs
    ensures GaveUpLate(cfg, Run(cfg, w, history).jobs[j])
  {
    var n := |history| - 1;
    var before := Run(cfg, w, history[..n]);
    if j in before.jobs {
      HistoriesGiveUpLate(cfg, w, history[..n], j);
      StatusesAreExplained(cfg, w, history[..n], j);
      ReachableOk(cfg, w, history[..n]);
      StepGivesUpLate(cfg, before, history[n], j);
    }
  }

  lemma ExhaustedJobs(cfg: Config, s: Slot)
    requires GaveUpLate(cfg, s) && Bounded(cfg, s) && Explained(s.rows.job)
    ensures s.rows.job.error == Some(RetryExhausted) ==> s.rows.job.attempt == cfg.maxRetries + 1
  {
  }

  /** Over every history: a job fails for exhausted retries only after its last attempt, be it a worker or a lease
      sweep that says so. */
  lemma RetriesAreExhaustedFirst(cfg: Config, w: World, history: seq<Step>, j: Id)
    requires Fresh(w) && j in Run(cfg, w, history).jobs
    ensures var job := Run(cfg, w, history).jobs[j].rows.job;
      job.error == Some(RetryExhausted) ==> job.attempt == cfg.maxRetries + 1
  {
    ReachableOk(cfg, w, history);
    StatusesAreExplained(cfg, w, history, j);
    HistoriesGiveUpLate(cfg, w, history, j);
    ExhaustedJobs(cfg, Run(cfg, w, history).jobs[j]);
  }
}
