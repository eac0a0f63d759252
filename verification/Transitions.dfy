/** What each worker step and each lease sweep does to one job in any world, and when it does nothing
    (app/domain/job_repository.py, app/domain/approval_repository.py, app/workers/agent_worker.py). */
module Transitions {
  import opened Values
  import opened Profiles
  import opened Commands
  import opened JobResults
  import opened Durable
  import opened Machine
  import opened Fencing

  /** The job's slot after a step. */
  function Next(cfg: Config, w: World, step: Step, j: Id): Slot
    requires j in w.jobs
    ensures j in Apply(cfg, w, step).jobs && Next(cfg, w, step, j) == Apply(cfg, w, step).jobs[j]
  {
    StepOn(cfg, w, step, j)
  }

  /** A request that was only staged is cancelled, with its event; any other approval stays as it is. */
  predicate StagedCancelled(before: Option<Approval>, after: Option<Approval>) {
    if before.Some? && before.value.status == Staged then
      && after.Some?
      && after.value == before.value.(status := Cancelled, events := before.value.events + [WasCancelled])
    else after == before
  }

  /** The attempt that holds the job. */
  predicate Holds(s: Slot, k: nat) { s.rows.job.status == Running && s.rows.job.attempt == k }

  // ---------------------------------------------------------------- creation and claims

  /** An enqueued job waits from now on, with nothing else on record. */
  lemma EnqueuedJobsWait(cfg: Config, w: World, j: Id, tenant: Id, trace: Id, profile: Profile, now: Time)
    requires j !in w.jobs
    ensures var after := Apply(cfg, w, Enqueue(j, tenant, trace, profile, now));
      && (j in after.jobs <==> ValidProfile(profile))
      && (j in after.jobs ==>
            var s := after.jobs[j];
            && s.attempts == map[] && s.rows.approval.None? && s.rows.caseId.None?
            && s.rows.artifacts == map[] && s.rows.effects == []
            && s.rows.job.tenant == tenant && s.rows.job.trace == trace && s.rows.job.profile == profile
            && s.rows.job.status == Queued && s.rows.job.attempt == 0 && s.rows.job.availableAt == now
            && s.rows.job.lease.None? && s.rows.job.startedAt.None? && s.rows.job.finishedAt.None?
            && s.rows.job.marker.None? && s.rows.job.result.None? && s.rows.job.error.None?)
      && (forall i <- w.jobs :: i in after.jobs && after.jobs[i] == w.jobs[i]) && after.cases == w.cases
  {
  }

  /** A claim changes a job exactly when it waits, its time has come and its tenant is not excluded: one more attempt
      runs under a lease, the first start is kept, and the attempt remembers whether it found an effect. */
  lemma ClaimsExactly(cfg: Config, w: World, j: Id, now: Time, until: Time, excluded: set<Id>)
    requires j in w.jobs
    ensures var before, after := w.jobs[j], Next(cfg, w, At(j, Claim(now, until, excluded)), j);
      var job := before.rows.job;
      && (after != before <==> job.status == Queued && job.availableAt <= now && job.tenant !in excluded)
      && (after != before ==>
            && after.rows == before.rows.(job := after.rows.job)
            && after.rows.job == job.(status := Running, attempt := job.attempt + 1, lease := Some(until),
                                      startedAt := Some(if job.startedAt.None? then now else job.startedAt.value))
            && after.attempts == before.attempts[job.attempt + 1 := Attempt(job.marker.Some?, Building, Executing)])
  {
  }

  /** A renewal moves the lease of the attempt that holds the job, and does nothing for any other. */
  lemma RenewalsExactly(cfg: Config, w: World, j: Id, k: nat, until: Time)
    requires j in w.jobs
    ensures var before, after := w.jobs[j], Next(cfg, w, At(j, Renew(k, until)), j);
      after == if k in before.attempts && Holds(before, k)
               then before.(rows := before.rows.(job := before.rows.job.(lease := Some(until)))) else before
  {
  }

  // ---------------------------------------------------------------- lost leases

  /** Lease recovery touches a job exactly when it could lock it and its lease has run out. Without an effect the job is
      requeued after the delay while it has attempts left, its staged request kept, and fails for good once they are
      used up; with an effect it fails as uncertain. Both failures cancel a staged request. */
  lemma RecoveriesExactly(cfg: Config, w: World, now: Time, delay: nat, unlocked: set<Id>, j: Id)
    requires j in w.jobs
    ensures var before, after := w.jobs[j], Next(cfg, w, RecoverLeases(now, delay, unlocked), j);
      var r, q := before.rows, after.rows;
      var lapsed := j in unlocked && r.job.status == Running && r.job.lease.Some? && r.job.lease.value <= now;
      && (after != before <==> lapsed)
      && after == before.(rows := r.(job := q.job, approval := q.approval))
      && (lapsed ==>
            && q.job == r.job.(status := q.job.status, availableAt := q.job.availableAt, lease := None,
                               finishedAt := q.job.finishedAt, error := q.job.error)
            && (q.job.status == Queued <==> r.job.marker.None? && r.job.attempt <= cfg.maxRetries)
            && (q.job.status == Failed <==> r.job.marker.None? && r.job.attempt > cfg.maxRetries)
            && (q.job.status == FailedUncertain <==> r.job.marker.Some?)
            && (if q.job.status == Queued then
                  && q.job.availableAt == now + delay && q.job.error == Some(LeaseExpired)
                  && q.job.finishedAt == r.job.finishedAt && q.approval == r.approval
                else
                  && q.job.availableAt == r.job.availableAt && q.job.finishedAt == Some(now)
                  && q.job.error
                     == Some(if q.job.status == Failed then RetryExhausted else LeaseExpiredAfterSideEffect)
                  && StagedCancelled(r.approval, q.approval)))
  {
  }

  // ---------------------------------------------------------------- the agent thread

  /** A thread builds its runtime once, and asks once, for a command its profile authorizes. */
  lemma ThreadsMoveExactly(cfg: Config, w: World, j: Id, e: Event)
    requires j in w.jobs && (e.Build? || e.Ask?)
    ensures var before, after := w.jobs[j], Next(cfg, w, At(j, e), j);
      var thread := if e.Build? then Working else Asking(e.command, e.reason);
      after == if && e.k in before.attempts
                  && (if e.Build? then before.attempts[e.k].thread == Building
                      else && before.attempts[e.k].thread == Working
                           && Authorized(cfg.rules, before.rows.job.profile, e.command))
               then before.(attempts := before.attempts[e.k := before.attempts[e.k].(thread := thread)]) else before
  {
  }

  /** The staged request holds what the attempt asked for, under a fresh deadline. */
  predicate HoldsRequest(a: Approval, job: Job, t: Thread, deadline: Time)
    requires t.Asking?
  {
    && a.status == Staged && a.tenant == job.tenant && a.profile == job.profile && a.expiresAt == deadline
    && a.command == t.command && a.action == CommandAction(t.command) && a.policyReason == t.reason
    && a.decidedAt.None? && a.decidedBy.None? && a.executedAt.None? && a.caseId.None?
  }

  /** An earlier attempt's request is kept as a row, and replaced, with an event, only where it differs. */
  predicate Reuses(earlier: Approval, a: Approval) {
    && a == earlier.(action := a.action, command := a.command, policyReason := a.policyReason, profile := a.profile,
                  expiresAt := a.expiresAt, events := a.events)
    && a.events
       == if a.action == earlier.action && a.command == earlier.command && a.policyReason == earlier.policyReason
             && a.profile == earlier.profile then earlier.events else earlier.events + [WasReplaced]
  }

  /** A request is stored exactly when its attempt asks, still holds the job, and no approval of it was published or
      cancelled: in a new row, or in the row an earlier attempt left staged. */
  lemma RequestsExactly(cfg: Config, w: World, j: Id, k: nat, id: Id, now: Time)
    requires j in w.jobs
    ensures var before, after := w.jobs[j], Next(cfg, w, At(j, Stage(k, id, now)), j);
      var r := before.rows;
      var stored := && k in before.attempts && before.attempts[k].thread.Asking? && Holds(before, k)
                    && (r.approval.Some? ==> r.approval.value.status == Staged);
      && (!stored ==> after == before)
      && (stored ==>
            var t := before.attempts[k].thread;
            && after.rows == r.(approval := after.rows.approval) && after.rows.approval.Some?
            && after.attempts == before.attempts[k := before.attempts[k].(thread := Granted(t.command))]
            && var a := after.rows.approval.value;
            && (r.approval.None? ==>
                  a.id == id && HoldsRequest(a, r.job, t, now + cfg.approvalTimeout) && a.events == [WasRequested])
            && (r.approval.Some? ==>
                  && Reuses(r.approval.value, a) && a.command == t.command && a.action == CommandAction(t.command)
                  && a.policyReason == t.reason && a.profile == r.job.profile
                  && a.expiresAt == now + cfg.approvalTimeout))
  {
  }

  // ---------------------------------------------------------------- the worker's end

  /** The attempt's worker looks for an effect before it decides what a failure means. */
  predicate LooksForEffect(o: RunOutcome) {
    match o
    case AgentFailure(_) => true
    case Retryable(_) => true
    case ProviderRejected => true
    case Unexpected => true
    case _ => false
  }

  /** What an attempt can report: a refused start only before its runtime was built, and a finished run only with a
      path, as parked exactly when its request was stored. */
  predicate Reports(a: Attempt, o: RunOutcome) {
    match o
    case PreflightUnreadable(_) => a.thread == Building
    case PreflightFailed(_) => a.thread == Building
    case Complete(emptyPath, parks, _) => !emptyPath && (if parks then a.thread.Granted? else a.thread == Working)
    case _ => true
  }

  /** What an attempt's outcome leads to: nothing without the lease it needs to look for an effect, else the resolution
      of that outcome in the light of the effect its claim or this look found. No row changes yet. */
  lemma FinishesExactly(cfg: Config, w: World, j: Id, k: nat, o: RunOutcome)
    requires j in w.jobs
    ensures var before, after := w.jobs[j], Next(cfg, w, At(j, Finish(k, o)), j);
      var accepted := k in before.attempts && before.attempts[k].control == Executing && Reports(before.attempts[k], o);
      && (!accepted ==> after == before)
      && (accepted ==>
            var a := before.attempts[k];
            && k in after.attempts && after.rows == before.rows
            && after.attempts == before.attempts[k := after.attempts[k]]
            && after.attempts[k].markerSeen == a.markerSeen
            && after.attempts[k].thread
               == (if o.PreflightUnreadable? || o.PreflightFailed? then NoRuntime else a.thread)
            && var c := after.attempts[k].control;
            && (c == Finished <==> o.LeaseLost? || (LooksForEffect(o) && !a.markerSeen && !Holds(before, k)))
            && (c != Finished ==>
                  c == Resolved(IntentFor(o, LooksForEffect(o) && (a.markerSeen || before.rows.job.marker.Some?), k,
                                          cfg.maxRetries))))
  {
  }

  /** What a worker's transaction leaves when it still holds the job. */
  predicate Carried(r: Rows, intent: Intent, now: Time, availableAt: Time, q: Rows) {
    match intent
    case RetryIt(code) =>
      q == r.(job := r.job.(status := Queued, error := Some(code), availableAt := availableAt, lease := None))
    case FailIt(code) => Ended(r, Failed, Some(code), None, now, q)
    case UncertainIt(code) => Ended(r, FailedUncertain, Some(code), None, now, q)
    case SucceedIt(result) => Ended(r, Succeeded, None, Some(result), now, q)
    case ParkIt(result) =>
      if r.approval.Some? && r.approval.value.status == Staged then
        && q == r.(job := q.job, approval := Some(r.approval.value.(status := Pending)))
        && q.job == r.job.(status := AwaitingApproval, lease := None, finishedAt := None, result := Some(result),
                           error := None)
      else q == r
  }

  predicate Ended(r: Rows, status: JobStatus, error: Option<ErrorCode>, result: Option<Result>, now: Time, q: Rows) {
    && q == r.(job := q.job, approval := q.approval) && StagedCancelled(r.approval, q.approval)
    && q.job == r.job.(status := status, lease := None, finishedAt := Some(now), result := result, error := error)
  }

  /** A resolved worker commits once, and changes the job only while it holds it: retried jobs keep their staged
      request, ended ones lose it, and a parked one has it published in the same transaction. */
  lemma CommitsExactly(cfg: Config, w: World, j: Id, k: nat, now: Time, availableAt: Time)
    requires j in w.jobs
    ensures var before, after := w.jobs[j], Next(cfg, w, At(j, Commit(k, now, availableAt)), j);
      && (k !in before.attempts || !before.attempts[k].control.Resolved? ==> after == before)
      && (k in before.attempts && before.attempts[k].control.Resolved? ==>
            && after.attempts == before.attempts[k := before.attempts[k].(control := Finished)]
            && (if Holds(before, k) then
                  Carried(before.rows, before.attempts[k].control.intent, now, availableAt, after.rows)
                else after.rows == before.rows))
  {
    var s := w.jobs[j];
    if k in s.attempts && s.attempts[k].control.Resolved? {
      CommittedRows(s.rows, k, s.attempts[k].control.intent, now, availableAt);
    }
  }

  lemma CommittedRows(r: Rows, k: nat, intent: Intent, now: Time, availableAt: Time)
    ensures var after := CommitRows(r, r.job.tenant, k, intent, now, availableAt);
      var q := if after.Some? then after.value else r;
      if r.job.status == Running && r.job.attempt == k then Carried(r, intent, now, availableAt, q) else q == r
  {
  }
}
