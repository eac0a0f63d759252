/** Business effects over any mix of attempts, stale workers, insert races and approved commands. */
module Effects {
  import opened Values
  import opened Profiles
  import opened Commands
  import opened JobResults
  import opened Durable
  import opened Machine
  import opened Invariants
  import opened Fencing
  import opened Reachability
  import Decisions

  // ---------------------------------------------------------------- at most one

  /** However many attempts, stale workers and approvals there were: one agent-created case per job, one
      artifact per job and kind, and a marker exactly when something was committed. */
  lemma EffectsAreUnique(cfg: Config, w: World, history: seq<Step>, j: Id)
    requires Fresh(w) && j in Run(cfg, w, history).jobs
    ensures var at := Run(cfg, w, history);
      var r := at.jobs[j].rows;
      && |CreatedCases(r.effects)| <= 1
      && (forall kind :: |CreatedArtifacts(r.effects, kind)| <= 1)
      && (forall c <- at.cases, d <- at.cases :: at.cases[c].origin == at.cases[d].origin == Some(j) ==> c == d)
      && (forall c :: c in at.cases && at.cases[c].origin == Some(j) <==> r.caseId == Some(c))
      && (r.job.marker.Some? <==> r.effects != [])
  {
    ReachableOk(cfg, w, history);
  }

  /** Committed effects are never lost or replaced, and the marker is never cleared. */
  predicate Grows(before: Rows, after: Rows) {
    && before.effects <= after.effects
    && (before.caseId.Some? ==> after.caseId == before.caseId)
    && (forall kind <- before.artifacts :: kind in after.artifacts && after.artifacts[kind] == before.artifacts[kind])
    && (before.job.marker.Some? ==> after.job.marker.Some?)
  }

  lemma SlotEventGrows(cfg: Config, s: Slot, e: Event)
    ensures Grows(s.rows, SlotEvent(cfg, s, e).rows)
  {
    if e.Commit? && e.k in s.attempts && s.attempts[e.k].control.Resolved? {
      var after := CommitRows(s.rows, s.rows.job.tenant, e.k, s.attempts[e.k].control.intent, e.now, e.availableAt);
      assert after.Some? ==> after.value.effects == s.rows.effects && after.value.job.marker == s.rows.job.marker;
    }
  }

  lemma ToolGrows(s: Store, job: Id, tenant: Id, k: nat, tx: ToolTx, now: Time)
    requires RunTool(s, job, tenant, k, tx, now).Some?
    ensures Grows(s.rows, RunTool(s, job, tenant, k, tx, now).value.rows)
  {
  }

  lemma HandleGrows(s: Store, job: Id, a: Approval, l: Lookups)
    requires Handle(s, job, a, l).Some?
    ensures Grows(s.rows, Handle(s, job, a, l).value.0.rows)
  {
  }

  lemma DecideGrows(rules: Rules, s: Store, job: Id, tenant: Id, actor: Id, approve: bool, now: Time, l: Lookups)
    ensures Grows(s.rows, Decide(rules, s, job, tenant, actor, approve, now, l).store.rows)
  {
    if s.rows.approval.None? || s.rows.approval.value.status != Pending {
      NothingPending(rules, s, job, tenant, actor, approve, now, l);
    } else if s.rows.approval.value.expiresAt <= now {
      DecideLate(rules, s, job, tenant, actor, approve, now, l);
    } else if !approve {
      DecideReject(rules, s, job, tenant, actor, now, l);
    } else {
      DecideApprove(rules, s, job, tenant, actor, now, l);
      if Handle(s, job, s.rows.approval.value, l).Some? {
        HandleGrows(s, job, s.rows.approval.value, l);
      }
    }
  }

  lemma EventGrows(cfg: Config, job: Id, s: Slot, cases: Cases, e: Event)
    ensures Grows(s.rows, Happen(cfg, job, s, cases, e).0.rows)
  {
    match e
    case Tool(k, tx, now) =>
      if RunTool(Store(s.rows, cases), job, s.rows.job.tenant, k, tx, now).Some? {
        ToolGrows(Store(s.rows, cases), job, s.rows.job.tenant, k, tx, now);
      }
    case Verdict(tenant, actor, approve, now, l) =>
      DecideGrows(cfg.rules, Store(s.rows, cases), job, tenant, actor, approve, now, l);
    case _ => SlotEventGrows(cfg, s, e);
  }

  lemma StepGrows(cfg: Config, w: World, step: Step, j: Id)
    requires j in w.jobs
    ensures Grows(w.jobs[j].rows, StepOn(cfg, w, step, j).rows)
  {
    match step
    case At(_, e) => EventGrows(cfg, j, w.jobs[j], w.cases, e);
    case _ =>
  }

  lemma {:induction false} EffectsOnlyGrow(cfg: Config, w: World, more: seq<Step>, j: Id)
    requires j in w.jobs
    ensures j in Run(cfg, w, more).jobs && Grows(w.jobs[j].rows, Run(cfg, w, more).jobs[j].rows)
  {
    if more != [] {
      var n := |more| - 1;
      EffectsOnlyGrow(cfg, w, more[..n], j);
      StepGrows(cfg, Run(cfg, w, more[..n]), more[n], j);
    }
  }

  /** An approved create_case always finds the case the job already made: the "missing" raise is unreachable. */
  lemma ExistingCaseIsThere(cfg: Config, w: World, history: seq<Step>, j: Id, l: Lookups)
    requires Fresh(w) && j in Run(cfg, w, history).jobs
    requires var r := Run(cfg, w, history).jobs[j].rows;
      r.approval.Some? && r.approval.value.command.args.CreateCaseArgs? && r.caseId.Some?
    ensures var at := Run(cfg, w, history);
      var r := at.jobs[j].rows;
      Handle(Store(r, at.cases), j, r.approval.value, l)
      == Some((Store(r, at.cases), r.approval.value.(caseId := r.caseId)))
  {
    ReachableOk(cfg, w, history);
  }

  // ---------------------------------------------------------------- marker and status

  /** A requeued or plainly failed job has committed nothing. */
  predicate Clean(job: Job) {
    && (job.status == Queued ==> job.marker.None?)
    && (job.status == Failed && job.error != Some(ApprovalTimedOut) ==> job.marker.None?)
  }

  predicate GivesUp(i: Intent) { i.RetryIt? || i.FailIt? }

  /** The branch that can break it: a retry or failure, decided on before an effect, commits after it. */
  predicate LateCommit(w: World, step: Step) {
    && step.At? && step.event.Commit? && step.job in w.jobs
    && var s, k := w.jobs[step.job], step.event.k;
       && k in s.attempts && s.attempts[k].control.Resolved? && GivesUp(s.attempts[k].control.intent)
       && Owned(s.rows.job, s.rows.job.tenant, k) && s.rows.job.marker.Some?
  }

  ghost predicate AllClean(w: World) { forall j <- w.jobs :: Clean(w.jobs[j].rows.job) }

  lemma CommitUnfolds(cfg: Config, job: Id, s: Slot, cases: Cases, k: nat, now: Time, availableAt: Time)
    requires k in s.attempts && s.attempts[k].control.Resolved?
    ensures var after := CommitRows(s.rows, s.rows.job.tenant, k, s.attempts[k].control.intent, now, availableAt);
      Happen(cfg, job, s, cases, Commit(k, now, availableAt)).0.rows == if after.Some? then after.value else s.rows
  {
  }

  lemma LateRowsAreSoiled(r: Rows, tenant: Id, k: nat, intent: Intent, now: Time, availableAt: Time)
    requires Owned(r.job, tenant, k) && GivesUp(intent) && r.job.marker.Some?
    requires intent.FailIt? ==> intent.code != ApprovalTimedOut
    ensures CommitRows(r, tenant, k, intent, now, availableAt).Some?
    ensures !Clean(CommitRows(r, tenant, k, intent, now, availableAt).value.job)
  {
  }

  lemma LateCommitSoils(cfg: Config, w: World, step: Step)
    requires WorldOk(cfg, w) && LateCommit(w, step)
    ensures !Clean(StepOn(cfg, w, step, step.job).rows.job)
  {
    var s, e := w.jobs[step.job], step.event;
    assert TokenSound(cfg, s.rows.job.profile, s.attempts[e.k]);
    LateRowsAreSoiled(s.rows, s.rows.job.tenant, e.k, s.attempts[e.k].control.intent, e.now, e.availableAt);
    CommitUnfolds(cfg, step.job, s, w.cases, e.k, e.now, e.availableAt);
  }

  lemma CommittedRowsClean(r: Rows, tenant: Id, k: nat, intent: Intent, now: Time, availableAt: Time)
    requires CommitRows(r, tenant, k, intent, now, availableAt).Some?
    requires GivesUp(intent) ==> r.job.marker.None?
    ensures Clean(CommitRows(r, tenant, k, intent, now, availableAt).value.job)
  {
  }

  lemma CommitStaysClean(cfg: Config, w: World, step: Step)
    requires !LateCommit(w, step) && step.At? && step.event.Commit? && step.job in w.jobs
    requires Clean(w.jobs[step.job].rows.job)
    ensures Clean(StepOn(cfg, w, step, step.job).rows.job)
  {
    var s, e := w.jobs[step.job], step.event;
    if e.k in s.attempts && s.attempts[e.k].control.Resolved? {
      CommitUnfolds(cfg, step.job, s, w.cases, e.k, e.now, e.availableAt);
      var intent := s.attempts[e.k].control.intent;
      if CommitRows(s.rows, s.rows.job.tenant, e.k, intent, e.now, e.availableAt).Some? {
        CommitMoves(s.rows, s.rows.job.tenant, e.k, intent, e.now, e.availableAt);
        CommittedRowsClean(s.rows, s.rows.job.tenant, e.k, intent, e.now, e.availableAt);
      }
    }
  }

  lemma FinalizedIsClean(before: Job, after: Job)
    requires Finalizes(before, after) && Clean(before)
    requires before.status != AwaitingApproval ==> after == before
    ensures Clean(after)
  {
  }

  lemma VerdictStaysClean(cfg: Config, job: Id, s: Slot, cases: Cases, e: Event)
    requires SlotOk(cfg, s) && e.Verdict? && Clean(s.rows.job)
    ensures Clean(Happen(cfg, job, s, cases, e).0.rows.job)
  {
    VerdictFinalizes(cfg, job, s, cases, e);
    if s.rows.job.status != AwaitingApproval {
      NothingPending(cfg.rules, Store(s.rows, cases), job, e.tenant, e.actor, e.approve, e.now, e.lookups);
    }
    FinalizedIsClean(s.rows.job, Happen(cfg, job, s, cases, e).0.rows.job);
  }

  lemma EventStaysClean(cfg: Config, job: Id, s: Slot, cases: Cases, e: Event)
    requires SlotOk(cfg, s) && !e.Commit? && Clean(s.rows.job)
    ensures Clean(Happen(cfg, job, s, cases, e).0.rows.job)
  {
    if e.Verdict? {
      VerdictStaysClean(cfg, job, s, cases, e);
    } else if e.Tool? {
      if RunTool(Store(s.rows, cases), job, s.rows.job.tenant, e.k, e.tx, e.now).Some? {
        ToolRows(Store(s.rows, cases), job, s.rows.job.tenant, e.k, e.tx, e.now);
      }
    } else {
      SlotEventStaysClean(cfg, s, e);
    }
  }

  lemma SlotEventStaysClean(cfg: Config, s: Slot, e: Event)
    requires !e.Commit? && Clean(s.rows.job)
    ensures Clean(SlotEvent(cfg, s, e).rows.job)
  {
  }

  lemma SweepsStayClean(cfg: Config, s: Slot, now: Time, delay: nat)
    requires Clean(s.rows.job)
    ensures Clean(Recovered(cfg, s, now, delay).rows.job) && Clean(Swept(s, now).rows.job)
  {
  }

  lemma StaysClean(cfg: Config, w: World, step: Step, j: Id)
    requires WorldOk(cfg, w) && j in w.jobs && !LateCommit(w, step) && Clean(w.jobs[j].rows.job)
    ensures Clean(StepOn(cfg, w, step, j).rows.job)
  {
    match step
    case Enqueue(_, _, _, _, _) =>
    case At(i, e) =>
      if i == j && e.Commit? {
        CommitStaysClean(cfg, w, step);
      } else if i == j {
        EventStaysClean(cfg, j, w.jobs[j], w.cases, e);
      }
    case RecoverLeases(now, delay, _) => SweepsStayClean(cfg, w.jobs[j], now, delay);
    case ExpireApprovals(now, _) => SweepsStayClean(cfg, w.jobs[j], now, 0);
  }

  /** A step soils a clean world exactly when it is a late commit. */
  lemma CleanExactly(cfg: Config, w: World, step: Step)
    requires WorldOk(cfg, w) && AllClean(w)
    ensures AllClean(Apply(cfg, w, step)) <==> !LateCommit(w, step)
  {
    if LateCommit(w, step) {
      LateCommitSoils(cfg, w, step);
    } else {
      forall j <- Apply(cfg, w, step).jobs
        ensures Clean(Apply(cfg, w, step).jobs[j].rows.job)
      {
        if j in w.jobs {
          StaysClean(cfg, w, step, j);
          assert StepOn(cfg, w, step, j) == Apply(cfg, w, step).jobs[j];
        }
      }
    }
  }

  ghost predicate AlwaysClean(cfg: Config, w: World, history: seq<Step>) {
    && AllClean(Run(cfg, w, history))
    && (history != [] ==> AlwaysClean(cfg, w, history[..|history| - 1]))
  }

  predicate NeverLate(cfg: Config, w: World, history: seq<Step>) {
    history != [] ==>
      && !LateCommit(Run(cfg, w, history[..|history| - 1]), history[|history| - 1])
      && NeverLate(cfg, w, history[..|history| - 1])
  }

  /** Over whole histories: no requeued or plainly failed job ever shows an effect, exactly when no retry or
      failure commits after an effect that its marker check did not see. */
  lemma {:induction false} NeverRequeuedAfterAnEffect(cfg: Config, w: World, history: seq<Step>)
    requires Fresh(w)
    ensures AlwaysClean(cfg, w, history) <==> NeverLate(cfg, w, history)
  {
    if history != [] {
      var n := |history| - 1;
      NeverRequeuedAfterAnEffect(cfg, w, history[..n]);
      ReachableOk(cfg, w, history[..n]);
      if AlwaysClean(cfg, w, history[..n]) {
        CleanExactly(cfg, Run(cfg, w, history[..n]), history[n]);
      }
    }
  }
}
