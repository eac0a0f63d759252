/** The invariant holds in every reachable world, and what follows from it. */
module Reachability {
  import opened Values
  import opened Profiles
  import opened Commands
  import opened JobResults
  import opened Durable
  import opened Machine
  import opened Invariants
  import opened Fencing

  lemma HappenKeeps(cfg: Config, job: Id, s: Slot, cases: Cases, e: Event)
    requires SlotOk(cfg, s)
    ensures SlotOk(cfg, Happen(cfg, job, s, cases, e).0)
  {
    match e
    case Claim(now, until, excluded) => ClaimKeeps(cfg, s, now, until, excluded);
    case Renew(k, until) => RenewKeeps(cfg, s, k, until);
    case Build(_) => ThreadKeeps(cfg, s, e);
    case Tool(k, tx, now) => ToolKeeps(cfg, job, s, cases, k, tx, now);
    case Ask(_, _, _) => ThreadKeeps(cfg, s, e);
    case Stage(k, id, now) => StageKeeps(cfg, s, k, id, now);
    case Finish(k, o) => FinishKeeps(cfg, s, k, o);
    case Commit(k, now, availableAt) => CommitKeeps(cfg, s, k, now, availableAt);
    case Verdict(_, _, _, _, _) => VerdictKeeps(cfg, job, s, cases, e);
  }

  // ---------------------------------------------------------------- cases

  ghost predicate CaseInserted(job: Id, before: Store, after: Store) {
    && before.rows.caseId.None? && after.rows.caseId.Some? && after.rows.caseId.value !in before.cases
    && var id := after.rows.caseId.value;
    && id in after.cases && after.cases == before.cases[id := after.cases[id]]
    && after.cases[id].origin == Some(job) && after.cases[id].tenant == before.rows.job.tenant
  }

  ghost predicate CasesEdited(before: Store, after: Store) {
    && after.rows.caseId == before.rows.caseId
    && after.cases.Keys == before.cases.Keys
    && (forall c <- before.cases ::
          after.cases[c].origin == before.cases[c].origin && after.cases[c].tenant == before.cases[c].tenant)
  }

  /** The only ways one transaction of a job may touch the cases. */
  ghost predicate CasesMove(job: Id, before: Store, after: Store) {
    after.rows.job.tenant == before.rows.job.tenant && (CaseInserted(job, before, after) || CasesEdited(before, after))
  }

  lemma ToolMovesCases(s: Store, job: Id, tenant: Id, k: nat, tx: ToolTx, now: Time)
    requires RunTool(s, job, tenant, k, tx, now).Some?
    ensures CasesMove(job, s, RunTool(s, job, tenant, k, tx, now).value)
  {
  }

  lemma HandleMovesCases(s: Store, job: Id, a: Approval, l: Lookups)
    requires Handle(s, job, a, l).Some?
    ensures CasesMove(job, s, Handle(s, job, a, l).value.0)
  {
  }

  lemma DecideMovesCases(
      rules: Rules, s: Store, job: Id, tenant: Id, actor: Id, approve: bool, now: Time, l: Lookups)
    ensures CasesMove(job, s, Decide(rules, s, job, tenant, actor, approve, now, l).store)
  {
    if s.rows.approval.None? || s.rows.approval.value.status != Pending {
      NothingPending(rules, s, job, tenant, actor, approve, now, l);
    } else if s.rows.approval.value.expiresAt <= now {
      DecideLate(rules, s, job, tenant, actor, approve, now, l);
    } else if !approve {
      DecideReject(rules, s, job, tenant, actor, now, l);
    } else {
      DecideApprove(rules, s, job, tenant, actor, now, l);
      if Handle(s, job, s.rows.approval.value, l).Some? {
        HandleMovesCases(s, job, s.rows.approval.value, l);
      }
    }
  }

  lemma SlotEventMovesNoCase(cfg: Config, s: Slot, e: Event)
    ensures SlotEvent(cfg, s, e).rows.caseId == s.rows.caseId
    ensures SlotEvent(cfg, s, e).rows.job.tenant == s.rows.job.tenant
  {
  }

  lemma HappenMovesCases(cfg: Config, job: Id, s: Slot, cases: Cases, e: Event)
    ensures var (after, afterCases) := Happen(cfg, job, s, cases, e);
      CasesMove(job, Store(s.rows, cases), Store(after.rows, afterCases))
  {
    match e
    case Tool(k, tx, now) =>
      if RunTool(Store(s.rows, cases), job, s.rows.job.tenant, k, tx, now).Some? {
        ToolMovesCases(Store(s.rows, cases), job, s.rows.job.tenant, k, tx, now);
      }
    case Verdict(tenant, actor, approve, now, l) =>
      DecideMovesCases(cfg.rules, Store(s.rows, cases), job, tenant, actor, approve, now, l);
    case _ => SlotEventMovesNoCase(cfg, s, e);
  }

  lemma CasesStayMatched(w: World, job: Id, slot: Slot, cases: Cases)
    requires CasesMatch(w) && job in w.jobs
    requires CasesMove(job, Store(w.jobs[job].rows, w.cases), Store(slot.rows, cases))
    ensures CasesMatch(World(w.jobs[job := slot], cases))
  {
  }

  // ---------------------------------------------------------------- every step, every history

  lemma NewSlotIsOk(cfg: Config, tenant: Id, trace: Id, profile: Profile, now: Time)
    requires ValidProfile(profile)
    ensures SlotOk(cfg, Slot(Rows(NewJob(tenant, trace, profile, now), None, None, map[], []), map[]))
  {
  }

  lemma EnqueueKeeps(cfg: Config, w: World, j: Id, tenant: Id, trace: Id, profile: Profile, now: Time)
    requires WorldOk(cfg, w)
    ensures WorldOk(cfg, Apply(cfg, w, Enqueue(j, tenant, trace, profile, now)))
  {
    if j !in w.jobs && ValidProfile(profile) {
      NewSlotIsOk(cfg, tenant, trace, profile, now);
    }
  }

  lemma AtKeeps(cfg: Config, w: World, j: Id, e: Event)
    requires WorldOk(cfg, w) && j in w.jobs
    ensures WorldOk(cfg, Apply(cfg, w, At(j, e)))
  {
    HappenKeeps(cfg, j, w.jobs[j], w.cases, e);
    HappenMovesCases(cfg, j, w.jobs[j], w.cases, e);
    var (slot, cases) := Happen(cfg, j, w.jobs[j], w.cases, e);
    CasesStayMatched(w, j, slot, cases);
  }

  ghost predicate RowKept(cfg: Config, before: Slot, after: Slot) {
    SlotOk(cfg, after) && after.rows.caseId == before.rows.caseId && after.rows.job.tenant == before.rows.job.tenant
  }

  /** A sweep that keeps each row's case and tenant keeps the world. */
  lemma SweepKeepsWorld(cfg: Config, w: World, jobs: map<Id, Slot>)
    requires WorldOk(cfg, w) && jobs.Keys == w.jobs.Keys
    requires forall j <- jobs :: RowKept(cfg, w.jobs[j], jobs[j])
    ensures WorldOk(cfg, World(jobs, w.cases))
  {
  }

  lemma SweptRow(cfg: Config, s: Slot, now: Time)
    requires SlotOk(cfg, s)
    ensures RowKept(cfg, s, Swept(s, now))
  {
    SweepKeeps(cfg, s, now);
  }

  lemma RecoveredRow(cfg: Config, s: Slot, now: Time, delay: nat)
    requires SlotOk(cfg, s)
    ensures RowKept(cfg, s, Recovered(cfg, s, now, delay))
  {
    RecoverKeeps(cfg, s, now, delay);
  }

  lemma UntouchedRow(cfg: Config, s: Slot)
    requires SlotOk(cfg, s)
    ensures RowKept(cfg, s, s)
  {
  }

  lemma RecoveredAt(cfg: Config, w: World, now: Time, delay: nat, unlocked: set<Id>, j: Id)
    requires j in w.jobs && SlotOk(cfg, w.jobs[j])
    ensures RowKept(cfg, w.jobs[j], StepOn(cfg, w, RecoverLeases(now, delay, unlocked), j))
  {
    if j in unlocked {
      RecoveredRow(cfg, w.jobs[j], now, delay);
    } else {
      UntouchedRow(cfg, w.jobs[j]);
    }
  }

  lemma ExpiredAt(cfg: Config, w: World, now: Time, unlocked: set<Id>, j: Id)
    requires j in w.jobs && SlotOk(cfg, w.jobs[j])
    ensures RowKept(cfg, w.jobs[j], StepOn(cfg, w, ExpireApprovals(now, unlocked), j))
  {
    if j in unlocked && !SweepConflicts(w, now, unlocked) {
      SweptRow(cfg, w.jobs[j], now);
    } else {
      UntouchedRow(cfg, w.jobs[j]);
    }
  }

  lemma SweptWorld(cfg: Config, w: World, step: Step)
    requires step.RecoverLeases? || step.ExpireApprovals?
    ensures Apply(cfg, w, step) == World(Apply(cfg, w, step).jobs, w.cases)
    ensures Apply(cfg, w, step).jobs.Keys == w.jobs.Keys
  {
  }

  lemma SweptAt(cfg: Config, w: World, step: Step, j: Id)
    requires WorldOk(cfg, w) && j in w.jobs && (step.RecoverLeases? || step.ExpireApprovals?)
    ensures RowKept(cfg, w.jobs[j], StepOn(cfg, w, step, j))
  {
    if step.RecoverLeases? {
      RecoveredAt(cfg, w, step.now, step.delay, step.unlocked, j);
    } else {
      ExpiredAt(cfg, w, step.now, step.unlocked, j);
    }
  }

  lemma SweepKeepsAll(cfg: Config, w: World, step: Step)
    requires WorldOk(cfg, w) && (step.RecoverLeases? || step.ExpireApprovals?)
    ensures WorldOk(cfg, Apply(cfg, w, step))
  {
    var after := Apply(cfg, w, step);
    SweptWorld(cfg, w, step);
    forall j <- after.jobs
      ensures RowKept(cfg, w.jobs[j], after.jobs[j])
    {
      SweptAt(cfg, w, step, j);
      assert after.jobs[j] == StepOn(cfg, w, step, j);
    }
    SweepKeepsWorld(cfg, w, after.jobs);
  }

  lemma ApplyKeeps(cfg: Config, w: World, step: Step)
    requires WorldOk(cfg, w)
    ensures WorldOk(cfg, Apply(cfg, w, step))
  {
    match step
    case Enqueue(j, tenant, trace, profile, now) => EnqueueKeeps(cfg, w, j, tenant, trace, profile, now);
    case At(j, e) =>
      if j in w.jobs {
        AtKeeps(cfg, w, j, e);
      }
    case RecoverLeases(_, _, _) => SweepKeepsAll(cfg, w, step);
    case ExpireApprovals(_, _) => SweepKeepsAll(cfg, w, step);
  }

  /** A database before the first job: cases may exist, none made by a job. */
  ghost predicate Fresh(w: World) {
    w.jobs == map[] && forall c <- w.cases :: w.cases[c].origin.None?
  }

  lemma {:induction false} ReachableOk(cfg: Config, w: World, steps: seq<Step>)
    requires Fresh(w)
    ensures WorldOk(cfg, Run(cfg, w, steps))
  {
    if steps != [] {
      ReachableOk(cfg, w, steps[..|steps| - 1]);
      ApplyKeeps(cfg, Run(cfg, w, steps[..|steps| - 1]), steps[|steps| - 1]);
    }
  }

  lemma {:induction false} RunsKeep(cfg: Config, w: World, more: seq<Step>)
    requires WorldOk(cfg, w)
    ensures WorldOk(cfg, Run(cfg, w, more))
  {
    if more != [] {
      RunsKeep(cfg, w, more[..|more| - 1]);
      ApplyKeeps(cfg, Run(cfg, w, more[..|more| - 1]), more[|more| - 1]);
    }
  }

  /** With one fixed retry limit, attempts are bounded and no history moves a job more often than its budget. */
  lemma JobsTerminate(cfg: Config, w: World, history: seq<Step>, more: seq<Step>, j: Id)
    requires Fresh(w) && j in Run(cfg, w, history).jobs
    ensures var job := Run(cfg, w, history).jobs[j].rows.job;
      && job.attempt <= cfg.maxRetries + 1
      && (job.status == Queued ==> job.attempt <= cfg.maxRetries)
      && Transitions(cfg, Run(cfg, w, history), more, j)
         <= 3 * (cfg.maxRetries + 1 - job.attempt) + Rank(job.status)
         <= 3 * cfg.maxRetries + 4
  {
    ReachableOk(cfg, w, history);
    var at := Run(cfg, w, history);
    RunsKeep(cfg, at, more);
    TransitionsAreBounded(cfg, at, more, j);
    assert SlotOk(cfg, Run(cfg, at, more).jobs[j]) && SlotOk(cfg, at.jobs[j]);
  }
}
