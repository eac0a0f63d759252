/** Stale workers, terminal jobs and published commands, over every continuation of every history. */
module Fencing {
  import opened Values
  import opened Profiles
  import opened Commands
  import opened JobResults
  import opened Durable
  import opened Machine
  import opened Invariants

  // ---------------------------------------------------------------- one row, one step

  /** What the step of some history does to one job. */
  function StepOn(cfg: Config, w: World, step: Step, j: Id): Slot
    requires j in w.jobs
    ensures j in Apply(cfg, w, step).jobs && StepOn(cfg, w, step, j) == Apply(cfg, w, step).jobs[j]
  {
    match step
    case Enqueue(_, _, _, _, _) => w.jobs[j]
    case At(i, e) => if i == j then Happen(cfg, j, w.jobs[j], w.cases, e).0 else w.jobs[j]
    case RecoverLeases(now, delay, unlocked) =>
      if j in unlocked then Recovered(cfg, w.jobs[j], now, delay) else w.jobs[j]
    case ExpireApprovals(now, unlocked) =>
      if SweepConflicts(w, now, unlocked) || j !in unlocked then w.jobs[j] else Swept(w.jobs[j], now)
  }

  /** Whose token an event uses; claims and operator decisions use none. */
  function TokenOf(e: Event): Option<nat> {
    match e
    case Renew(k, _) => Some(k)
    case Build(k) => Some(k)
    case Tool(k, _, _) => Some(k)
    case Ask(k, _, _) => Some(k)
    case Stage(k, _, _) => Some(k)
    case Finish(k, _) => Some(k)
    case Commit(k, _, _) => Some(k)
    case _ => None
  }

  /** Attempt k was requeued, parked, finished or superseded. */
  predicate Dead(job: Job, k: nat) {
    k <= job.attempt && !(job.attempt == k && job.status == Running)
  }

  /** The transitions of a job row; a lease renewal is none. */
  predicate JobMoves(a: Job, b: Job) {
    && b.tenant == a.tenant && b.trace == a.trace && b.profile == a.profile
    && (|| (b.status == a.status && b.attempt == a.attempt)
        || (a.status == Queued && b.status == Running && b.attempt == a.attempt + 1)
        || (a.status == Running && b.attempt == a.attempt && b.status != Running)
        || (a.status == AwaitingApproval && b.attempt == a.attempt && IsTerminal(b.status)))
  }

  lemma HandlersKeepTheJob(s: Store, job: Id, a: Approval, l: Lookups)
    requires Handle(s, job, a, l).Some?
    ensures Handle(s, job, a, l).value.0.rows.job == s.rows.job
  {
  }

  /** A decision leaves the job alone or finalizes it, marked or not. */
  ghost predicate Finalizes(before: Job, after: Job) {
    || after == before
    || exists a: Approval, job: Job, now: Time ::
         job == before.(marker := job.marker) && FinalizeJob(a, job, now) == Some(after)
  }

  lemma VerdictFinalizes(cfg: Config, job: Id, s: Slot, cases: Cases, e: Event)
    requires e.Verdict?
    ensures Finalizes(s.rows.job, Happen(cfg, job, s, cases, e).0.rows.job)
  {
    var store := Store(s.rows, cases);
    if s.rows.approval.None? || s.rows.approval.value.status != Pending {
      NothingPending(cfg.rules, store, job, e.tenant, e.actor, e.approve, e.now, e.lookups);
    } else if s.rows.approval.value.expiresAt <= e.now {
      DecideLate(cfg.rules, store, job, e.tenant, e.actor, e.approve, e.now, e.lookups);
    } else if !e.approve {
      DecideReject(cfg.rules, store, job, e.tenant, e.actor, e.now, e.lookups);
    } else {
      DecideApprove(cfg.rules, store, job, e.tenant, e.actor, e.now, e.lookups);
      if ExecuteApproved(store, job, s.rows.approval.value, e.now, e.lookups).Some? {
        HandlersKeepTheJob(store, job, s.rows.approval.value, e.lookups);
      }
    }
  }

  lemma FinalizingMoves(before: Job, after: Job)
    requires Finalizes(before, after)
    ensures JobMoves(before, after)
  {
  }

  lemma VerdictMoves(cfg: Config, job: Id, s: Slot, cases: Cases, e: Event)
    requires e.Verdict?
    ensures JobMoves(s.rows.job, Happen(cfg, job, s, cases, e).0.rows.job)
  {
    VerdictFinalizes(cfg, job, s, cases, e);
    FinalizingMoves(s.rows.job, Happen(cfg, job, s, cases, e).0.rows.job);
  }

  lemma CommitMoves(r: Rows, tenant: Id, k: nat, intent: Intent, now: Time, availableAt: Time)
    requires CommitRows(r, tenant, k, intent, now, availableAt).Some?
    ensures Owned(r.job, tenant, k)
    ensures JobMoves(r.job, CommitRows(r, tenant, k, intent, now, availableAt).value.job)
  {
  }

  lemma EventMoves(cfg: Config, job: Id, s: Slot, cases: Cases, e: Event)
    ensures JobMoves(s.rows.job, Happen(cfg, job, s, cases, e).0.rows.job)
  {
    match e
    case Verdict(_, _, _, _, _) => VerdictMoves(cfg, job, s, cases, e);
    case Commit(k, now, availableAt) =>
      if k in s.attempts && s.attempts[k].control.Resolved? {
        var intent := s.attempts[k].control.intent;
        if CommitRows(s.rows, s.rows.job.tenant, k, intent, now, availableAt).Some? {
          CommitMoves(s.rows, s.rows.job.tenant, k, intent, now, availableAt);
        }
      }
    case _ =>
  }

  lemma StepMoves(cfg: Config, w: World, step: Step, j: Id)
    requires j in w.jobs
    ensures JobMoves(w.jobs[j].rows.job, StepOn(cfg, w, step, j).rows.job)
  {
    match step
    case At(i, e) => EventMoves(cfg, j, w.jobs[j], w.cases, e);
    case _ =>
  }

  lemma {:induction false} JobsPersist(cfg: Config, w: World, steps: seq<Step>, j: Id)
    requires j in w.jobs
    ensures j in Run(cfg, w, steps).jobs
  {
    if steps != [] {
      JobsPersist(cfg, w, steps[..|steps| - 1], j);
    }
  }

  // ---------------------------------------------------------------- fencing

  /** Everything the database holds. */
  function Stored(w: World): (map<Id, Rows>, Cases) { (map j | j in w.jobs :: w.jobs[j].rows, w.cases) }

  lemma {:induction false} DeadStaysDead(cfg: Config, w: World, steps: seq<Step>, j: Id, k: nat)
    requires j in w.jobs && Dead(w.jobs[j].rows.job, k)
    ensures j in Run(cfg, w, steps).jobs && Dead(Run(cfg, w, steps).jobs[j].rows.job, k)
  {
    if steps != [] {
      var n := |steps| - 1;
      DeadStaysDead(cfg, w, steps[..n], j, k);
      StepMoves(cfg, Run(cfg, w, steps[..n]), steps[n], j);
    }
  }

  lemma DeadTokensDoNothing(cfg: Config, job: Id, s: Slot, cases: Cases, e: Event)
    requires TokenOf(e).Some? && Dead(s.rows.job, TokenOf(e).value)
    ensures Happen(cfg, job, s, cases, e).0.rows == s.rows
    ensures Happen(cfg, job, s, cases, e).1 == cases
  {
  }

  /** A stale worker's steps write nothing, however late they come and whatever happened in between. */
  lemma StaleTokensAreFenced(cfg: Config, w: World, steps: seq<Step>, j: Id, e: Event)
    requires j in w.jobs && TokenOf(e).Some? && Dead(w.jobs[j].rows.job, TokenOf(e).value)
    ensures var later := Run(cfg, w, steps);
      Stored(Apply(cfg, later, At(j, e))) == Stored(later)
  {
    DeadStaysDead(cfg, w, steps, j, TokenOf(e).value);
    var later := Run(cfg, w, steps);
    DeadTokensDoNothing(cfg, j, later.jobs[j], later.cases, e);
    assert Stored(Apply(cfg, later, At(j, e))).0 == Stored(later).0;
  }

  // ---------------------------------------------------------------- termination

  function Rank(s: JobStatus): nat {
    match s
    case Running => 2
    case Queued => 1
    case AwaitingApproval => 1
    case _ => 0
  }

  /** How much a job can still do. */
  function Potential(cfg: Config, job: Job): int { 3 * (cfg.maxRetries + 1 - job.attempt) + Rank(job.status) }

  predicate Moved(a: Job, b: Job) { a.status != b.status || a.attempt != b.attempt }

  lemma TransitionsUsePotential(cfg: Config, w: World, step: Step, j: Id)
    requires j in w.jobs
    ensures var before, after := w.jobs[j].rows.job, StepOn(cfg, w, step, j).rows.job;
      if Moved(before, after) then Potential(cfg, after) < Potential(cfg, before)
      else Potential(cfg, after) == Potential(cfg, before)
  {
    StepMoves(cfg, w, step, j);
  }

  /** How often a history moves a job. */
  function Transitions(cfg: Config, w: World, steps: seq<Step>, j: Id): nat
    requires j in w.jobs
  {
    if steps == [] then 0
    else
      JobsPersist(cfg, w, steps[..|steps| - 1], j);
      var before := Run(cfg, w, steps[..|steps| - 1]);
      Transitions(cfg, w, steps[..|steps| - 1], j)
      + (if Moved(before.jobs[j].rows.job, StepOn(cfg, before, steps[|steps| - 1], j).rows.job) then 1 else 0)
  }

  lemma {:induction false} TransitionsAreBounded(cfg: Config, w: World, steps: seq<Step>, j: Id)
    requires j in w.jobs
    ensures j in Run(cfg, w, steps).jobs
    ensures Transitions(cfg, w, steps, j) + Potential(cfg, Run(cfg, w, steps).jobs[j].rows.job)
      <= Potential(cfg, w.jobs[j].rows.job)
  {
    if steps != [] {
      var n := |steps| - 1;
      TransitionsAreBounded(cfg, w, steps[..n], j);
      TransitionsUsePotential(cfg, Run(cfg, w, steps[..n]), steps[n], j);
    }
  }

  // ---------------------------------------------------------------- frozen rows

  lemma TerminalEventsDoNothing(cfg: Config, job: Id, s: Slot, cases: Cases, e: Event)
    requires IsTerminal(s.rows.job.status) && (s.rows.approval.Some? ==> s.rows.approval.value.status != Pending)
    ensures Happen(cfg, job, s, cases, e).0.rows == s.rows
    ensures Happen(cfg, job, s, cases, e).1 == cases
  {
  }

  /** Once a job is terminal, all of its rows are final: job, approval, case link, artifacts and effects. */
  lemma {:induction false} TerminalRowsAreFrozen(cfg: Config, w: World, steps: seq<Step>, j: Id)
    requires j in w.jobs && IsTerminal(w.jobs[j].rows.job.status)
    requires w.jobs[j].rows.approval.Some? ==> w.jobs[j].rows.approval.value.status != Pending
    ensures j in Run(cfg, w, steps).jobs && Run(cfg, w, steps).jobs[j].rows == w.jobs[j].rows
  {
    if steps != [] {
      var n := |steps| - 1;
      TerminalRowsAreFrozen(cfg, w, steps[..n], j);
      var before := Run(cfg, w, steps[..n]);
      assert StepOn(cfg, before, steps[n], j).rows == before.jobs[j].rows by {
        match steps[n]
        case At(_, e) => TerminalEventsDoNothing(cfg, j, before.jobs[j], before.cases, e);
        case _ =>
      }
    }
  }
}
