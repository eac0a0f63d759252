/** What an operator reads of a parked job stays what the run stored, whatever is decided later
    (app/domain/jobs.py, app/domain/approval_repository.py). */
module Projection {
  import opened Values
  import opened Profiles
  import opened JobResults
  import opened Durable
  import opened Machine
  import opened Invariants
  import opened Fencing
  import opened Reachability
  import AgentLoop
  import RunProperties
  import GatedRuns
  import Proposals
  import Transcript

  /** Both projections of a stored result. */
  function Shown(rules: Rules, result: Option<Result>, registered: set<string>): (ExecutionRead, RoutingRead) {
    (ReadExecution(rules, result, registered), ReadRouting(result))
  }

  predicate Decidable(job: Job) { job.status == AwaitingApproval || IsTerminal(job.status) }

  lemma FinalizedProjection(rules: Rules, a: Approval, job: Job, now: Time, registered: set<string>)
    requires job.result.Some? && FinalizeJob(a, job, now).Some?
    ensures var after := FinalizeJob(a, job, now).value;
      after.result.Some? && Shown(rules, after.result, registered) == Shown(rules, job.result, registered)
  {
    if job.status == AwaitingApproval {
      DecisionsKeepTheProjection(rules, job.result.value, registered, FinalBusinessOutcome(a.status), a.id,
                                 ApprovalText(a.status), a.caseId);
    }
  }

  /** A step leaves the stored result alone or finalizes it. */
  ghost predicate ResultMoves(before: Job, after: Job) { after.result == before.result || Finalizes(before, after) }

  lemma IdleEventsKeepResult(cfg: Config, j: Id, s: Slot, cases: Cases, e: Event)
    requires !e.Verdict? && Decidable(s.rows.job)
    ensures Happen(cfg, j, s, cases, e).0.rows.job.result == s.rows.job.result
  {
  }

  lemma SweepsMoveResult(cfg: Config, s: Slot, now: Time, delay: nat)
    requires Decidable(s.rows.job)
    ensures Recovered(cfg, s, now, delay).rows.job.result == s.rows.job.result
    ensures ResultMoves(s.rows.job, Swept(s, now).rows.job)
  {
  }

  lemma StepMovesResult(cfg: Config, w: World, step: Step, j: Id)
    requires j in w.jobs && Decidable(w.jobs[j].rows.job)
    ensures ResultMoves(w.jobs[j].rows.job, StepOn(cfg, w, step, j).rows.job)
  {
    match step
    case Enqueue(_, _, _, _, _) =>
    case At(i, e) =>
      if i == j && e.Verdict? {
        VerdictFinalizes(cfg, j, w.jobs[j], w.cases, e);
      } else if i == j {
        IdleEventsKeepResult(cfg, j, w.jobs[j], w.cases, e);
      }
    case RecoverLeases(now, delay, _) => SweepsMoveResult(cfg, w.jobs[j], now, delay);
    case ExpireApprovals(now, _) => SweepsMoveResult(cfg, w.jobs[j], now, 0);
  }

  lemma MovedResultsShowTheSame(rules: Rules, before: Job, after: Job, registered: set<string>)
    requires before.result.Some? && ResultMoves(before, after)
    ensures after.result.Some? && Shown(rules, after.result, registered) == Shown(rules, before.result, registered)
  {
    if after.result != before.result {
      var a: Approval, job: Job, now: Time :|
        job == before.(marker := job.marker) && FinalizeJob(a, job, now) == Some(after);
      FinalizedProjection(rules, a, job, now, registered);
    }
  }

  /** Approve, reject or expire, in any order and with anything in between: steps, stop reason, path and routing
      facts of a parked job read the same ever after. */
  lemma {:induction false} ProjectionStands(cfg: Config, w: World, more: seq<Step>, j: Id, registered: set<string>)
    requires j in w.jobs && Decidable(w.jobs[j].rows.job) && w.jobs[j].rows.job.result.Some?
    ensures var later := Run(cfg, w, more);
      && j in later.jobs && Decidable(later.jobs[j].rows.job) && later.jobs[j].rows.job.result.Some?
      && Shown(cfg.rules, later.jobs[j].rows.job.result, registered)
         == Shown(cfg.rules, w.jobs[j].rows.job.result, registered)
  {
    if more != [] {
      var n := |more| - 1;
      ProjectionStands(cfg, w, more[..n], j, registered);
      var before := Run(cfg, w, more[..n]);
      StepMoves(cfg, before, more[n], j);
      StepMovesResult(cfg, before, more[n], j);
      MovedResultsShowTheSame(cfg.rules, before.jobs[j].rows.job, StepOn(cfg, before, more[n], j).rows.job, registered);
    }
  }

  /** From the agent run to the reader: a parked job shows the run's own steps, reason and path, also after it was
      decided, exactly when the profile registers every known action on that path. */
  lemma ReadersSeeTheRun(cfg: Config, w: World, more: seq<Step>, j: Id, model: AgentLoop.Model, rt: Proposals.Runtime,
                         world: RunProperties.World, maxSteps: nat, initial: seq<Transcript.Message>)
    requires GatedRuns.SafeNames(rt) && rt.rules == cfg.rules
    requires AgentLoop.Run(model, RunProperties.GateTools(rt, world), maxSteps, initial).Ended?
    requires j in w.jobs && Decidable(w.jobs[j].rows.job)
    requires w.jobs[j].rows.job.result
      == Some(ResultSummary(AgentLoop.Run(model, RunProperties.GateTools(rt, world), maxSteps, initial).result))
    ensures var r := AgentLoop.Run(model, RunProperties.GateTools(rt, world), maxSteps, initial).result;
      var later := Run(cfg, w, more);
      && j in later.jobs && later.jobs[j].rows.job.result.Some?
      && (ProjectsFaithfully(cfg.rules, later.jobs[j].rows.job.result.value, r, RegisteredActions(rt.profile))
          <==> KnownActionsRegistered(r.path, RegisteredActions(rt.profile)))
  {
    ProjectionStands(cfg, w, more, j, RegisteredActions(rt.profile));
    GatedRuns.StoredRunsReadBack(model, rt, world, maxSteps, initial);
  }
}
