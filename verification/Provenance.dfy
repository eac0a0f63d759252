/** Histories driven by gated runs: whatever else is interleaved, the command a human approves and the system
    executes is the last proposal of the run that parked the job. */
module Provenance {
  import opened Values
  import opened Profiles
  import opened Proposals
  import opened Commands
  import opened JobResults
  import opened Durable
  import opened Machine
  import opened Invariants
  import opened Fencing
  import opened Reachability
  import opened Projection
  import AgentLoop
  import Decisions
  import Effects
  import Handoff
  import Policy
  import RunEnds
  import RunProperties
  import Transcript

  /** One agent run: the model, its trusted runtime, everything around its gate calls, and its prompt. */
  datatype GatedRun = GatedRun(
    model: AgentLoop.Model, rt: Runtime, world: RunProperties.World, maxSteps: nat, initial: seq<Transcript.Message>)

  /** The run each attempt (job, number) executes. */
  type Runs = (Id, nat) -> GatedRun

  function EndOf(g: GatedRun): AgentLoop.RunEnd {
    AgentLoop.Run(g.model, RunProperties.GateTools(g.rt, g.world), g.maxSteps, g.initial)
  }

  function RequestsOf(g: GatedRun): seq<Command> {
    RunProperties.Requests(g.model, g.rt, g.world, AgentLoop.Limit(g.maxSteps), AgentLoop.Start(g.initial))
  }

  function GrantedOf(g: GatedRun): Option<Command> {
    RunProperties.Granted(g.model, g.rt, g.world, AgentLoop.Limit(g.maxSteps), AgentLoop.Start(g.initial))
  }

  predicate Parks(g: GatedRun) { EndOf(g).Ended? && RunProperties.ApprovalWasRequested(EndOf(g).result) }

  ghost function SummaryOf(g: GatedRun): Result
    requires EndOf(g).Ended?
  {
    ResultSummary(EndOf(g).result)
  }

  /** An attempt asks only what its run requests, and completes only as its run completes. */
  ghost predicate DrivenEvent(j: Id, e: Event, runs: Runs) {
    match e
    case Ask(k, command, _) => command in RequestsOf(runs(j, k))
    case Finish(k, o) =>
      o.Complete? ==>
        EndOf(runs(j, k)).Ended? && o == Handoff.OutcomeOf(EndOf(runs(j, k)).result, SummaryOf(runs(j, k)))
    case _ => true
  }

  ghost predicate Driven(history: seq<Step>, runs: Runs) {
    forall i | 0 <= i < |history| :: history[i].At? ==> DrivenEvent(history[i].job, history[i].event, runs)
  }

  // ---------------------------------------------------------------- tokens

  ghost predicate TokenFromRun(a: Attempt, g: GatedRun) {
    && (a.thread.Asking? || a.thread.Granted? ==> a.thread.command in RequestsOf(g))
    && (a.control.Resolved? && a.control.intent.ParkIt? ==> Parks(g) && a.control.intent.result == SummaryOf(g))
  }

  ghost predicate TokensFromRuns(j: Id, attempts: map<nat, Attempt>, runs: Runs) {
    forall k <- attempts :: TokenFromRun(attempts[k], runs(j, k))
  }

  lemma FinishedFromRun(s: Slot, j: Id, k: nat, o: RunOutcome, maxRetries: nat, runs: Runs)
    requires k in s.attempts && !o.LeaseLost? && DrivenEvent(j, Finish(k, o), runs)
    ensures var c := AfterRun(s.rows.job, s.rows.job.tenant, k, s.attempts[k], o, maxRetries);
      c.Resolved? && c.intent.ParkIt? ==> Parks(runs(j, k)) && c.intent.result == SummaryOf(runs(j, k))
  {
  }

  lemma FinishKeepsTokens(cfg: Config, j: Id, s: Slot, k: nat, o: RunOutcome, runs: Runs)
    requires TokensFromRuns(j, s.attempts, runs) && DrivenEvent(j, Finish(k, o), runs)
    ensures TokensFromRuns(j, SlotEvent(cfg, s, Finish(k, o)).attempts, runs)
  {
    if k in s.attempts && !o.LeaseLost? {
      FinishedFromRun(s, j, k, o, cfg.maxRetries, runs);
    }
  }

  lemma EventKeepsTokens(cfg: Config, j: Id, s: Slot, cases: Cases, e: Event, runs: Runs)
    requires TokensFromRuns(j, s.attempts, runs) && DrivenEvent(j, e, runs)
    ensures TokensFromRuns(j, Happen(cfg, j, s, cases, e).0.attempts, runs)
  {
    if e.Finish? {
      FinishKeepsTokens(cfg, j, s, e.k, e.outcome, runs);
    }
  }

  // ---------------------------------------------------------------- what the published job shows

  /** The approval left the agent's hands. */
  predicate Out(a: Option<Approval>) { a.Some? && a.value.status != Staged && a.value.status != Cancelled }

  /** A published job shows the run of the attempt that parked it. */
  ghost predicate ShowsRun(rules: Rules, j: Id, r: Rows, runs: Runs, registered: set<string>) {
    Out(r.approval) ==>
      var g := runs(j, r.job.attempt);
      && Parks(g) && r.job.result.Some?
      && Shown(rules, r.job.result, registered) == Shown(rules, Some(SummaryOf(g)), registered)
  }

  lemma ParkingShowsRun(rules: Rules, j: Id, r: Rows, k: nat, result: Result, runs: Runs, registered: set<string>)
    requires Park(r, r.job.tenant, k, result).Some? && Parks(runs(j, k)) && result == SummaryOf(runs(j, k))
    ensures ShowsRun(rules, j, Park(r, r.job.tenant, k, result).value, runs, registered)
  {
  }

  lemma CommitsStayIn(r: Rows, k: nat, intent: Intent, now: Time, availableAt: Time)
    requires !Out(r.approval) && !intent.ParkIt?
    requires CommitRows(r, r.job.tenant, k, intent, now, availableAt).Some?
    ensures !Out(CommitRows(r, r.job.tenant, k, intent, now, availableAt).value.approval)
  {
  }

  lemma CommitShowsRun(cfg: Config, j: Id, s: Slot, cases: Cases, e: Event, runs: Runs, registered: set<string>)
    requires e.Commit? && !Out(s.rows.approval) && TokensFromRuns(j, s.attempts, runs)
    ensures ShowsRun(cfg.rules, j, Happen(cfg, j, s, cases, e).0.rows, runs, registered)
  {
    if e.k in s.attempts && s.attempts[e.k].control.Resolved? {
      Effects.CommitUnfolds(cfg, j, s, cases, e.k, e.now, e.availableAt);
      var intent := s.attempts[e.k].control.intent;
      if CommitRows(s.rows, s.rows.job.tenant, e.k, intent, e.now, e.availableAt).Some? {
        if intent.ParkIt? {
          ParkingShowsRun(cfg.rules, j, s.rows, e.k, intent.result, runs, registered);
        } else {
          CommitsStayIn(s.rows, e.k, intent, e.now, e.availableAt);
        }
      }
    }
  }

  lemma OthersStayIn(cfg: Config, j: Id, s: Slot, cases: Cases, e: Event)
    requires !e.Commit? && !Out(s.rows.approval)
    ensures !Out(Happen(cfg, j, s, cases, e).0.rows.approval)
  {
    match e
    case Verdict(tenant, actor, approve, now, l) =>
      NothingPending(cfg.rules, Store(s.rows, cases), j, tenant, actor, approve, now, l);
    case Tool(k, tx, now) =>
      if RunTool(Store(s.rows, cases), j, s.rows.job.tenant, k, tx, now).Some? {
        ToolsKeepApproval(Store(s.rows, cases), j, s.rows.job.tenant, k, tx, now);
      }
    case _ => WorkersStayIn(cfg, s, e);
  }

  lemma ToolsKeepApproval(s: Store, job: Id, tenant: Id, k: nat, tx: ToolTx, now: Time)
    requires RunTool(s, job, tenant, k, tx, now).Some?
    ensures RunTool(s, job, tenant, k, tx, now).value.rows.approval == s.rows.approval
  {
  }

  lemma WorkersStayIn(cfg: Config, s: Slot, e: Event)
    requires !e.Commit? && !Out(s.rows.approval)
    ensures !Out(SlotEvent(cfg, s, e).rows.approval)
  {
  }

  /** A published job keeps showing its run. */
  lemma ShowingStands(rules: Rules, j: Id, before: Rows, after: Rows, runs: Runs, registered: set<string>)
    requires Out(before.approval) && after.job.attempt == before.job.attempt && ResultMoves(before.job, after.job)
    ensures ShowsRun(rules, j, before, runs, registered) ==> ShowsRun(rules, j, after, runs, registered)
  {
    if ShowsRun(rules, j, before, runs, registered) {
      MovedResultsShowTheSame(rules, before.job, after.job, registered);
    }
  }

  lemma PublishedJobsAreDecidable(cfg: Config, s: Slot)
    requires SlotOk(cfg, s) && Out(s.rows.approval)
    ensures Decidable(s.rows.job)
  {
  }

  lemma SweptStaysIn(cfg: Config, s: Slot, now: Time, delay: nat)
    requires !Out(s.rows.approval)
    ensures !Out(Recovered(cfg, s, now, delay).rows.approval) && !Out(Swept(s, now).rows.approval)
  {
  }

  lemma PublishedStepShowsRun(cfg: Config, w: World, step: Step, j: Id, runs: Runs, registered: set<string>)
    requires j in w.jobs && SlotOk(cfg, w.jobs[j]) && Out(w.jobs[j].rows.approval)
    ensures ShowsRun(cfg.rules, j, w.jobs[j].rows, runs, registered) ==>
      ShowsRun(cfg.rules, j, StepOn(cfg, w, step, j).rows, runs, registered)
  {
    PublishedJobsAreDecidable(cfg, w.jobs[j]);
    StepMoves(cfg, w, step, j);
    StepMovesResult(cfg, w, step, j);
    ShowingStands(cfg.rules, j, w.jobs[j].rows, StepOn(cfg, w, step, j).rows, runs, registered);
  }

  lemma UnpublishedStepShowsRun(cfg: Config, w: World, step: Step, j: Id, runs: Runs, registered: set<string>)
    requires j in w.jobs && !Out(w.jobs[j].rows.approval) && TokensFromRuns(j, w.jobs[j].attempts, runs)
    ensures ShowsRun(cfg.rules, j, StepOn(cfg, w, step, j).rows, runs, registered)
  {
    var s := w.jobs[j];
    match step
    case Enqueue(_, _, _, _, _) =>
    case At(i, e) =>
      if i == j && e.Commit? {
        CommitShowsRun(cfg, j, s, w.cases, e, runs, registered);
      } else if i == j {
        OthersStayIn(cfg, j, s, w.cases, e);
      }
    case RecoverLeases(now, delay, _) => SweptStaysIn(cfg, s, now, delay);
    case ExpireApprovals(now, _) => SweptStaysIn(cfg, s, now, 0);
  }

  lemma StepShowsRun(cfg: Config, w: World, step: Step, j: Id, runs: Runs, registered: set<string>)
    requires j in w.jobs && SlotOk(cfg, w.jobs[j]) && TokensFromRuns(j, w.jobs[j].attempts, runs)
    requires ShowsRun(cfg.rules, j, w.jobs[j].rows, runs, registered)
    ensures ShowsRun(cfg.rules, j, StepOn(cfg, w, step, j).rows, runs, registered)
  {
    if Out(w.jobs[j].rows.approval) {
      PublishedStepShowsRun(cfg, w, step, j, runs, registered);
    } else {
      UnpublishedStepShowsRun(cfg, w, step, j, runs, registered);
    }
  }

  lemma StepKeepsTokens(cfg: Config, w: World, step: Step, j: Id, runs: Runs)
    requires j in w.jobs && TokensFromRuns(j, w.jobs[j].attempts, runs)
    requires step.At? && step.job == j ==> DrivenEvent(j, step.event, runs)
    ensures TokensFromRuns(j, StepOn(cfg, w, step, j).attempts, runs)
  {
    if step.At? && step.job == j {
      EventKeepsTokens(cfg, j, w.jobs[j], w.cases, step.event, runs);
    }
  }

  lemma {:induction false} DrivenHistoriesShowRuns(
      cfg: Config, w: World, history: seq<Step>, runs: Runs, j: Id, registered: set<string>)
    requires Fresh(w) && Driven(history, runs) && j in Run(cfg, w, history).jobs
    ensures TokensFromRuns(j, Run(cfg, w, history).jobs[j].attempts, runs)
    ensures ShowsRun(cfg.rules, j, Run(cfg, w, history).jobs[j].rows, runs, registered)
  {
    var n := |history| - 1;
    var before := Run(cfg, w, history[..n]);
    if j in before.jobs {
      assert Driven(history[..n], runs);
      DrivenHistoriesShowRuns(cfg, w, history[..n], runs, j, registered);
      ReachableOk(cfg, w, history[..n]);
      StepKeepsTokens(cfg, before, history[n], j, runs);
      StepShowsRun(cfg, before, history[n], j, runs, registered);
    }
  }

  // ---------------------------------------------------------------- main results

  /** The command is the last proposal of the run that the job's parking attempt executed. */
  ghost predicate LastProposalOf(g: GatedRun, c: Command) {
    && Parks(g) && GrantedOf(g) == Some(c)
    && var last := RunEnds.LastOf(g.model, g.rt, g.world, g.maxSteps, g.initial);
    && g.model(last.messages).Some? && RunEnds.Proposes(g.rt, g.model(last.messages).value, c)
  }

  lemma RequestedIsGranted(g: GatedRun, c: Command)
    ensures Parks(g) && c in RequestsOf(g) ==> LastProposalOf(g, c)
  {
    if Parks(g) && c in RequestsOf(g) {
      RunProperties.OnlyTheGateParks(g.model, g.rt, g.world, g.maxSteps, g.initial);
      RunEnds.GrantedIsLastProposed(
        g.model, g.rt, g.world, AgentLoop.Limit(g.maxSteps), AgentLoop.Start(g.initial));
    }
  }

  /** Over every history whose attempts are gated runs, with any other attempts, decisions and sweeps interleaved:
      a published command is the last proposal of the parking attempt's run, and what the job shows a reader is
      what that run stored. */
  lemma PublishedCommandsAreProposed(
      cfg: Config, w: World, history: seq<Step>, runs: Runs, j: Id, registered: set<string>)
    requires Fresh(w) && Driven(history, runs) && j in Run(cfg, w, history).jobs
    requires var r := Run(cfg, w, history).jobs[j].rows; r.approval.Some? && Published(r.approval.value, r.job)
    ensures var r := Run(cfg, w, history).jobs[j].rows;
      var g := runs(j, r.job.attempt);
      && LastProposalOf(g, r.approval.value.command)
      && Shown(cfg.rules, r.job.result, registered) == Shown(cfg.rules, Some(SummaryOf(g)), registered)
  {
    DrivenHistoriesShowRuns(cfg, w, history, runs, j, registered);
    Decisions.SlotOf(cfg, w, history, j);
    var r := Run(cfg, w, history).jobs[j].rows;
    RequestedIsGranted(runs(j, r.job.attempt), r.approval.value.command);
  }

  /** So an approval in time carries out exactly what the parking run proposed last. */
  lemma ExecutedCommandsAreProposed(cfg: Config, w: World, history: seq<Step>, runs: Runs, j: Id, e: Event)
    requires Fresh(w) && Driven(history, runs) && j in Run(cfg, w, history).jobs && e.Verdict? && e.approve
    requires var at := Run(cfg, w, history);
      && Decisions.Visible(at.jobs[j].rows, e.tenant) && at.jobs[j].rows.approval.value.status == Pending
      && e.now < at.jobs[j].rows.approval.value.expiresAt
      && Decisions.CanHandle(Store(at.jobs[j].rows, at.cases), j, e.lookups)
    ensures var at := Run(cfg, w, history);
      var (after, cases) := Happen(cfg, j, at.jobs[j], at.cases, e);
      var command := at.jobs[j].rows.approval.value.command;
      && LastProposalOf(runs(j, at.jobs[j].rows.job.attempt), command)
      && Decisions.CarriedOut(j, command, Store(at.jobs[j].rows, at.cases), Store(after.rows, cases), e.now, e.lookups)
  {
    var at := Run(cfg, w, history);
    PublishedCommandsAreProposed(cfg, w, history, runs, j, {});
    Decisions.SlotOf(cfg, w, history, j);
    Decisions.CommandsAreSound(cfg, at.jobs[j]);
    Decisions.ApprovalCarriesOutTheCommand(cfg, j, at.jobs[j], at.cases, e);
  }

  /** Driven histories exist: the steps by which one run parks its job are driven by that run. */
  lemma ParkingStepsAreDriven(j: Id, k: nat, g: GatedRun, reason: Policy.Reason, id: Id, staged: Time, now: Time)
    requires Parks(g)
    ensures GrantedOf(g).Some?
    ensures Driven([At(j, Ask(k, GrantedOf(g).value, reason)), At(j, Stage(k, id, staged)),
                    At(j, Finish(k, Handoff.OutcomeOf(EndOf(g).result, SummaryOf(g)))), At(j, Commit(k, now, now))],
                   (_, _) => g)
  {
    RunProperties.OnlyTheGateParks(g.model, g.rt, g.world, g.maxSteps, g.initial);
  }
}
