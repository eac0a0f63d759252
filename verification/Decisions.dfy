/** Operator decisions: exactly once, final, and of the command the parking attempt asked for
    (app/domain/approvals.py, app/domain/approval_repository.py). */
module Decisions {
  import opened Values
  import opened Profiles
  import opened Commands
  import opened JobResults
  import opened Durable
  import opened Machine
  import opened Invariants
  import opened Fencing
  import opened Reachability

  /** The approval an operator of this tenant can see and decide. */
  predicate Visible(r: Rows, tenant: Id) {
    r.approval.Some? && r.approval.value.tenant == tenant && Published(r.approval.value, r.job)
  }

  lemma SlotOf(cfg: Config, w: World, history: seq<Step>, j: Id)
    requires Fresh(w) && j in Run(cfg, w, history).jobs
    ensures SlotOk(cfg, Run(cfg, w, history).jobs[j]) && CasesMatch(Run(cfg, w, history))
  {
    ReachableOk(cfg, w, history);
  }

  /** Job and approval agree in every reachable world, so the read filter hides no published approval. */
  lemma JobAndApprovalAgree(cfg: Config, w: World, history: seq<Step>, j: Id)
    requires Fresh(w) && j in Run(cfg, w, history).jobs
    ensures var r := Run(cfg, w, history).jobs[j].rows;
      && (r.approval.Some? && r.approval.value.status == Pending <==> r.job.status == AwaitingApproval)
      && (r.job.lease.Some? <==> r.job.status == Running)
      && (r.job.finishedAt.Some? <==> IsTerminal(r.job.status))
      && (r.approval.Some? ==>
            var a := r.approval.value;
            && (Published(a, r.job) <==> a.status != Staged && a.status != Cancelled)
            && (a.status == Staged ==> r.job.status == Queued || r.job.status == Running)
            && (a.status == Cancelled ==> IsTerminal(r.job.status))
            && (a.status == Approved || a.status == Rejected ==> r.job.status == Succeeded)
            && (a.status == Expired ==> r.job.status == Failed))
  {
    SlotOf(cfg, w, history, j);
  }

  /** A pending approval that a sweep has locked, at any earlier time, still finds its job parked when the sweep
      finalizes it: the conflict raised there never shows, with or without the query's own check of the job. */
  lemma SweepsNeverConflict(cfg: Config, w: World, history: seq<Step>, j: Id, now: Time)
    requires Fresh(w) && j in Run(cfg, w, history).jobs
    requires var r := Run(cfg, w, history).jobs[j].rows; r.approval.Some? && r.approval.value.status == Pending
    ensures var r := Run(cfg, w, history).jobs[j].rows;
      var job := FinalizeJob(ExpireLocked(r.approval.value, now), r.job, now);
      job.Some? && job.value.status == Failed && job.value.error == Some(ApprovalTimedOut)
  {
    SlotOf(cfg, w, history, j);
  }

  // ---------------------------------------------------------------- what a decision answers

  /** The answer as a table: visibility, finality, the deadline, the decision, the command's outcome. */
  function Answer(r: Rows, tenant: Id, approve: bool, now: Time, handled: bool, decided: Response): Response {
    if !Visible(r, tenant) then NotFoundError
    else if IsFinal(r.approval.value.status) then
      if SameFinalDecision(r.approval.value.status, approve) then ResponseOf(r.approval.value) else ConflictError
    else if approve && r.approval.value.expiresAt <= now then ExpiredError
    else if approve && !handled then ExecutionError
    else decided
  }

  lemma PendingAnswers(cfg: Config, job: Id, s: Slot, cases: Cases, tenant: Id, actor: Id, approve: bool, now: Time,
                       l: Lookups)
    requires SlotOk(cfg, s) && Visible(s.rows, tenant) && s.rows.approval.value.status == Pending
    requires now < s.rows.approval.value.expiresAt && approve
    ensures var end := Decide(cfg.rules, Store(s.rows, cases), job, tenant, actor, approve, now, l);
      if Handle(Store(s.rows, cases), job, s.rows.approval.value, l).None? then
        end == DecideEnd(Store(s.rows, cases), ExecutionError)
      else
        && end.store.rows.approval.Some? && end.store.rows.approval.value.status == Approved
        && end.response == ResponseOf(end.store.rows.approval.value) && end.response.Decided?
  {
    if Handle(Store(s.rows, cases), job, s.rows.approval.value, l).Some? {
      ApprovedKeeps(cfg, job, s, cases, actor, now, l);
    }
  }

  lemma OtherAnswers(cfg: Config, job: Id, s: Slot, cases: Cases, tenant: Id, actor: Id, approve: bool, now: Time,
                     l: Lookups)
    requires SlotOk(cfg, s) && Visible(s.rows, tenant) && s.rows.approval.value.status == Pending
    requires s.rows.approval.value.expiresAt <= now || !approve
    ensures var end := Decide(cfg.rules, Store(s.rows, cases), job, tenant, actor, approve, now, l);
      && end.store.rows.approval.Some?
      && end.store.rows.approval.value.status == (if s.rows.approval.value.expiresAt <= now then Expired else Rejected)
      && (if approve then end.response == ExpiredError
          else end.response == ResponseOf(end.store.rows.approval.value) && end.response.Decided?)
      && end.store.cases == cases && end.store.rows.effects == s.rows.effects
  {
  }

  predicate CanHandle(s: Store, job: Id, l: Lookups) {
    s.rows.approval.Some? && Handle(s, job, s.rows.approval.value, l).Some?
  }

  /** The status a decision on a pending approval leads to. */
  function NewStatus(a: Approval, approve: bool, now: Time): ApprovalStatus {
    if a.expiresAt <= now then Expired else if approve then Approved else Rejected
  }

  lemma SettledAnswers(cfg: Config, job: Id, s: Slot, cases: Cases, tenant: Id, actor: Id, approve: bool, now: Time,
                       l: Lookups)
    requires SlotOk(cfg, s) && !(Visible(s.rows, tenant) && s.rows.approval.value.status == Pending)
    ensures Decide(cfg.rules, Store(s.rows, cases), job, tenant, actor, approve, now, l)
      == DecideEnd(Store(s.rows, cases), Answer(s.rows, tenant, approve, now, false, NotFoundError))
  {
  }

  /** The answer to any decision in any reachable world. The conflict raised while finalizing never shows: a
      conflict means the opposite final decision, and nothing else. */
  lemma DecisionTable(cfg: Config, w: World, history: seq<Step>, j: Id, tenant: Id, actor: Id, approve: bool,
                      now: Time, l: Lookups)
    requires Fresh(w) && j in Run(cfg, w, history).jobs
    ensures var at := Run(cfg, w, history);
      var before := Store(at.jobs[j].rows, at.cases);
      var end := Decide(cfg.rules, before, j, tenant, actor, approve, now, l);
      && (end.response == ConflictError <==>
            && Visible(before.rows, tenant) && IsFinal(before.rows.approval.value.status)
            && !SameFinalDecision(before.rows.approval.value.status, approve))
      && (if Visible(before.rows, tenant) && before.rows.approval.value.status == Pending
             && (before.rows.approval.value.expiresAt <= now || !approve || CanHandle(before, j, l)) then
            && end.store.rows.approval.Some?
            && end.store.rows.approval.value.status == NewStatus(before.rows.approval.value, approve, now)
            && end.response
               == Answer(before.rows, tenant, approve, now, true, ResponseOf(end.store.rows.approval.value))
            && ResponseOf(end.store.rows.approval.value).Decided?
          else
            && end.store == before
            && end.response == Answer(before.rows, tenant, approve, now, false, NotFoundError))
  {
    SlotOf(cfg, w, history, j);
    var at := Run(cfg, w, history);
    var s := at.jobs[j];
    if !(Visible(s.rows, tenant) && s.rows.approval.value.status == Pending) {
      SettledAnswers(cfg, j, s, at.cases, tenant, actor, approve, now, l);
    } else if s.rows.approval.value.expiresAt <= now || !approve {
      OtherAnswers(cfg, j, s, at.cases, tenant, actor, approve, now, l);
    } else {
      PendingAnswers(cfg, j, s, at.cases, tenant, actor, approve, now, l);
    }
  }

  // ---------------------------------------------------------------- exactly once

  /** A final decision stands: after any further history all rows of the job are the same, the same decision
      gets the same answer, the opposite one a conflict, and neither changes anything. */
  lemma FinalDecisionsStand(cfg: Config, w: World, history: seq<Step>, more: seq<Step>, j: Id, tenant: Id,
                            actor: Id, approve: bool, now: Time, l: Lookups)
    requires Fresh(w) && j in Run(cfg, w, history).jobs
    requires Visible(Run(cfg, w, history).jobs[j].rows, tenant)
    requires IsFinal(Run(cfg, w, history).jobs[j].rows.approval.value.status)
    ensures var r, later := Run(cfg, w, history).jobs[j].rows, Run(cfg, Run(cfg, w, history), more);
      && j in later.jobs && later.jobs[j].rows == r
      && Decide(cfg.rules, Store(r, later.cases), j, tenant, actor, approve, now, l)
         == DecideEnd(Store(r, later.cases),
                      if SameFinalDecision(r.approval.value.status, approve) then ResponseOf(r.approval.value)
                      else ConflictError)
  {
    TerminalRowsAreFrozen(cfg, Run(cfg, w, history), more, j);
  }

  function AnswerOf(cfg: Config, job: Id, rows: Rows, cases: Cases, e: Event): Response
    requires e.Verdict?
  {
    Decide(cfg.rules, Store(rows, cases), job, e.tenant, e.actor, e.approve, e.now, e.lookups).response
  }

  function Answered(cfg: Config, w: World, j: Id, e: Event): Response
    requires e.Verdict? && j in w.jobs
  {
    AnswerOf(cfg, j, w.jobs[j].rows, w.cases, e)
  }

  /** The rows show a final decision that gives this answer. */
  predicate Shows(w: World, j: Id, tenant: Id, approve: bool, answer: Response) {
    && j in w.jobs && Visible(w.jobs[j].rows, tenant)
    && var a := w.jobs[j].rows.approval.value;
       IsFinal(a.status) && SameFinalDecision(a.status, approve) && ResponseOf(a) == answer
  }

  lemma DecidedMeansFinal(cfg: Config, job: Id, s: Slot, cases: Cases, e: Event)
    requires SlotOk(cfg, s) && e.Verdict?
    requires AnswerOf(cfg, job, s.rows, cases, e).Decided?
    ensures var after := Happen(cfg, job, s, cases, e).0.rows;
      && after.approval.Some? && IsFinal(after.approval.value.status)
      && after.approval.value.tenant == e.tenant
      && SameFinalDecision(after.approval.value.status, e.approve)
      && ResponseOf(after.approval.value) == AnswerOf(cfg, job, s.rows, cases, e)
  {
    if !(Visible(s.rows, e.tenant) && s.rows.approval.value.status == Pending) {
      SettledAnswers(cfg, job, s, cases, e.tenant, e.actor, e.approve, e.now, e.lookups);
    } else if s.rows.approval.value.expiresAt <= e.now || !e.approve {
      OtherAnswers(cfg, job, s, cases, e.tenant, e.actor, e.approve, e.now, e.lookups);
    } else {
      PendingAnswers(cfg, job, s, cases, e.tenant, e.actor, e.approve, e.now, e.lookups);
    }
    VerdictKeeps(cfg, job, s, cases, e);
    VerdictMoves(cfg, job, s, cases, e);
  }

  lemma FinalIsVisible(cfg: Config, s: Slot)
    requires SlotOk(cfg, s) && s.rows.approval.Some? && IsFinal(s.rows.approval.value.status)
    ensures Visible(s.rows, s.rows.approval.value.tenant)
  {
  }

  lemma AnsweredDecisionsShow(cfg: Config, w: World, history: seq<Step>, j: Id, e: Event)
    requires Fresh(w) && j in Run(cfg, w, history).jobs && e.Verdict?
    requires Answered(cfg, Run(cfg, w, history), j, e).Decided?
    ensures Shows(Run(cfg, w, history + [At(j, e)]), j, e.tenant, e.approve, Answered(cfg, Run(cfg, w, history), j, e))
  {
    var at := Run(cfg, w, history);
    SlotOf(cfg, w, history, j);
    DecidedMeansFinal(cfg, j, at.jobs[j], at.cases, e);
    HappenKeeps(cfg, j, at.jobs[j], at.cases, e);
    FinalIsVisible(cfg, Happen(cfg, j, at.jobs[j], at.cases, e).0);
    assert (history + [At(j, e)])[..|history + [At(j, e)]| - 1] == history;
  }

  lemma ShownDecisionsRepeat(cfg: Config, w: World, history: seq<Step>, more: seq<Step>, j: Id, e: Event,
                             answer: Response)
    requires Fresh(w) && e.Verdict? && Shows(Run(cfg, w, history), j, e.tenant, e.approve, answer)
    ensures var later := Run(cfg, Run(cfg, w, history), more);
      j in later.jobs && Answered(cfg, later, j, e) == answer && Stored(Apply(cfg, later, At(j, e))) == Stored(later)
  {
    FinalDecisionsStand(cfg, w, history, more, j, e.tenant, e.actor, e.approve, e.now, e.lookups);
    var later := Run(cfg, Run(cfg, w, history), more);
    assert Stored(Apply(cfg, later, At(j, e))).0 == Stored(later).0;
  }

  /** Whoever repeats an answered decision, however late, gets the very same answer and changes nothing. */
  lemma RepeatedDecisionsAgree(cfg: Config, w: World, history: seq<Step>, more: seq<Step>, j: Id, first: Event,
                               again: Event)
    requires Fresh(w) && j in Run(cfg, w, history).jobs
    requires first.Verdict? && again.Verdict? && again.tenant == first.tenant && again.approve == first.approve
    requires Answered(cfg, Run(cfg, w, history), j, first).Decided?
    ensures var later := Run(cfg, Run(cfg, w, history + [At(j, first)]), more);
      && j in later.jobs
      && Answered(cfg, later, j, again) == Answered(cfg, Run(cfg, w, history), j, first)
      && Stored(Apply(cfg, later, At(j, again))) == Stored(later)
  {
    AnsweredDecisionsShow(cfg, w, history, j, first);
    var answer := Answered(cfg, Run(cfg, w, history), j, first);
    ShownDecisionsRepeat(cfg, w, history + [At(j, first)], more, j, again, answer);
  }

  /** The log of any approval in any reachable world: at most one final decision, one execution exactly when
      approved, in time when decided by an operator and late when expired. */
  lemma LogsAreExact(cfg: Config, w: World, history: seq<Step>, j: Id)
    requires Fresh(w) && j in Run(cfg, w, history).jobs && Run(cfg, w, history).jobs[j].rows.approval.Some?
    ensures var a := Run(cfg, w, history).jobs[j].rows.approval.value;
      && |Finals(a.events)| == (if IsFinal(a.status) then 1 else 0)
      && Executions(a.events) == (if a.status == Approved then 1 else 0)
      && (a.decidedAt.Some? <==> IsFinal(a.status))
      && (a.status == Approved || a.status == Rejected ==> a.decidedAt.value < a.expiresAt)
      && (a.status == Expired ==> a.decidedAt.value >= a.expiresAt)
  {
    SlotOf(cfg, w, history, j);
  }

  /** Whether a decision left any business effect behind. */
  predicate Executes(before: Store, after: Store) {
    || after.cases != before.cases || after.rows.effects != before.rows.effects
    || after.rows.caseId != before.rows.caseId
    || after.rows.artifacts != before.rows.artifacts || after.rows.job.marker != before.rows.job.marker
  }

  lemma LateOrRejectedExecutesNothing(cfg: Config, job: Id, s: Slot, cases: Cases, e: Event)
    requires e.Verdict? && s.rows.approval.Some? && s.rows.approval.value.status == Pending
    requires s.rows.approval.value.expiresAt <= e.now || !e.approve
    ensures var (after, afterCases) := Happen(cfg, job, s, cases, e);
      !Executes(Store(s.rows, cases), Store(after.rows, afterCases))
  {
    if s.rows.approval.value.expiresAt <= e.now {
      DecideLate(cfg.rules, Store(s.rows, cases), job, e.tenant, e.actor, e.approve, e.now, e.lookups);
    } else {
      DecideReject(cfg.rules, Store(s.rows, cases), job, e.tenant, e.actor, e.now, e.lookups);
    }
  }

  lemma InTimeExecutes(cfg: Config, job: Id, s: Slot, cases: Cases, e: Event)
    requires SlotOk(cfg, s) && e.Verdict?
    ensures var (after, afterCases) := Happen(cfg, job, s, cases, e);
      Executes(Store(s.rows, cases), Store(after.rows, afterCases)) ==>
        && e.approve && s.rows.approval.Some? && s.rows.approval.value.status == Pending
        && e.now < s.rows.approval.value.expiresAt
        && after.rows.approval.Some? && after.rows.approval.value.status == Approved
  {
    if !(Visible(s.rows, e.tenant) && s.rows.approval.value.status == Pending) {
      SettledAnswers(cfg, job, s, cases, e.tenant, e.actor, e.approve, e.now, e.lookups);
    } else if s.rows.approval.value.expiresAt <= e.now || !e.approve {
      LateOrRejectedExecutesNothing(cfg, job, s, cases, e);
    } else {
      PendingAnswers(cfg, job, s, cases, e.tenant, e.actor, true, e.now, e.lookups);
    }
  }

  /** A decision that leaves any effect, case, artifact or marker behind is the one approval in time. */
  lemma OnlyApprovalExecutes(cfg: Config, w: World, history: seq<Step>, j: Id, e: Event)
    requires Fresh(w) && j in Run(cfg, w, history).jobs && e.Verdict?
    requires var at := Run(cfg, w, history);
      var (after, cases) := Happen(cfg, j, at.jobs[j], at.cases, e);
      Executes(Store(at.jobs[j].rows, at.cases), Store(after.rows, cases))
    ensures var at := Run(cfg, w, history);
      var before, after := at.jobs[j].rows.approval, Happen(cfg, j, at.jobs[j], at.cases, e).0.rows.approval;
      && e.approve && before.Some? && before.value.status == Pending && e.now < before.value.expiresAt
      && after.Some? && after.value.status == Approved
  {
    SlotOf(cfg, w, history, j);
    var at := Run(cfg, w, history);
    InTimeExecutes(cfg, j, at.jobs[j], at.cases, e);
  }

  // ---------------------------------------------------------------- whose command

  predicate AskedAt(step: Step, j: Id, k: nat, command: Command) {
    step.At? && step.job == j && step.event.Ask? && step.event.k == k && step.event.command == command
  }

  predicate Wants(t: Thread, command: Command) {
    (t.Asking? && t.command == command) || t == Granted(command)
  }

  lemma WantsOnlyAfterAsking(cfg: Config, job: Id, s: Slot, cases: Cases, e: Event, k: nat, command: Command)
    requires Bounded(cfg, s)
    requires var after := Happen(cfg, job, s, cases, e).0;
      k in after.attempts && Wants(after.attempts[k].thread, command)
    ensures (k in s.attempts && Wants(s.attempts[k].thread, command)) || AskedAt(At(job, e), job, k, command)
  {
  }

  lemma {:induction false} GrantedWasAsked(cfg: Config, w: World, history: seq<Step>, j: Id, k: nat, command: Command)
    requires Fresh(w) && j in Run(cfg, w, history).jobs
    requires k in Run(cfg, w, history).jobs[j].attempts
    requires Wants(Run(cfg, w, history).jobs[j].attempts[k].thread, command)
    ensures exists i | 0 <= i < |history| :: AskedAt(history[i], j, k, command)
  {
    var n := |history| - 1;
    var before := Run(cfg, w, history[..n]);
    if j in before.jobs && k in before.jobs[j].attempts && Wants(before.jobs[j].attempts[k].thread, command) {
      GrantedWasAsked(cfg, w, history[..n], j, k, command);
      var i :| 0 <= i < n && AskedAt(history[..n][i], j, k, command);
      assert AskedAt(history[i], j, k, command);
    } else {
      assert j in before.jobs && history[n].At? && history[n].job == j;
      SlotOf(cfg, w, history[..n], j);
      WantsOnlyAfterAsking(cfg, j, before.jobs[j], before.cases, history[n].event, k, command);
      assert AskedAt(history[n], j, k, command);
    }
  }

  /** The command behind every published approval is one that the parking attempt itself asked for, whatever
      earlier attempts staged, replaced or left behind, and the profile of the job allows it. */
  lemma PublishedCommandsWereAsked(cfg: Config, w: World, history: seq<Step>, j: Id)
    requires Fresh(w) && j in Run(cfg, w, history).jobs
    requires var r := Run(cfg, w, history).jobs[j].rows; r.approval.Some? && Published(r.approval.value, r.job)
    ensures var r := Run(cfg, w, history).jobs[j].rows;
      && (exists i | 0 <= i < |history| :: AskedAt(history[i], j, r.job.attempt, r.approval.value.command))
      && Authorized(cfg.rules, r.job.profile, r.approval.value.command)
      && r.approval.value.action == CommandAction(r.approval.value.command)
  {
    SlotOf(cfg, w, history, j);
    var r := Run(cfg, w, history).jobs[j].rows;
    GrantedWasAsked(cfg, w, history, j, r.job.attempt, r.approval.value.command);
  }

  lemma ExecutionKeepsCommand(s: Store, job: Id, a: Approval, now: Time, l: Lookups)
    requires ExecuteApproved(s, job, a, now, l).Some?
    ensures ExecuteApproved(s, job, a, now, l).value.1.command == a.command
  {
  }

  lemma PendingVerdictsKeepCommand(cfg: Config, job: Id, s: Slot, cases: Cases, e: Event)
    requires s.rows.approval.Some? && s.rows.approval.value.status == Pending && e.Verdict?
    ensures var after := Happen(cfg, job, s, cases, e).0.rows;
      && after.approval.Some? && after.approval.value.command == s.rows.approval.value.command
      && after.approval.value.status != Staged && after.approval.value.status != Cancelled
  {
    if s.rows.approval.value.expiresAt <= e.now {
      DecideLate(cfg.rules, Store(s.rows, cases), job, e.tenant, e.actor, e.approve, e.now, e.lookups);
    } else if !e.approve {
      DecideReject(cfg.rules, Store(s.rows, cases), job, e.tenant, e.actor, e.now, e.lookups);
    } else {
      DecideApprove(cfg.rules, Store(s.rows, cases), job, e.tenant, e.actor, e.now, e.lookups);
      if ExecuteApproved(Store(s.rows, cases), job, s.rows.approval.value, e.now, e.lookups).Some? {
        ExecutionKeepsCommand(Store(s.rows, cases), job, s.rows.approval.value, e.now, e.lookups);
      }
    }
  }

  lemma PendingEventsKeepCommand(cfg: Config, job: Id, s: Slot, cases: Cases, e: Event)
    requires SlotOk(cfg, s) && s.rows.approval.Some? && s.rows.approval.value.status == Pending
    ensures var after := Happen(cfg, job, s, cases, e).0.rows;
      && after.approval.Some? && after.approval.value.command == s.rows.approval.value.command
      && after.approval.value.status != Staged && after.approval.value.status != Cancelled
  {
    if e.Verdict? {
      PendingVerdictsKeepCommand(cfg, job, s, cases, e);
    } else {
      ParkedJobsIgnoreWorkers(cfg, job, s, cases, e);
    }
  }

  lemma ParkedJobsIgnoreWorkers(cfg: Config, job: Id, s: Slot, cases: Cases, e: Event)
    requires s.rows.job.status == AwaitingApproval && !e.Verdict?
    ensures Happen(cfg, job, s, cases, e).0.rows == s.rows
  {
  }

  predicate Publishes(w: World, j: Id, command: Command) {
    && j in w.jobs && w.jobs[j].rows.approval.Some?
    && Published(w.jobs[j].rows.approval.value, w.jobs[j].rows.job)
    && w.jobs[j].rows.approval.value.command == command
  }

  lemma CommandKeptByEvent(cfg: Config, w: World, step: Step, j: Id)
    requires j in w.jobs && SlotOk(cfg, w.jobs[j])
    requires var r := w.jobs[j].rows; r.approval.Some? && Published(r.approval.value, r.job)
    ensures var after := StepOn(cfg, w, step, j).rows;
      && after.approval.Some? && after.approval.value.command == w.jobs[j].rows.approval.value.command
      && after.approval.value.status != Staged && after.approval.value.status != Cancelled
  {
    if step.At? {
      if w.jobs[j].rows.approval.value.status == Pending {
        PendingEventsKeepCommand(cfg, j, w.jobs[j], w.cases, step.event);
      } else {
        TerminalEventsDoNothing(cfg, j, w.jobs[j], w.cases, step.event);
      }
    }
  }

  lemma NeitherStagedNorCancelled(cfg: Config, s: Slot)
    requires SlotOk(cfg, s) && s.rows.approval.Some?
    requires s.rows.approval.value.status != Staged && s.rows.approval.value.status != Cancelled
    ensures Published(s.rows.approval.value, s.rows.job)
  {
  }

  lemma CommandKeptByStep(cfg: Config, w: World, step: Step, j: Id, command: Command)
    requires WorldOk(cfg, w) && Publishes(w, j, command)
    ensures Publishes(Apply(cfg, w, step), j, command)
  {
    CommandKeptByEvent(cfg, w, step, j);
    ApplyKeeps(cfg, w, step);
    NeitherStagedNorCancelled(cfg, StepOn(cfg, w, step, j));
  }

  /** Once published, a command is never replaced, so the command executed is the command published. */
  lemma {:induction false} PublishedCommandsStand(cfg: Config, w: World, more: seq<Step>, j: Id, command: Command)
    requires WorldOk(cfg, w)
    ensures WorldOk(cfg, Run(cfg, w, more))
    ensures Publishes(w, j, command) ==> Publishes(Run(cfg, w, more), j, command)
  {
    if more != [] {
      var n := |more| - 1;
      PublishedCommandsStand(cfg, w, more[..n], j, command);
      ApplyKeeps(cfg, Run(cfg, w, more[..n]), more[n]);
      if Publishes(w, j, command) {
        CommandKeptByStep(cfg, Run(cfg, w, more[..n]), more[n], j, command);
      }
    }
  }

  // ---------------------------------------------------------------- what an approval executes

  /** The business effect of a command, seen in the tables; tables it does not name stay as they are. */
  ghost predicate Carried(j: Id, c: Command, before: Store, after: Store, l: Lookups) {
    match c.args
    case FindCustomerArgs(_, _) =>
      && after.cases == before.cases && after.rows.effects == before.rows.effects
      && after.rows.caseId == before.rows.caseId && after.rows.artifacts == before.rows.artifacts
    case CreateCaseArgs(_) =>
      && after.rows.artifacts == before.rows.artifacts
      && after.rows.caseId.Some? && after.rows.caseId.value in after.cases
      && after.cases[after.rows.caseId.value].tenant == before.rows.job.tenant
      && (if before.rows.caseId.Some? then
            && after.cases == before.cases && after.rows.caseId == before.rows.caseId
            && after.rows.effects == before.rows.effects
          else
            && after.rows.caseId.value !in before.cases
            && after.cases == before.cases[after.rows.caseId.value
                 := Case(before.rows.job.tenant, Some(j), c.knownFields, [WasCreated])]
            && after.rows.effects == before.rows.effects + [CaseCreated(after.rows.caseId.value)])
    case UpdateCaseArgs(id) =>
      && id in before.cases && before.cases[id].tenant == before.rows.job.tenant
      && after.cases == before.cases[id
           := before.cases[id].(fields := before.cases[id].fields + c.knownFields,
                                events := before.cases[id].events + [WereUpdated(c.knownFields.Keys)])]
      && after.rows.caseId == before.rows.caseId && after.rows.artifacts == before.rows.artifacts
      && after.rows.effects == before.rows.effects + [FieldsUpdated(id)]
    case ReplyDraftArgs(_) =>
      && after.cases == before.cases && after.rows.caseId == before.rows.caseId
      && Kept(before.rows, after.rows, ReplyDraft, l) && DraftSays(c, before.rows, after.rows, l)
    case ReviewArgs(note) =>
      && after.cases == before.cases && after.rows.caseId == before.rows.caseId
      && Kept(before.rows, after.rows, ReviewFlag, l) && FlagSays(note, before.rows, after.rows)
  }

  /** The job's artifact of that kind is the one it had, or a new one under the unused identifier; no other kind
      changes. */
  predicate Kept(before: Rows, after: Rows, kind: ArtifactKind, l: Lookups) {
    && kind in after.artifacts
    && (if kind in before.artifacts then after.artifacts == before.artifacts && after.effects == before.effects
        else
          && after.artifacts[kind].id == l.newArtifact
          && after.effects == before.effects + [ArtifactCreated(kind, l.newArtifact)]
          && after.artifacts == before.artifacts[kind := after.artifacts[kind]])
  }

  /** A new draft is addressed to the contact the server had accepted for the command, and to nobody otherwise; it
      answers under the request's own subject, if that has one. */
  predicate DraftSays(c: Command, before: Rows, after: Rows, l: Lookups)
    requires ReplyDraft in after.artifacts
  {
    ReplyDraft !in before.artifacts ==>
      && after.artifacts[ReplyDraft].payload.Draft?
      && after.artifacts[ReplyDraft].payload.subject == (if l.subject == "" then "Intake reply" else l.subject)
      && after.artifacts[ReplyDraft].payload.body == "Reply draft generated for operator review."
      && var to := after.artifacts[ReplyDraft].payload.recipient;
         if to.Some? then "contact" in c.knownFields && c.knownFields["contact"] == One(Str(to.value))
         else "contact" in c.knownFields ==> !(c.knownFields["contact"].One? && c.knownFields["contact"].scalar.Str?)
  }

  /** A new flag carries the command's note, or the stock reason when it has none. */
  predicate FlagSays(note: Option<string>, before: Rows, after: Rows)
    requires ReviewFlag in after.artifacts
  {
    ReviewFlag !in before.artifacts ==>
      after.artifacts[ReviewFlag].payload
      == Flag(if note.Some? && note.value != "" then note.value else "Review requested for operator follow-up.")
  }

  lemma HandlersCarryOut(s: Store, j: Id, a: Approval, l: Lookups)
    requires Handle(s, j, a, l).Some? && a.tenant == s.rows.job.tenant
    ensures Carried(j, a.command, s, Handle(s, j, a, l).value.0, l)
  {
  }

  lemma CarriedWhateverTheJob(j: Id, c: Command, before: Store, after: Store, l: Lookups, job: Job,
                              approval: Option<Approval>)
    requires Carried(j, c, before, after, l)
    ensures Carried(j, c, before, after.(rows := after.rows.(job := job, approval := approval)), l)
  {
  }

  /** The tables after an approval are those its handler left, with the job finalized and the approval final. */
  lemma DecideExecutes(rules: Rules, s: Store, job: Id, e: Event)
    requires e.Verdict? && e.approve && Visible(s.rows, e.tenant)
    requires var a := s.rows.approval.value;
      && a.status == Pending && e.now < a.expiresAt
      && a.action == CommandAction(a.command) && a.profile == s.rows.job.profile
      && Authorized(rules, s.rows.job.profile, a.command)
    requires CanHandle(s, job, e.lookups)
    ensures var after := Decide(rules, s, job, e.tenant, e.actor, e.approve, e.now, e.lookups).store;
      var handled := Handle(s, job, s.rows.approval.value, e.lookups).value.0;
      && after == handled.(rows := handled.rows.(job := after.rows.job, approval := after.rows.approval))
      && after.rows.job.status == Succeeded
      && after.rows.job.marker
         == if CommitsSideEffect(CommandAction(s.rows.approval.value.command)) then Some(e.now) else s.rows.job.marker
  {
    HandlersKeepTheJob(s, job, s.rows.approval.value, e.lookups);
  }

  /** What the invariant says of a stored command. */
  predicate CommandSound(rules: Rules, r: Rows) {
    r.approval.Some? ==>
      var a := r.approval.value;
      && a.tenant == r.job.tenant && a.profile == r.job.profile && a.action == CommandAction(a.command)
      && Authorized(rules, r.job.profile, a.command)
  }

  lemma CommandsAreSound(cfg: Config, s: Slot)
    requires SlotOk(cfg, s)
    ensures CommandSound(cfg.rules, s.rows)
  {
  }

  /** A command carried out by its approval, and its job marked unless the command only reads. */
  ghost predicate CarriedOut(j: Id, c: Command, before: Store, after: Store, now: Time, l: Lookups) {
    && Carried(j, c, before, after, l) && after.rows.job.status == Succeeded
    && after.rows.job.marker == if c.args.FindCustomerArgs? then before.rows.job.marker else Some(now)
  }

  lemma DecideCarriesOut(rules: Rules, s: Store, job: Id, e: Event)
    requires e.Verdict? && e.approve && Visible(s.rows, e.tenant) && CommandSound(rules, s.rows)
    requires s.rows.approval.value.status == Pending && e.now < s.rows.approval.value.expiresAt
    requires CanHandle(s, job, e.lookups)
    ensures var after := Decide(rules, s, job, e.tenant, e.actor, e.approve, e.now, e.lookups).store;
      CarriedOut(job, s.rows.approval.value.command, s, after, e.now, e.lookups)
  {
    var handled := Handle(s, job, s.rows.approval.value, e.lookups).value.0;
    var after := Decide(rules, s, job, e.tenant, e.actor, e.approve, e.now, e.lookups).store;
    HandlersCarryOut(s, job, s.rows.approval.value, e.lookups);
    CarriedWhateverTheJob(job, s.rows.approval.value.command, s, handled, e.lookups, after.rows.job,
                          after.rows.approval);
    DecideExecutes(rules, s, job, e);
  }

  /** An approval in time carries out exactly the published command, and marks the job unless it only reads. */
  lemma ApprovalCarriesOutTheCommand(cfg: Config, job: Id, s: Slot, cases: Cases, e: Event)
    requires CommandSound(cfg.rules, s.rows) && e.Verdict? && e.approve && Visible(s.rows, e.tenant)
    requires s.rows.approval.value.status == Pending && e.now < s.rows.approval.value.expiresAt
    requires CanHandle(Store(s.rows, cases), job, e.lookups)
    ensures var (after, afterCases) := Happen(cfg, job, s, cases, e);
      CarriedOut(job, s.rows.approval.value.command, Store(s.rows, cases), Store(after.rows, afterCases), e.now,
                 e.lookups)
  {
    DecideCarriesOut(cfg.rules, Store(s.rows, cases), job, e);
  }
}
