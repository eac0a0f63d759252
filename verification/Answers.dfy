/** What a decision answers, and what it leaves in the rows, told without the service's own words for it
    (app/domain/approvals.py, app/domain/approval_repository.py). */
module Answers {
  import opened Values
  import opened Profiles
  import opened Commands
  import opened JobResults
  import opened Durable
  import opened Machine
  import opened Invariants
  import opened Fencing
  import opened Reachability
  import opened Decisions

  // ---------------------------------------------------------------- the stored result

  function OutcomeWord(s: ApprovalStatus): string {
    if s == Approved then "tool_result" else if s == Rejected then "approval_rejected" else "approval_expired"
  }

  function StatusWord(s: ApprovalStatus): string {
    if s == Approved then "approved" else if s == Rejected then "rejected" else "expired"
  }

  /** The stored result names the decided approval, its final status and its case. */
  predicate Names(result: Option<Result>, a: Approval) {
    && result.Some?
    && {"approval_id", "approval_status", "business_outcome", "result_reference"} <= result.value.Keys
    && result.value["approval_id"] == JInt(a.id)
    && result.value["approval_status"] == JStr(StatusWord(a.status))
    && result.value["business_outcome"] == JStr(OutcomeWord(a.status))
    && result.value["result_reference"]
       == JObj(if a.caseId.Some? then map["case_id" := JInt(a.caseId.value)] else map[])
  }

  const RUN_FACTS := [
    "reason", "steps", "execution_path", "routing_status", "routing_reason", "missing_required_fields"]

  /** Beside the decision it keeps what the run stored, and nothing else. */
  predicate KeepsRun(before: Option<Result>, after: Option<Result>) {
    && after.Some?
    && (forall k <- RUN_FACTS ::
          && (k in after.value <==> before.Some? && k in before.value)
          && (k in after.value ==> before.Some? && k in before.value && after.value[k] == before.value[k]))
    && (forall k <- after.value ::
          k in RUN_FACTS || k in ["approval_id", "approval_status", "business_outcome", "result_reference"])
  }

  /** The job of a decided approval: failed by its timeout or succeeded, with a result that says so. */
  predicate Closed(before: Job, after: Job, a: Approval, now: Time) {
    && after == before.(status := if a.status == Expired then Failed else Succeeded,
                        error := if a.status == Expired then Some(ApprovalTimedOut) else None,
                        finishedAt := Some(now), lease := None, result := after.result)
    && Names(after.result, a) && KeepsRun(before.result, after.result)
  }

  lemma WordsAgree(s: ApprovalStatus)
    requires IsFinal(s)
    ensures FinalBusinessOutcome(s) == OutcomeWord(s) && ApprovalText(s) == StatusWord(s)
  {
  }

  lemma DecidedResultNames(result: Option<Result>, a: Approval)
    ensures Names(Some(DecidedResult(result, OutcomeWord(a.status), a.id, StatusWord(a.status), a.caseId)), a)
  {
  }

  lemma DecidedResultKeeps(result: Option<Result>, outcome: string, id: Id, status: string, caseId: Option<Id>)
    ensures KeepsRun(result, Some(DecidedResult(result, outcome, id, status, caseId)))
  {
    var after := DecidedResult(result, outcome, id, status, caseId);
    forall k | k in after && k !in RUN_FACTS
      ensures k in ["approval_id", "approval_status", "business_outcome", "result_reference"]
    {
      assert k !in PRESERVED;
    }
  }

  lemma FinalizingCloses(a: Approval, job: Job, now: Time)
    requires IsFinal(a.status) && job.status == AwaitingApproval
    ensures FinalizeJob(a, job, now).Some? && Closed(job, FinalizeJob(a, job, now).value, a, now)
  {
    WordsAgree(a.status);
    DecidedResultNames(job.result, a);
    DecidedResultKeeps(job.result, OutcomeWord(a.status), a.id, StatusWord(a.status), a.caseId);
  }

  // ---------------------------------------------------------------- the three decisions

  function ExpiredBy(a: Approval, now: Time): Approval {
    a.(status := Expired, decidedAt := Some(now), decidedBy := Some(SystemTimeout), events := a.events + [WasExpired])
  }

  /** A final decision settled on a parked job closes it. */
  lemma SettlingCloses(s: Store, a: Approval, now: Time, response: Response, failed: Store)
    requires IsFinal(a.status) && s.rows.job.status == AwaitingApproval
    ensures var end := Settle(s, a, now, response, failed);
      && end.store == s.(rows := s.rows.(job := end.store.rows.job, approval := Some(a)))
      && Closed(s.rows.job, end.store.rows.job, a, now) && end.response == response
  {
    FinalizingCloses(a, s.rows.job, now);
  }

  lemma LateSettles(rules: Rules, s: Store, j: Id, tenant: Id, actor: Id, approve: bool, now: Time, l: Lookups)
    requires Visible(s.rows, tenant) && s.rows.approval.value.status == Pending
    requires s.rows.approval.value.expiresAt <= now
    ensures var a := ExpiredBy(s.rows.approval.value, now);
      Decide(rules, s, j, tenant, actor, approve, now, l)
      == Settle(s, a, now, if approve then ExpiredError else Decided(a.id, Expired, a.action, now, a.caseId,
                                                                     a.executedAt.Some?), s)
  {
  }

  lemma RejectionSettles(rules: Rules, s: Store, j: Id, tenant: Id, actor: Id, now: Time, l: Lookups)
    requires Visible(s.rows, tenant) && s.rows.approval.value.status == Pending
    requires now < s.rows.approval.value.expiresAt
    ensures var was := s.rows.approval.value;
      var a := was.(status := Rejected, decidedAt := Some(now), decidedBy := Some(Operator(actor)),
                    events := was.events + [WasRejected]);
      Decide(rules, s, j, tenant, actor, false, now, l)
      == Settle(s, a, now, Decided(a.id, Rejected, a.action, now, a.caseId, a.executedAt.Some?), s)
  {
  }

  /** A pending approval of the invariant: nothing executed, its job parked. */
  lemma PendingIsParked(cfg: Config, s: Slot)
    requires SlotOk(cfg, s) && s.rows.approval.Some? && s.rows.approval.value.status == Pending
    ensures s.rows.job.status == AwaitingApproval && s.rows.approval.value.executedAt.None?
    ensures s.rows.approval.value.tenant == s.rows.job.tenant && CommandSound(cfg.rules, s.rows)
  {
  }

  lemma LateDecisions(cfg: Config, j: Id, s: Slot, cases: Cases, tenant: Id, actor: Id, approve: bool, now: Time,
                      l: Lookups)
    requires SlotOk(cfg, s) && Visible(s.rows, tenant) && s.rows.approval.value.status == Pending
    requires s.rows.approval.value.expiresAt <= now
    ensures var a := ExpiredBy(s.rows.approval.value, now);
      var end := Decide(cfg.rules, Store(s.rows, cases), j, tenant, actor, approve, now, l);
      && end.store == Store(s.rows.(job := end.store.rows.job, approval := Some(a)), cases)
      && Closed(s.rows.job, end.store.rows.job, a, now)
      && end.response == if approve then ExpiredError else Decided(a.id, Expired, a.action, now, a.caseId, false)
  {
    var store, a := Store(s.rows, cases), ExpiredBy(s.rows.approval.value, now);
    PendingIsParked(cfg, s);
    LateSettles(cfg.rules, store, j, tenant, actor, approve, now, l);
    SettlingCloses(
      store, a, now, if approve then ExpiredError else Decided(a.id, Expired, a.action, now, a.caseId, false), store);
  }

  lemma Rejections(cfg: Config, j: Id, s: Slot, cases: Cases, tenant: Id, actor: Id, now: Time, l: Lookups)
    requires SlotOk(cfg, s) && Visible(s.rows, tenant) && s.rows.approval.value.status == Pending
    requires now < s.rows.approval.value.expiresAt
    ensures var was := s.rows.approval.value;
      var a := was.(status := Rejected, decidedAt := Some(now), decidedBy := Some(Operator(actor)),
                    events := was.events + [WasRejected]);
      var end := Decide(cfg.rules, Store(s.rows, cases), j, tenant, actor, false, now, l);
      && end.store == Store(s.rows.(job := end.store.rows.job, approval := Some(a)), cases)
      && Closed(s.rows.job, end.store.rows.job, a, now)
      && end.response == Decided(a.id, Rejected, a.action, now, a.caseId, false)
  {
    var store, was := Store(s.rows, cases), s.rows.approval.value;
    var a := was.(status := Rejected, decidedAt := Some(now), decidedBy := Some(Operator(actor)),
                  events := was.events + [WasRejected]);
    PendingIsParked(cfg, s);
    RejectionSettles(cfg.rules, store, j, tenant, actor, now, l);
    SettlingCloses(store, a, now, Decided(a.id, Rejected, a.action, now, a.caseId, false), store);
  }

  /** Which commands can be carried out now: a case is only needed where the command refers to one, its customer and
      source only where it has to be made. */
  predicate Feasible(r: Rows, cases: Cases, l: Lookups, c: Command) {
    match c.args
    case FindCustomerArgs(_, _) => true
    case CreateCaseArgs(_) => r.caseId.Some? || (l.customerKnown && l.sourceReadable && l.newCase !in cases)
    case UpdateCaseArgs(id) => id in cases && cases[id].tenant == r.job.tenant
    case ReplyDraftArgs(id) =>
      l.sourceReadable && (id.Some? ==> id.value in cases && cases[id.value].tenant == r.job.tenant)
    case ReviewArgs(_) => true
  }

  /** The case an approval ends up linked to: the one its command made, reused or named. */
  function LinkedCase(c: Command, before: Option<Id>, after: Rows): Option<Id> {
    match c.args
    case CreateCaseArgs(_) => after.caseId
    case UpdateCaseArgs(id) => Some(id)
    case ReplyDraftArgs(id) => if id.Some? then id else before
    case _ => before
  }

  /** The record of the job leads to its own tenant's case (`CasesMatch`). */
  predicate RecordLeads(r: Rows, cases: Cases) {
    r.caseId.Some? ==> r.caseId.value in cases && cases[r.caseId.value].tenant == r.job.tenant
  }

  lemma HandlesExactly(s: Store, j: Id, a: Approval, l: Lookups)
    requires a.tenant == s.rows.job.tenant && RecordLeads(s.rows, s.cases)
    ensures Handle(s, j, a, l).Some? <==> Feasible(s.rows, s.cases, l, a.command)
    ensures Handle(s, j, a, l).Some? ==>
      var (after, b) := Handle(s, j, a, l).value;
      && b == a.(caseId := LinkedCase(a.command, a.caseId, after.rows))
      && after.rows.job == s.rows.job && after.rows.approval == s.rows.approval
  {
  }

  /** The approval as its execution leaves it. */
  function ApprovedWith(was: Approval, link: Option<Id>, actor: Id, now: Time): Approval {
    was.(status := Approved, decidedAt := Some(now), decidedBy := Some(Operator(actor)), executedAt := Some(now),
         caseId := link, events := was.events + [WasApproved, WasExecuted])
  }

  lemma ApprovalSettles(rules: Rules, s: Store, j: Id, tenant: Id, actor: Id, now: Time, l: Lookups)
    requires Visible(s.rows, tenant) && s.rows.approval.value.status == Pending
    requires now < s.rows.approval.value.expiresAt && s.rows.job.status == AwaitingApproval
    requires CommandSound(rules, s.rows)
    ensures var was := s.rows.approval.value;
      var handled := Handle(s, j, was, l);
      Decide(rules, s, j, tenant, actor, true, now, l)
      == if handled.None? then DecideEnd(s, ExecutionError)
         else
           var (after, b) := handled.value;
           var marked := if CommitsSideEffect(was.action)
                         then after.(rows := after.rows.(job := after.rows.job.(marker := Some(now)))) else after;
           Settle(marked, ApprovedBy(b, actor, now), now, ResponseOf(ApprovedBy(b, actor, now)), s)
  {
  }

  lemma Approvals(rules: Rules, s: Store, j: Id, tenant: Id, actor: Id, now: Time, l: Lookups)
    requires Visible(s.rows, tenant) && s.rows.approval.value.status == Pending
    requires now < s.rows.approval.value.expiresAt && s.rows.job.status == AwaitingApproval
    requires CommandSound(rules, s.rows) && RecordLeads(s.rows, s.cases)
    ensures var was := s.rows.approval.value;
      var end := Decide(rules, s, j, tenant, actor, true, now, l);
      if !Feasible(s.rows, s.cases, l, was.command) then end == DecideEnd(s, ExecutionError)
      else
        var a := ApprovedWith(was, LinkedCase(was.command, was.caseId, end.store.rows), actor, now);
        && end.store.rows.approval == Some(a)
        && Closed(s.rows.job.(marker := end.store.rows.job.marker), end.store.rows.job, a, now)
        && end.response == Decided(a.id, Approved, a.action, now, a.caseId, true)
  {
    var was := s.rows.approval.value;
    HandlesExactly(s, j, was, l);
    ApprovalSettles(rules, s, j, tenant, actor, now, l);
    if Handle(s, j, was, l).Some? {
      var (after, b) := Handle(s, j, was, l).value;
      var marked := if CommitsSideEffect(was.action)
                    then after.(rows := after.rows.(job := after.rows.job.(marker := Some(now)))) else after;
      SettlingCloses(marked, ApprovedBy(b, actor, now), now, ResponseOf(ApprovedBy(b, actor, now)), s);
    }
  }

  /** The guards before an execution, over any rows at all: a stored command that is not its approval's action, or that
      the job's profile does not authorize any more, is a conflict, and one frozen under another profile is not
      executed; either way nothing is written. (No history leads there.) */
  lemma UnsoundCommandsAreRefused(rules: Rules, s: Store, j: Id, tenant: Id, actor: Id, now: Time, l: Lookups)
    requires Visible(s.rows, tenant) && s.rows.approval.value.status == Pending
    requires now < s.rows.approval.value.expiresAt
    ensures var a := s.rows.approval.value;
      var end := Decide(rules, s, j, tenant, actor, true, now, l);
      if a.action != CommandAction(a.command) || !Authorized(rules, s.rows.job.profile, a.command) then
        end == DecideEnd(s, ConflictError)
      else a.profile != s.rows.job.profile ==> end == DecideEnd(s, ExecutionError)
  {
  }

  // ---------------------------------------------------------------- over every history

  /** The tenant's approval was published: an operator may see it. */
  predicate InSight(r: Rows, tenant: Id) {
    && r.approval.Some? && r.approval.value.tenant == tenant
    && r.approval.value.status in {Pending, Approved, Rejected, Expired}
  }

  lemma InSightIsVisible(cfg: Config, s: Slot, tenant: Id)
    requires SlotOk(cfg, s)
    ensures InSight(s.rows, tenant) <==> Visible(s.rows, tenant)
  {
  }

  /** The answer tells the decision that the rows now hold: whose, of what, when, with which case, and whether it was
      executed; a fresh one is made now, by the operator or the timeout, and a repeated one is the one there was. */
  predicate Tells(before: Approval, a: Approval, answer: Response, actor: Id, approve: bool, now: Time)
    requires answer.Decided?
  {
    && answer.approval == before.id == a.id && answer.action == before.action == a.action
    && answer.status == a.status && a.decidedAt == Some(answer.decidedAt) && answer.caseId == a.caseId
    && (answer.executed <==> answer.status == Approved) && (answer.status == Approved <==> approve)
    && (answer.status == Approved || answer.status == Rejected || answer.status == Expired)
    && (if before.status == Pending then
          && answer.decidedAt == now && (answer.status == Expired <==> before.expiresAt <= now)
          && a.decidedBy == Some(if answer.status == Expired then SystemTimeout else Operator(actor))
        else a == before)
  }

  lemma SettledTells(cfg: Config, j: Id, s: Slot, cases: Cases, tenant: Id, actor: Id, approve: bool, now: Time,
                     l: Lookups)
    requires SlotOk(cfg, s) && !(InSight(s.rows, tenant) && s.rows.approval.value.status == Pending)
    ensures var end := Decide(cfg.rules, Store(s.rows, cases), j, tenant, actor, approve, now, l);
      && end.store == Store(s.rows, cases)
      && (if !InSight(s.rows, tenant) then end.response == NotFoundError
          else if approve <==> s.rows.approval.value.status == Approved then
            end.response.Decided?
            && Tells(s.rows.approval.value, s.rows.approval.value, end.response, actor, approve, now)
          else end.response == ConflictError)
  {
    InSightIsVisible(cfg, s, tenant);
    SettledAnswers(cfg, j, s, cases, tenant, actor, approve, now, l);
  }

  /** What a decision changes of its approval: the final status with its events, and on approval execution and case. */
  predicate Decides(a: Approval, b: Approval, after: Rows) {
    && b == a.(status := b.status, decidedAt := b.decidedAt, decidedBy := b.decidedBy, executedAt := b.executedAt,
               caseId := b.caseId, events := b.events)
    && b.caseId == (if b.status == Approved then LinkedCase(a.command, a.caseId, after) else a.caseId)
    && b.executedAt == (if b.status == Approved then b.decidedAt else a.executedAt)
    && b.events == a.events + (match b.status
                               case Approved => [WasApproved, WasExecuted]
                               case Rejected => [WasRejected]
                               case _ => [WasExpired])
  }

  /** Every answer of every decision in every reachable world. */
  ghost predicate Answers(j: Id, r: Rows, cases: Cases, end: DecideEnd, tenant: Id, actor: Id, approve: bool,
                          now: Time, l: Lookups) {
    if !InSight(r, tenant) then end == DecideEnd(Store(r, cases), NotFoundError)
    else
      var a := r.approval.value;
      if a.status != Pending && (approve <==> a.status != Approved) then
        end == DecideEnd(Store(r, cases), ConflictError)
      else if a.status != Pending then
        && end.store == Store(r, cases) && end.response.Decided?
        && Tells(a, a, end.response, actor, approve, now)
      else if a.expiresAt > now && approve && !Feasible(r, cases, l, a.command) then
        end == DecideEnd(Store(r, cases), ExecutionError)
      else
        && end.store.rows.approval.Some?
        && var b := end.store.rows.approval.value;
        && Closed(r.job.(marker := end.store.rows.job.marker), end.store.rows.job, b, now)
        && Decides(a, b, end.store.rows)
        && (if b.status == Approved then CarriedOut(j, a.command, Store(r, cases), end.store, now, l)
            else end.store == Store(r.(job := end.store.rows.job, approval := Some(b)), cases))
        && (if a.expiresAt <= now && approve then end.response == ExpiredError && b == ExpiredBy(a, now)
            else end.response.Decided? && Tells(a, b, end.response, actor, approve, now))
  }

  lemma ApprovalAnswers(cfg: Config, j: Id, s: Slot, cases: Cases, tenant: Id, actor: Id, now: Time, l: Lookups)
    requires SlotOk(cfg, s) && RecordLeads(s.rows, cases) && Visible(s.rows, tenant) && InSight(s.rows, tenant)
    requires s.rows.approval.value.status == Pending && now < s.rows.approval.value.expiresAt
    ensures var end := Decide(cfg.rules, Store(s.rows, cases), j, tenant, actor, true, now, l);
      Answers(j, s.rows, cases, end, tenant, actor, true, now, l)
  {
    var store := Store(s.rows, cases);
    PendingIsParked(cfg, s);
    Approvals(cfg.rules, store, j, tenant, actor, now, l);
    HandlesExactly(store, j, s.rows.approval.value, l);
    if CanHandle(store, j, l) {
      DecideCarriesOut(cfg.rules, store, j, Verdict(tenant, actor, true, now, l));
    }
  }

  lemma RefusalAnswers(cfg: Config, j: Id, s: Slot, cases: Cases, tenant: Id, actor: Id, approve: bool, now: Time,
                       l: Lookups)
    requires SlotOk(cfg, s) && Visible(s.rows, tenant) && InSight(s.rows, tenant)
    requires s.rows.approval.value.status == Pending && (now < s.rows.approval.value.expiresAt ==> !approve)
    ensures var end := Decide(cfg.rules, Store(s.rows, cases), j, tenant, actor, approve, now, l);
      Answers(j, s.rows, cases, end, tenant, actor, approve, now, l)
  {
    if s.rows.approval.value.expiresAt <= now {
      LateDecisions(cfg, j, s, cases, tenant, actor, approve, now, l);
    } else {
      Rejections(cfg, j, s, cases, tenant, actor, now, l);
    }
  }

  lemma SlotAnswers(cfg: Config, j: Id, s: Slot, cases: Cases, tenant: Id, actor: Id, approve: bool, now: Time,
                    l: Lookups)
    requires SlotOk(cfg, s) && RecordLeads(s.rows, cases)
    ensures var end := Decide(cfg.rules, Store(s.rows, cases), j, tenant, actor, approve, now, l);
      Answers(j, s.rows, cases, end, tenant, actor, approve, now, l)
  {
    InSightIsVisible(cfg, s, tenant);
    if !(InSight(s.rows, tenant) && s.rows.approval.value.status == Pending) {
      SettledTells(cfg, j, s, cases, tenant, actor, approve, now, l);
    } else if approve && now < s.rows.approval.value.expiresAt {
      ApprovalAnswers(cfg, j, s, cases, tenant, actor, now, l);
    } else {
      RefusalAnswers(cfg, j, s, cases, tenant, actor, approve, now, l);
    }
  }

  /** In every reachable world every decision gets exactly the answer its approval's status, deadline and command call
      for, the answer tells what the rows hold afterwards, and a job is closed exactly with its approval. */
  lemma DecisionsAnswerExactly(cfg: Config, w: World, history: seq<Step>, j: Id, tenant: Id, actor: Id, approve: bool,
                               now: Time, l: Lookups)
    requires Fresh(w) && j in Run(cfg, w, history).jobs
    ensures var at := Run(cfg, w, history);
      var end := Decide(cfg.rules, Store(at.jobs[j].rows, at.cases), j, tenant, actor, approve, now, l);
      Answers(j, at.jobs[j].rows, at.cases, end, tenant, actor, approve, now, l)
  {
    SlotOf(cfg, w, history, j);
    var at := Run(cfg, w, history);
    SlotAnswers(cfg, j, at.jobs[j], at.cases, tenant, actor, approve, now, l);
  }

  // ---------------------------------------------------------------- expiry

  /** A sweep changes a job exactly when it could lock it and its pending approval is due; then approval and job are
      closed by the timeout together. */
  lemma ExpiriesExactly(cfg: Config, w: World, history: seq<Step>, j: Id, now: Time, unlocked: set<Id>)
    requires Fresh(w) && j in Run(cfg, w, history).jobs
    ensures var at := Run(cfg, w, history);
      var before, after := at.jobs[j], StepOn(cfg, at, ExpireApprovals(now, unlocked), j);
      var r, q := before.rows, after.rows;
      && (after != before
          <==> && j in unlocked && r.approval.Some? && r.approval.value.status == Pending
               && r.approval.value.expiresAt <= now)
      && (after != before ==>
            && after == before.(rows := r.(job := q.job, approval := Some(ExpiredBy(r.approval.value, now))))
            && Closed(r.job, q.job, ExpiredBy(r.approval.value, now), now))
  {
    ReachableOk(cfg, w, history);
    var at := Run(cfg, w, history);
    NoSweepConflicts(cfg, at, now, unlocked);
    SweptExactly(cfg, at.jobs[j], now);
  }

  lemma NoSweepConflicts(cfg: Config, w: World, now: Time, unlocked: set<Id>)
    requires WorldOk(cfg, w)
    ensures !SweepConflicts(w, now, unlocked)
  {
    forall i <- w.jobs ensures ExpireRows(w.jobs[i].rows, now).Some? {
      SweepKeeps(cfg, w.jobs[i], now);
    }
  }

  lemma SweptExactly(cfg: Config, s: Slot, now: Time)
    requires SlotOk(cfg, s)
    ensures var r, q := s.rows, Swept(s, now).rows;
      && (Swept(s, now) != s
          <==> r.approval.Some? && r.approval.value.status == Pending && r.approval.value.expiresAt <= now)
      && (Swept(s, now) != s ==>
            && Swept(s, now) == s.(rows := r.(job := q.job, approval := Some(ExpiredBy(r.approval.value, now))))
            && Closed(r.job, q.job, ExpiredBy(r.approval.value, now), now))
  {
    if Due(s.rows, now) {
      FinalizingCloses(ExpiredBy(s.rows.approval.value, now), s.rows.job, now);
    }
  }

  // ---------------------------------------------------------------- what a closed job tells for good

  /** A decided approval is named by its job's result. */
  predicate Told(r: Rows) {
    r.approval.Some? && IsFinal(r.approval.value.status) ==> Names(r.job.result, r.approval.value)
  }

  lemma EventTells(cfg: Config, j: Id, s: Slot, cases: Cases, e: Event)
    requires SlotOk(cfg, s) && RecordLeads(s.rows, cases) && Told(s.rows)
    ensures Told(Happen(cfg, j, s, cases, e).0.rows)
  {
    if s.rows.approval.Some? && s.rows.approval.value.status == Pending && e.Verdict? {
      SlotAnswers(cfg, j, s, cases, e.tenant, e.actor, e.approve, e.now, e.lookups);
    } else if e.Verdict? {
      NothingPending(cfg.rules, Store(s.rows, cases), j, e.tenant, e.actor, e.approve, e.now, e.lookups);
    } else if s.rows.approval.Some? && IsFinal(s.rows.approval.value.status) {
      TerminalEventsDoNothing(cfg, j, s, cases, e);
    } else {
      NobodyElseDecides(cfg, j, s, cases, e);
    }
  }

  lemma NobodyElseDecides(cfg: Config, j: Id, s: Slot, cases: Cases, e: Event)
    requires !e.Verdict? && (s.rows.approval.Some? ==> !IsFinal(s.rows.approval.value.status))
    ensures var q := Happen(cfg, j, s, cases, e).0.rows; q.approval.Some? ==> !IsFinal(q.approval.value.status)
  {
  }

  lemma SweepsTell(cfg: Config, s: Slot, now: Time, delay: nat)
    requires SlotOk(cfg, s) && Told(s.rows)
    ensures Told(Recovered(cfg, s, now, delay).rows) && Told(Swept(s, now).rows)
  {
    SweptExactly(cfg, s, now);
  }

  lemma StepTells(cfg: Config, w: World, step: Step, j: Id)
    requires j in w.jobs && SlotOk(cfg, w.jobs[j]) && RecordLeads(w.jobs[j].rows, w.cases) && Told(w.jobs[j].rows)
    ensures Told(StepOn(cfg, w, step, j).rows)
  {
    match step
    case Enqueue(_, _, _, _, _) =>
    case At(i, e) => EventTells(cfg, j, w.jobs[j], w.cases, e);
    case RecoverLeases(now, delay, _) => SweepsTell(cfg, w.jobs[j], now, delay);
    case ExpireApprovals(now, _) => SweepsTell(cfg, w.jobs[j], now, 0);
  }

  /** In every reachable world the result of a decided job names the approval, its status, outcome and case. */
  lemma {:induction false} DecidedJobsTell(cfg: Config, w: World, history: seq<Step>, j: Id)
    requires Fresh(w) && j in Run(cfg, w, history).jobs
    ensures Told(Run(cfg, w, history).jobs[j].rows)
  {
    var n := |history| - 1;
    var before := Run(cfg, w, history[..n]);
    if j in before.jobs {
      DecidedJobsTell(cfg, w, history[..n], j);
      ReachableOk(cfg, w, history[..n]);
      StepTells(cfg, before, history[n], j);
    }
  }
}
