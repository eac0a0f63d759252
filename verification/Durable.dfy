/** The durable rows of one job and the transactions over them
    (app/domain/job_repository.py, app/domain/approval_repository.py, app/tools/postgres.py). */
module Durable {
  import opened Values
  import opened Profiles
  import Policy
  import opened Commands
  import opened JobResults

  datatype JobStatus = Queued | Running | AwaitingApproval | Succeeded | Failed | FailedUncertain

  datatype ErrorCode =
    | ProviderUnavailable | ProviderRequestRejected | ToolFailed | RetryExhausted | SideEffectCommitted
    | UnexpectedAfterSideEffect | WorkerError | AgentFailed | AgentFailedAfterSideEffect | LeaseExpired
    | LeaseExpiredAfterSideEffect | CapabilityUnavailable | SnapshotIncompatible | ApprovalTimedOut
    | GatewayTimeout | WorkerTimeout

  /** An `agent_jobs` row. The profile snapshot stands for itself and for its digest. */
  datatype Job = Job(
    tenant: Id, trace: Id, profile: Profile,
    status: JobStatus, attempt: nat, availableAt: Time, lease: Option<Time>,
    startedAt: Option<Time>, finishedAt: Option<Time>, marker: Option<Time>,
    result: Option<Result>, error: Option<ErrorCode>)

  datatype ApprovalStatus = Staged | Cancelled | Pending | Approved | Rejected | Expired

  datatype ApprovalEvent =
    | WasRequested | WasReplaced | WasCancelled | WasApproved | WasExecuted | WasRejected | WasExpired

  datatype Actor = SystemTimeout | Operator(ref: Id)

  /** An `approvals` row with its events. One row exists per job, so the job identifies it. */
  datatype Approval = Approval(
    id: Id, tenant: Id, status: ApprovalStatus, action: Action, command: Command, policyReason: Policy.Reason,
    profile: Profile, expiresAt: Time, decidedAt: Option<Time>, decidedBy: Option<Actor>,
    executedAt: Option<Time>, caseId: Option<Id>, events: seq<ApprovalEvent>)

  datatype ArtifactKind = ReplyDraft | ReviewFlag

  /** What an artifact row holds, by kind. */
  datatype Payload = Draft(recipient: Option<string>, subject: string, body: string) | Flag(reason: string)

  datatype Artifact = Artifact(id: Id, payload: Payload)

  /** History: the business effects a job's transactions committed. */
  datatype Effect = CaseCreated(id: Id) | ArtifactCreated(kind: ArtifactKind, artifact: Id) | FieldsUpdated(updated: Id)

  /** All rows that reference one job: `caseId` is its idempotency record's case column. */
  datatype Rows = Rows(
    job: Job, approval: Option<Approval>, caseId: Option<Id>, artifacts: map<ArtifactKind, Artifact>,
    effects: seq<Effect>)

  datatype CaseEvent = WasCreated | WereUpdated(names: set<string>)

  /** An `intake_cases` row with its events; `origin` records the job whose transaction inserted it. */
  datatype Case = Case(tenant: Id, origin: Option<Id>, fields: map<string, Value>, events: seq<CaseEvent>)

  type Cases = map<Id, Case>

  predicate IsTerminal(s: JobStatus) { s == Succeeded || s == Failed || s == FailedUncertain }

  /** The fence of every worker transaction. */
  predicate Owned(job: Job, tenant: Id, attempt: nat) {
    job.tenant == tenant && job.attempt == attempt && job.status == Running
  }

  // ---------------------------------------------------------------- job repository

  function NewJob(tenant: Id, trace: Id, profile: Profile, now: Time): Job {
    Job(tenant, trace, profile, Queued, 0, now, None, None, None, None, None, None)
  }

  predicate Claimable(job: Job, now: Time, excluded: set<Id>) {
    job.status == Queued && job.availableAt <= now && job.tenant !in excluded
  }

  function ClaimJob(job: Job, now: Time, until: Time): Job {
    job.(status := Running, attempt := job.attempt + 1,
         startedAt := if job.startedAt.Some? then job.startedAt else Some(now), lease := Some(until))
  }

  function CancelStaged(a: Option<Approval>): Option<Approval> {
    if a.Some? && a.value.status == Staged then
      Some(a.value.(status := Cancelled, events := a.value.events + [WasCancelled]))
    else a
  }

  function EndJob(job: Job, status: JobStatus, now: Time, result: Option<Result>, error: Option<ErrorCode>): Job {
    job.(status := status, finishedAt := Some(now), lease := None, result := result, error := error)
  }

  predicate LeaseRanOut(job: Job, now: Time) {
    job.status == Running && job.lease.Some? && job.lease.value <= now
  }

  /** One row of `recover_expired_leases`. */
  function RecoverRows(r: Rows, now: Time, maxRetries: nat, delay: nat): Rows {
    if !LeaseRanOut(r.job, now) then r
    else
      var job := r.job.(lease := None);
      if job.marker.Some? then
        r.(job := job.(status := FailedUncertain, error := Some(LeaseExpiredAfterSideEffect), finishedAt := Some(now)),
           approval := CancelStaged(r.approval))
      else if job.attempt <= maxRetries then
        r.(job := job.(status := Queued, availableAt := now + delay, error := Some(LeaseExpired)))
      else
        r.(job := job.(status := Failed, error := Some(RetryExhausted), finishedAt := Some(now)),
           approval := CancelStaged(r.approval))
  }

  /** `_mark_terminal`; None is the raised lease-lost error. */
  function MarkTerminal(r: Rows, tenant: Id, attempt: nat, status: JobStatus, now: Time,
                        result: Option<Result>, error: Option<ErrorCode>): Option<Rows> {
    if !Owned(r.job, tenant, attempt) then None
    else Some(r.(job := EndJob(r.job, status, now, result, error), approval := CancelStaged(r.approval)))
  }

  /** `record_awaiting_approval_result`. */
  function Park(r: Rows, tenant: Id, attempt: nat, result: Result): Option<Rows> {
    if !Owned(r.job, tenant, attempt) then None
    else if r.approval.None? || r.approval.value.status != Staged then None
    else Some(r.(
      job := r.job.(status := AwaitingApproval, finishedAt := None, lease := None, result := Some(result),
                    error := None),
      approval := Some(r.approval.value.(status := Pending))))
  }

  function ScheduleRetry(r: Rows, tenant: Id, attempt: nat, error: ErrorCode, availableAt: Time): Option<Rows> {
    if !Owned(r.job, tenant, attempt) then None
    else Some(r.(job := r.job.(status := Queued, error := Some(error), availableAt := availableAt, lease := None)))
  }

  function RenewLease(r: Rows, tenant: Id, attempt: nat, until: Time): Rows {
    if !Owned(r.job, tenant, attempt) then r else r.(job := r.job.(lease := Some(until)))
  }

  // ---------------------------------------------------------------- approval repository

  /** `create_for_running_job`; None is the raised creation conflict. */
  function CreateApproval(r: Rows, tenant: Id, attempt: nat, id: Id, command: Command, reason: Policy.Reason,
                          expiresAt: Time): Option<Rows> {
    if !Owned(r.job, tenant, attempt) then None
    else if r.approval.Some? then
      var a := r.approval.value;
      if a.status != Staged then None
      else if a.action != CommandAction(command) || a.command != command || a.policyReason != reason
              || a.profile != r.job.profile then
        Some(r.(approval := Some(a.(action := CommandAction(command), command := command, policyReason := reason,
                                    profile := r.job.profile, expiresAt := expiresAt,
                                    events := a.events + [WasReplaced]))))
      else Some(r.(approval := Some(a.(expiresAt := expiresAt))))
    else
      Some(r.(approval := Some(Approval(
        id, tenant, Staged, CommandAction(command), command, reason, r.job.profile, expiresAt,
        None, None, None, None, [WasRequested]))))
  }

  /** `_published_lifecycle_predicate` for a job-backed approval. */
  predicate Published(a: Approval, job: Job) {
    || (a.status == Pending && job.status == AwaitingApproval)
    || ((a.status == Approved || a.status == Rejected) && job.status == Succeeded)
    || (a.status == Expired && job.status == Failed)
  }

  predicate IsFinal(s: ApprovalStatus) { s == Approved || s == Rejected || s == Expired }

  function ExpireLocked(a: Approval, now: Time): Approval {
    if a.status != Pending then a
    else
      a.(status := Expired, decidedAt := Some(now), decidedBy := Some(SystemTimeout), events := a.events + [WasExpired])
  }

  function ApprovalText(s: ApprovalStatus): string {
    match s
    case Staged => "staged"
    case Cancelled => "cancelled"
    case Pending => "pending"
    case Approved => "approved"
    case Rejected => "rejected"
    case Expired => "expired"
  }

  function FinalJobStatus(s: ApprovalStatus): JobStatus { if s == Expired then Failed else Succeeded }

  function FinalBusinessOutcome(s: ApprovalStatus): string {
    if s == Approved then "tool_result" else if s == Rejected then "approval_rejected" else "approval_expired"
  }

  predicate AlreadyFinalized(a: Approval, job: Job) {
    && job.status == FinalJobStatus(a.status) && job.result.Some?
    && Lookup(job.result.value, "approval_id") == JInt(a.id)
    && Lookup(job.result.value, "approval_status") == JStr(ApprovalText(a.status))
  }

  /** `finalize_job_for_decision`; None is the raised conflict. */
  function FinalizeJob(a: Approval, job: Job, now: Time): Option<Job> {
    if !IsFinal(a.status) then None
    else if job.status != AwaitingApproval then
      if AlreadyFinalized(a, job) then Some(job) else None
    else
      Some(job.(status := FinalJobStatus(a.status),
                error := if a.status == Expired then Some(ApprovalTimedOut) else None,
                finishedAt := Some(now), lease := None,
                result := Some(DecidedResult(job.result, FinalBusinessOutcome(a.status), a.id,
                                             ApprovalText(a.status), a.caseId))))
  }

  predicate Due(r: Rows, now: Time) {
    && r.approval.Some? && r.approval.value.status == Pending && r.job.status == AwaitingApproval
    && r.approval.value.expiresAt <= now
  }

  /** One row of `expire_due`; None is a conflict, which aborts the whole sweep. */
  function ExpireRows(r: Rows, now: Time): Option<Rows> {
    if !Due(r, now) then Some(r)
    else
      var a := ExpireLocked(r.approval.value, now);
      var job := FinalizeJob(a, r.job, now);
      if job.None? then None else Some(r.(job := job.value, approval := Some(a)))
  }

  // ---------------------------------------------------------------- tool port

  datatype ToolTx =
    | CreateCaseTx(newCase: Id, customerKnown: bool, fields: map<string, Value>)
    | ArtifactTx(kind: ArtifactKind, newArtifact: Id, payload: Payload)
    | UpdateCaseTx(target: Id, changes: map<string, Value>)

  /** Rows plus the cases a transaction may touch. */
  datatype Store = Store(rows: Rows, cases: Cases)

  function MarkSideEffect(s: Store, tenant: Id, attempt: nat, now: Time): Option<Store> {
    if !Owned(s.rows.job, tenant, attempt) then None
    else Some(s.(rows := s.rows.(job := s.rows.job.(marker := Some(now)))))
  }

  function InsertCase(s: Store, job: Id, id: Id, fields: map<string, Value>): Store {
    Store(s.rows.(caseId := Some(id), effects := s.rows.effects + [CaseCreated(id)]),
          s.cases[id := Case(s.rows.job.tenant, Some(job), fields, [WasCreated])])
  }

  /** `ArtifactRepository.create_for_job`: the existing row wins. */
  function SaveArtifact(r: Rows, kind: ArtifactKind, id: Id, payload: Payload): Rows {
    if kind in r.artifacts then r
    else r.(artifacts := r.artifacts[kind := Artifact(id, payload)], effects := r.effects + [ArtifactCreated(kind, id)])
  }

  predicate CaseOf(cases: Cases, id: Id, tenant: Id) { id in cases && cases[id].tenant == tenant }

  function MergeFields(s: Store, id: Id, changes: map<string, Value>): Store
    requires id in s.cases
  {
    Store(s.rows.(effects := s.rows.effects + [FieldsUpdated(id)]),
          s.cases[id := s.cases[id].(fields := s.cases[id].fields + changes,
                                     events := s.cases[id].events + [WereUpdated(changes.Keys)])])
  }

  /** One tool transaction of an attempt; None means nothing was committed (an error, a miss, or a replay
      that returns the existing case). Inserted rows carry unused identifiers. */
  function RunTool(s: Store, job: Id, tenant: Id, attempt: nat, tx: ToolTx, now: Time): Option<Store> {
    match tx
    case CreateCaseTx(id, customerKnown, fields) =>
      if s.rows.caseId.Some? || !customerKnown || id in s.cases then None
      else MarkSideEffect(InsertCase(s, job, id, fields), tenant, attempt, now)
    case ArtifactTx(kind, id, payload) =>
      MarkSideEffect(s.(rows := SaveArtifact(s.rows, kind, id, payload)), tenant, attempt, now)
    case UpdateCaseTx(id, changes) =>
      if !CaseOf(s.cases, id, s.rows.job.tenant) then None
      else MarkSideEffect(MergeFields(s, id, changes), tenant, attempt, now)
  }

  // ---------------------------------------------------------------- approved execution

  /** Facts of the surrounding tables, the subject of the job's source snapshot if that can be read, and unused
      identifiers for the rows the command may insert. */
  datatype Lookups =
    Lookups(customerKnown: bool, sourceReadable: bool, subject: string, newCase: Id, newArtifact: Id)

  /** A value that is a text, as `isinstance(value, str)` finds it. */
  function TextOf(fields: map<string, Value>, key: string): Option<string> {
    if key in fields && fields[key].One? && fields[key].scalar.Str? then Some(fields[key].scalar.s) else None
  }

  function Or(text: string, otherwise: string): string { if text != "" then text else otherwise }

  /** The draft an approved command stores: addressed to the accepted contact. */
  function ApprovedDraft(c: Command, subject: string): Payload {
    Draft(TextOf(c.knownFields, "contact"), Or(subject, "Intake reply"), "Reply draft generated for operator review.")
  }

  /** The flag an approved command stores: its own note, if there is one. */
  function ApprovedFlag(note: Option<string>): Payload {
    Flag(Or(OrEmpty(note), "Review requested for operator follow-up."))
  }

  function WithCase(a: Approval, id: Id): Approval { a.(caseId := Some(id)) }

  /** The handlers of `PostgresApprovalActionExecutor`; None is a raised error. */
  function Handle(s: Store, job: Id, a: Approval, l: Lookups): Option<(Store, Approval)> {
    match a.command.args
    case FindCustomerArgs(_, _) => Some((s, a))
    case CreateCaseArgs(_) =>
      if s.rows.caseId.Some? then
        if CaseOf(s.cases, s.rows.caseId.value, a.tenant) then Some((s, WithCase(a, s.rows.caseId.value))) else None
      else if !l.customerKnown || !l.sourceReadable || l.newCase in s.cases then None
      else Some((InsertCase(s, job, l.newCase, a.command.knownFields), WithCase(a, l.newCase)))
    case UpdateCaseArgs(id) =>
      if !CaseOf(s.cases, id, a.tenant) then None
      else Some((MergeFields(s, id, a.command.knownFields), WithCase(a, id)))
    case ReplyDraftArgs(id) =>
      if (id.Some? && !CaseOf(s.cases, id.value, a.tenant)) || !l.sourceReadable then None
      else Some((s.(rows := SaveArtifact(s.rows, ReplyDraft, l.newArtifact, ApprovedDraft(a.command, l.subject))),
                 if id.Some? then WithCase(a, id.value) else a))
    case ReviewArgs(note) =>
      Some((s.(rows := SaveArtifact(s.rows, ReviewFlag, l.newArtifact, ApprovedFlag(note))), a))
  }

  function ExecuteApproved(s: Store, job: Id, a: Approval, now: Time, l: Lookups): Option<(Store, Approval)> {
    if s.rows.job.status != AwaitingApproval || s.rows.job.profile != a.profile
       || a.action != CommandAction(a.command) then None
    else
      var done := Handle(s, job, a, l);
      if done.None? then None
      else
        var (after, approval) := done.value;
        if CommitsSideEffect(a.action) then
          Some((after.(rows := after.rows.(job := after.rows.job.(marker := Some(now)))), approval))
        else Some((after, approval))
  }

  // ---------------------------------------------------------------- decisions

  datatype Response =
    | Decided(approval: Id, status: ApprovalStatus, action: Action, decidedAt: Time, caseId: Option<Id>, executed: bool)
    | NotFoundError | ConflictError | ExpiredError | ExecutionError

  datatype DecideEnd = DecideEnd(store: Store, response: Response)

  function ResponseOf(a: Approval): Response {
    if a.decidedAt.None? then ConflictError
    else Decided(a.id, a.status, a.action, a.decidedAt.value, a.caseId, a.executedAt.Some?)
  }

  predicate SameFinalDecision(s: ApprovalStatus, approve: bool) {
    (s == Approved && approve) || ((s == Rejected || s == Expired) && !approve)
  }

  function RejectedBy(a: Approval, actor: Id, now: Time): Approval {
    a.(status := Rejected, decidedAt := Some(now), decidedBy := Some(Operator(actor)),
       events := a.events + [WasRejected])
  }

  function ApprovedBy(a: Approval, actor: Id, now: Time): Approval {
    a.(status := Approved, decidedAt := Some(now), decidedBy := Some(Operator(actor)), executedAt := Some(now),
       events := a.events + [WasApproved, WasExecuted])
  }

  function Settle(s: Store, a: Approval, now: Time, response: Response, failed: Store): DecideEnd {
    var job := FinalizeJob(a, s.rows.job, now);
    if job.None? then DecideEnd(failed, ConflictError)
    else DecideEnd(s.(rows := s.rows.(job := job.value, approval := Some(a))), response)
  }

  /** `ApprovalDecisionService.decide` on the approval of one job. */
  function Decide(rules: Rules, s: Store, job: Id, tenant: Id, actor: Id, approve: bool, now: Time,
                  l: Lookups): DecideEnd {
    if s.rows.approval.None? || s.rows.approval.value.tenant != tenant
       || !Published(s.rows.approval.value, s.rows.job) then
      DecideEnd(s, NotFoundError)
    else
      var a := s.rows.approval.value;
      if IsFinal(a.status) then
        DecideEnd(s, if SameFinalDecision(a.status, approve) then ResponseOf(a) else ConflictError)
      else if a.expiresAt <= now then
        var expired := ExpireLocked(a, now);
        Settle(s, expired, now, if approve then ExpiredError else ResponseOf(expired), s)
      else if !approve then
        var rejected := RejectedBy(a, actor, now);
        Settle(s, rejected, now, ResponseOf(rejected), s)
      else if CommandAction(a.command) != a.action || !Authorized(rules, s.rows.job.profile, a.command) then
        DecideEnd(s, ConflictError)
      else
        var done := ExecuteApproved(s, job, a, now, l);
        if done.None? then DecideEnd(s, ExecutionError)
        else
          var approved := ApprovedBy(done.value.1, actor, now);
          Settle(done.value.0, approved, now, ResponseOf(approved), s)
  }
}
