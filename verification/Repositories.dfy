/** The rows as mutable objects, and the repository methods that update them in place. Each method is proved
    to do what its transaction in `Durable` says. */
module Repositories {
  import opened Values
  import opened Profiles
  import Policy
  import opened Commands
  import opened JobResults
  import D = Durable

  class JobRow {
    const id: Id
    const tenant: Id
    const trace: Id
    const profile: Profile
    var status: D.JobStatus
    var attempt: nat
    var availableAt: Time
    var lease: Option<Time>
    var startedAt: Option<Time>
    var finishedAt: Option<Time>
    var marker: Option<Time>
    var result: Option<JobResults.Result>
    var error: Option<D.ErrorCode>

    constructor (id: Id, tenant: Id, trace: Id, profile: Profile, now: Time)
      ensures Value() == D.NewJob(tenant, trace, profile, now) && this.id == id
    {
      this.id, this.tenant, this.trace, this.profile := id, tenant, trace, profile;
      status, attempt, availableAt := D.Queued, 0, now;
      lease, startedAt, finishedAt, marker, result, error := None, None, None, None, None, None;
    }

    function Value(): D.Job
      reads this
    {
      D.Job(tenant, trace, profile, status, attempt, availableAt, lease, startedAt, finishedAt, marker, result, error)
    }

    /** The row as an aborted transaction leaves it. */
    method Restore(j: D.Job)
      requires j.tenant == tenant && j.trace == trace && j.profile == profile
      modifies this
      ensures Value() == j
    {
      status, attempt, availableAt, lease := j.status, j.attempt, j.availableAt, j.lease;
      startedAt, finishedAt, marker, result, error := j.startedAt, j.finishedAt, j.marker, j.result, j.error;
    }

    method Claim(now: Time, until: Time)
      modifies this
      ensures Value() == D.ClaimJob(old(Value()), now, until)
    {
      status := D.Running;
      attempt := attempt + 1;
      startedAt := if startedAt.Some? then startedAt else Some(now);
      lease := Some(until);
    }

    /** `renew_lease`. */
    method Renew(tenant: Id, attempt: nat, until: Time) returns (renewed: bool)
      modifies this
      ensures renewed == old(D.Owned(Value(), tenant, attempt))
      ensures Value() == if renewed then old(Value()).(lease := Some(until)) else old(Value())
    {
      renewed := D.Owned(Value(), tenant, attempt);
      if renewed {
        lease := Some(until);
      }
    }

    /** `schedule_retry`; false is the raised lease-lost error. */
    method ScheduleRetry(tenant: Id, attempt: nat, code: D.ErrorCode, availableAt: Time) returns (ok: bool)
      modifies this
      ensures ok == old(D.Owned(Value(), tenant, attempt))
      ensures Value()
        == if ok then
             old(Value()).(status := D.Queued, error := Some(code), availableAt := availableAt, lease := None)
           else old(Value())
    {
      ok := D.Owned(Value(), tenant, attempt);
      if ok {
        status := D.Queued;
        error := Some(code);
        this.availableAt := availableAt;
        lease := None;
      }
    }
  }

  /** The order of `claim_next`. */
  predicate Before(a: JobRow, b: JobRow)
    reads a, b
  {
    a.availableAt < b.availableAt || (a.availableAt == b.availableAt && a.id <= b.id)
  }

  /** `claim_next` over the rows no other transaction has locked: the first claimable row, and only that row,
      is claimed. */
  method ClaimNext(jobs: seq<JobRow>, now: Time, until: Time, excluded: set<Id>) returns (claimed: JobRow?)
    modifies jobs
    ensures claimed == null <==> forall j <- jobs :: !old(D.Claimable(j.Value(), now, excluded))
    ensures claimed != null ==>
      && claimed in jobs && old(D.Claimable(claimed.Value(), now, excluded))
      && claimed.Value() == D.ClaimJob(old(claimed.Value()), now, until)
      && claimed.Value().tenant !in excluded
      && (forall j <- jobs :: old(D.Claimable(j.Value(), now, excluded)) ==>
            old(claimed.availableAt) < old(j.availableAt)
            || (old(claimed.availableAt) == old(j.availableAt) && claimed.id <= j.id))
    ensures forall j <- jobs :: j != claimed ==> j.Value() == old(j.Value())
  {
    claimed := null;
    for i := 0 to |jobs|
      invariant claimed == null <==> forall n | 0 <= n < i :: !D.Claimable(jobs[n].Value(), now, excluded)
      invariant claimed != null ==>
        && claimed in jobs && D.Claimable(claimed.Value(), now, excluded)
        && forall n | 0 <= n < i :: D.Claimable(jobs[n].Value(), now, excluded) ==> Before(claimed, jobs[n])
      invariant forall j <- jobs :: j.Value() == old(j.Value()) && j.availableAt == old(j.availableAt)
    {
      if D.Claimable(jobs[i].Value(), now, excluded) && (claimed == null || Before(jobs[i], claimed)) {
        claimed := jobs[i];
      }
    }
    if claimed != null {
      claimed.Claim(now, until);
    }
  }

  class ApprovalRow {
    const id: Id
    const tenant: Id
    var status: D.ApprovalStatus
    var action: Action
    var command: Command
    var policyReason: Policy.Reason
    var profile: Profile
    var expiresAt: Time
    var decidedAt: Option<Time>
    var decidedBy: Option<D.Actor>
    var executedAt: Option<Time>
    var caseId: Option<Id>
    var events: seq<D.ApprovalEvent>

    constructor Request(id: Id, tenant: Id, command: Command, reason: Policy.Reason, profile: Profile, expiresAt: Time)
      ensures Value() == D.Approval(id, tenant, D.Staged, CommandAction(command), command, reason, profile, expiresAt,
                                    None, None, None, None, [D.WasRequested])
    {
      this.id, this.tenant, this.status, this.action := id, tenant, D.Staged, CommandAction(command);
      this.command, this.policyReason, this.profile, this.expiresAt := command, reason, profile, expiresAt;
      decidedAt, decidedBy, executedAt, caseId, events := None, None, None, None, [D.WasRequested];
    }

    function Value(): D.Approval
      reads this
    {
      D.Approval(id, tenant, status, action, command, policyReason, profile, expiresAt, decidedAt, decidedBy,
                 executedAt, caseId, events)
    }

    method Restore(a: D.Approval)
      requires a.id == id && a.tenant == tenant
      modifies this
      ensures Value() == a
    {
      status, action, command, policyReason := a.status, a.action, a.command, a.policyReason;
      profile, expiresAt, decidedAt := a.profile, a.expiresAt, a.decidedAt;
      decidedBy, executedAt, caseId, events := a.decidedBy, a.executedAt, a.caseId, a.events;
    }

    method AddEvent(e: D.ApprovalEvent)
      modifies this
      ensures Value() == old(Value()).(events := old(events) + [e])
    {
      events := events + [e];
    }

    /** `expire_locked`. */
    method ExpireLocked(now: Time)
      modifies this
      ensures Value() == D.ExpireLocked(old(Value()), now)
    {
      if status != D.Pending {
        return;
      }
      status := D.Expired;
      decidedAt := Some(now);
      decidedBy := Some(D.SystemTimeout);
      AddEvent(D.WasExpired);
    }

    method Reject(actor: Id, now: Time)
      modifies this
      ensures Value() == D.RejectedBy(old(Value()), actor, now)
    {
      status := D.Rejected;
      decidedAt := Some(now);
      decidedBy := Some(D.Operator(actor));
      AddEvent(D.WasRejected);
    }

    method Approve(actor: Id, now: Time)
      modifies this
      ensures Value() == D.ApprovedBy(old(Value()), actor, now)
    {
      status := D.Approved;
      decidedAt := Some(now);
      decidedBy := Some(D.Operator(actor));
      executedAt := Some(now);
      AddEvent(D.WasApproved);
      AddEvent(D.WasExecuted);
      assert events == old(events) + [D.WasApproved, D.WasExecuted];
    }

    /** The staged row reused by a later attempt. */
    method Refresh(newCommand: Command, reason: Policy.Reason, newProfile: Profile, expires: Time)
      modifies this
      ensures var a, command, profile := old(Value()), newCommand, newProfile;
        Value() ==
        if a.action != CommandAction(command) || a.command != command || a.policyReason != reason
           || a.profile != profile then
          a.(action := CommandAction(command), command := command, policyReason := reason, profile := profile,
             expiresAt := expires, events := a.events + [D.WasReplaced])
        else a.(expiresAt := expires)
    {
      if action != CommandAction(newCommand) || command != newCommand || policyReason != reason
         || profile != newProfile {
        action := CommandAction(newCommand);
        policyReason := reason;
        command := newCommand;
        profile := newProfile;
        AddEvent(D.WasReplaced);
      }
      expiresAt := expires;
    }
  }

  /** The case table. */
  class CaseTable {
    var cases: D.Cases

    constructor ()
      ensures cases == map[]
    {
      cases := map[];
    }
  }

  /** The rows of one job as one transaction sees them. */
  class JobRecords {
    const job: JobRow
    var approval: ApprovalRow?
    var caseId: Option<Id>
    var artifacts: map<D.ArtifactKind, D.Artifact>
    var effects: seq<D.Effect>

    constructor (job: JobRow)
      ensures this.job == job && approval == null
      ensures Value() == D.Rows(job.Value(), None, None, map[], [])
    {
      this.job := job;
      approval, caseId, artifacts, effects := null, None, map[], [];
    }

    function Value(): D.Rows
      reads this, job, approval
    {
      D.Rows(job.Value(), if approval == null then None else Some(approval.Value()), caseId, artifacts, effects)
    }

    /** `_cancel_staged_approval`. */
    method CancelStaged()
      modifies approval
      ensures Value() == old(Value()).(approval := D.CancelStaged(old(Value()).approval))
    {
      if approval == null || approval.status != D.Staged {
        return;
      }
      approval.status := D.Cancelled;
      approval.AddEvent(D.WasCancelled);
    }

    /** One iteration of the loop in `recover_expired_leases`. */
    method RecoverLease(now: Time, maxRetries: nat, delay: nat)
      modifies job, approval
      ensures Value() == D.RecoverRows(old(Value()), now, maxRetries, delay)
    {
      if !D.LeaseRanOut(job.Value(), now) {
        return;
      }
      job.lease := None;
      if job.marker.Some? {
        CancelStaged();
        job.status := D.FailedUncertain;
        job.error := Some(D.LeaseExpiredAfterSideEffect);
        job.finishedAt := Some(now);
      } else if job.attempt <= maxRetries {
        job.status := D.Queued;
        job.availableAt := now + delay;
        job.error := Some(D.LeaseExpired);
      } else {
        CancelStaged();
        job.status := D.Failed;
        job.error := Some(D.RetryExhausted);
        job.finishedAt := Some(now);
      }
    }

    /** `_mark_terminal`; false is the raised lease-lost error. */
    method MarkTerminal(tenant: Id, attempt: nat, status: D.JobStatus, now: Time, result: Option<JobResults.Result>,
                        error: Option<D.ErrorCode>) returns (ok: bool)
      modifies job, approval
      ensures var after := D.MarkTerminal(old(Value()), tenant, attempt, status, now, result, error);
        ok == after.Some? && Value() == if ok then after.value else old(Value())
    {
      if !D.Owned(job.Value(), tenant, attempt) {
        return false;
      }
      CancelStaged();
      job.status := status;
      job.finishedAt := Some(now);
      job.lease := None;
      job.result := result;
      job.error := error;
      ok := true;
    }

    /** `record_awaiting_approval_result`. */
    method Park(tenant: Id, attempt: nat, result: JobResults.Result) returns (ok: bool)
      modifies job, approval
      ensures var after := D.Park(old(Value()), tenant, attempt, result);
        ok == after.Some? && Value() == if ok then after.value else old(Value())
    {
      if !D.Owned(job.Value(), tenant, attempt) || approval == null || approval.status != D.Staged {
        return false;
      }
      approval.status := D.Pending;
      job.status := D.AwaitingApproval;
      job.finishedAt := None;
      job.lease := None;
      job.result := Some(result);
      job.error := None;
      ok := true;
    }

    /** `create_for_running_job`; false is the raised creation conflict. */
    method CreateApproval(tenant: Id, attempt: nat, id: Id, command: Command, reason: Policy.Reason, expiresAt: Time)
      returns (ok: bool)
      modifies this, approval
      ensures var after := D.CreateApproval(old(Value()), tenant, attempt, id, command, reason, expiresAt);
        ok == after.Some? && Value() == if ok then after.value else old(Value())
      ensures approval == old(approval) || fresh(approval)
    {
      if !D.Owned(job.Value(), tenant, attempt) {
        return false;
      }
      if approval != null {
        if approval.status != D.Staged {
          return false;
        }
        approval.Refresh(command, reason, job.profile, expiresAt);
      } else {
        approval := new ApprovalRow.Request(id, tenant, command, reason, job.profile, expiresAt);
      }
      ok := true;
    }

    /** `finalize_job_for_decision`; false is the raised conflict. */
    method FinalizeJob(now: Time) returns (ok: bool)
      requires approval != null
      modifies job
      ensures var after := D.FinalizeJob(approval.Value(), old(job.Value()), now);
        ok == after.Some? && job.Value() == if ok then after.value else old(job.Value())
    {
      if !D.IsFinal(approval.status) {
        return false;
      }
      if job.status != D.AwaitingApproval {
        return D.AlreadyFinalized(approval.Value(), job.Value());
      }
      job.result := Some(DecidedResult(job.result, D.FinalBusinessOutcome(approval.status), approval.id,
                                       D.ApprovalText(approval.status), approval.caseId));
      job.status := D.FinalJobStatus(approval.status);
      job.error := if approval.status == D.Expired then Some(D.ApprovalTimedOut) else None;
      job.finishedAt := Some(now);
      job.lease := None;
      ok := true;
    }

    /** One iteration of the loop in `expire_due`: its query chose a pending approval of a parked job, so the raised
        conflict never arises. */
    method ExpireDue(now: Time) returns (ok: bool)
      modifies job, approval
      ensures ok && D.ExpireRows(old(Value()), now) == Some(Value())
    {
      if !D.Due(Value(), now) {
        return true;
      }
      approval.ExpireLocked(now);
      ok := FinalizeJob(now);
    }

    // -------------------------------------------------------------- effects

    /** `ArtifactRepository.create_for_job` without a race: see `InsertRace` for the race. */
    method SaveArtifact(kind: D.ArtifactKind, id: Id, payload: D.Payload)
      modifies `artifacts, `effects
      ensures Value() == D.SaveArtifact(old(Value()), kind, id, payload)
    {
      if kind !in artifacts {
        artifacts := artifacts[kind := D.Artifact(id, payload)];
        effects := effects + [D.ArtifactCreated(kind, id)];
      }
    }

    method InsertCase(table: CaseTable, self: Id, id: Id, fields: map<string, Values.Value>)
      modifies `caseId, `effects, table
      ensures D.Store(Value(), table.cases) == D.InsertCase(old(D.Store(Value(), table.cases)), self, id, fields)
    {
      table.cases := table.cases[id := D.Case(job.tenant, Some(self), fields, [D.WasCreated])];
      caseId := Some(id);
      effects := effects + [D.CaseCreated(id)];
    }

    method MergeFields(table: CaseTable, id: Id, changes: map<string, Values.Value>)
      requires id in table.cases
      modifies `effects, table
      ensures D.Store(Value(), table.cases) == D.MergeFields(old(D.Store(Value(), table.cases)), id, changes)
    {
      var merged := table.cases[id].fields + changes;
      var events := table.cases[id].events + [D.WereUpdated(changes.Keys)];
      table.cases := table.cases[id := table.cases[id].(fields := merged, events := events)];
      effects := effects + [D.FieldsUpdated(id)];
    }

    /** `_mark_side_effect`; false is the raised error. */
    method MarkSideEffect(tenant: Id, attempt: nat, now: Time) returns (ok: bool)
      modifies job
      ensures ok == old(D.Owned(job.Value(), tenant, attempt))
      ensures job.Value() == if ok then old(job.Value()).(marker := Some(now)) else old(job.Value())
    {
      ok := D.Owned(job.Value(), tenant, attempt);
      if ok {
        job.marker := Some(now);
      }
    }

    /** What leaving a transaction by an exception does to everything it wrote. */
    method Rollback(table: CaseTable, saved: D.Store)
      requires approval == null <==> saved.rows.approval.None?
      requires approval != null ==>
        approval.id == saved.rows.approval.value.id && approval.tenant == saved.rows.approval.value.tenant
      requires job.tenant == saved.rows.job.tenant && job.trace == saved.rows.job.trace
      requires job.profile == saved.rows.job.profile
      modifies `caseId, `artifacts, `effects, job, approval, table
      ensures D.Store(Value(), table.cases) == saved
    {
      table.cases := saved.cases;
      caseId, artifacts, effects := saved.rows.caseId, saved.rows.artifacts, saved.rows.effects;
      job.Restore(saved.rows.job);
      if approval != null {
        approval.Restore(saved.rows.approval.value);
      }
    }

    /** One tool transaction: write, then pass the fence, or roll everything back. */
    method RunTool(table: CaseTable, self: Id, tenant: Id, attempt: nat, tx: D.ToolTx, now: Time) returns (ok: bool)
      modifies `caseId, `artifacts, `effects, job, approval, table
      ensures var after := D.RunTool(old(D.Store(Value(), table.cases)), self, tenant, attempt, tx, now);
        && ok == after.Some?
        && D.Store(Value(), table.cases) == if ok then after.value else old(D.Store(Value(), table.cases))
    {
      var saved := D.Store(Value(), table.cases);
      match tx {
        case CreateCaseTx(id, customerKnown, fields) =>
          if caseId.Some? || !customerKnown || id in table.cases {
            return false;
          }
          InsertCase(table, self, id, fields);
        case ArtifactTx(kind, id, payload) =>
          SaveArtifact(kind, id, payload);
        case UpdateCaseTx(id, changes) =>
          if !D.CaseOf(table.cases, id, job.tenant) {
            return false;
          }
          MergeFields(table, id, changes);
      }
      ok := MarkSideEffect(tenant, attempt, now);
      if !ok {
        Rollback(table, saved);
      }
    }

    /** The handlers of `PostgresApprovalActionExecutor`; false is a raised error. */
    method Handle(table: CaseTable, self: Id, l: D.Lookups) returns (ok: bool)
      requires approval != null
      modifies `caseId, `artifacts, `effects, approval, table
      ensures var done := D.Handle(old(D.Store(Value(), table.cases)), self, old(approval.Value()), l);
        && ok == done.Some?
        && (ok ==> Value() == done.value.0.rows.(approval := Some(done.value.1)) && table.cases == done.value.0.cases)
        && (!ok ==> Value() == old(Value()) && table.cases == old(table.cases))
    {
      match approval.command.args {
        case FindCustomerArgs(_, _) =>
        case CreateCaseArgs(_) =>
          if caseId.Some? {
            if !D.CaseOf(table.cases, caseId.value, approval.tenant) {
              return false;
            }
            approval.caseId := caseId;
          } else {
            if !l.customerKnown || !l.sourceReadable || l.newCase in table.cases {
              return false;
            }
            InsertCase(table, self, l.newCase, approval.command.knownFields);
            approval.caseId := Some(l.newCase);
          }
        case UpdateCaseArgs(id) =>
          if !D.CaseOf(table.cases, id, approval.tenant) {
            return false;
          }
          approval.caseId := Some(id);
          MergeFields(table, id, approval.command.knownFields);
        case ReplyDraftArgs(id) =>
          var saved := approval.caseId;
          if id.Some? {
            if !D.CaseOf(table.cases, id.value, approval.tenant) {
              return false;
            }
            approval.caseId := id;
          }
          if !l.sourceReadable {
            approval.caseId := saved;
            return false;
          }
          SaveArtifact(D.ReplyDraft, l.newArtifact, D.ApprovedDraft(approval.command, l.subject));
        case ReviewArgs(note) =>
          SaveArtifact(D.ReviewFlag, l.newArtifact, D.ApprovedFlag(note));
      }
      ok := true;
    }

    /** `PostgresApprovalActionExecutor.execute`. */
    method ExecuteApproved(table: CaseTable, self: Id, now: Time, l: D.Lookups) returns (ok: bool)
      requires approval != null
      modifies `caseId, `artifacts, `effects, job, approval, table
      ensures var done := D.ExecuteApproved(old(D.Store(Value(), table.cases)), self, old(approval.Value()), now, l);
        && ok == done.Some?
        && (ok ==> Value() == done.value.0.rows.(approval := Some(done.value.1)) && table.cases == done.value.0.cases)
        && (!ok ==> Value() == old(Value()) && table.cases == old(table.cases))
    {
      if job.status != D.AwaitingApproval || job.profile != approval.profile
         || approval.action != CommandAction(approval.command) {
        return false;
      }
      ok := Handle(table, self, l);
      if ok && CommitsSideEffect(approval.action) {
        job.marker := Some(now);
      }
    }

    // -------------------------------------------------------------- decisions

    /** `ApprovalDecisionService.decide`: the transaction, then the answer. An exception raised inside the
        transaction rolls it back; a late approval raises only after the expiry is committed. */
    method Decide(rules: Rules, table: CaseTable, self: Id, tenant: Id, actor: Id, approve: bool, now: Time,
                  l: D.Lookups)
      returns (response: D.Response)
      modifies `caseId, `artifacts, `effects, job, approval, table
      ensures D.DecideEnd(D.Store(Value(), table.cases), response)
        == D.Decide(rules, old(D.Store(Value(), table.cases)), self, tenant, actor, approve, now, l)
    {
      if approval == null || approval.tenant != tenant || !D.Published(approval.Value(), job.Value()) {
        return D.NotFoundError;
      }
      var saved := D.Store(Value(), table.cases);
      var expiredApproval := false;
      if D.IsFinal(approval.status) {
        if !D.SameFinalDecision(approval.status, approve) {
          return D.ConflictError;
        }
        return D.ResponseOf(approval.Value());
      } else if approval.expiresAt <= now {
        approval.ExpireLocked(now);
        expiredApproval := approve;
      } else if !approve {
        approval.Reject(actor, now);
      } else {
        if CommandAction(approval.command) != approval.action || !Authorized(rules, job.profile, approval.command) {
          return D.ConflictError;
        }
        var executed := ExecuteApproved(table, self, now, l);
        if !executed {
          return D.ExecutionError;
        }
        approval.Approve(actor, now);
      }
      var finalized := FinalizeJob(now);
      if !finalized {
        Rollback(table, saved);
        return D.ConflictError;
      }
      response := if expiredApproval then D.ExpiredError else D.ResponseOf(approval.Value());
    }
  }

  // ---------------------------------------------------------------- sweeps

  /** Rows of different jobs share no object. */
  ghost predicate Separate(all: seq<JobRecords>)
    reads all
  {
    forall i, j :: 0 <= i < j < |all| ==>
      all[i].job != all[j].job && (all[i].approval == null || all[i].approval != all[j].approval)
  }

  ghost function JobRows(all: seq<JobRecords>): set<JobRow> { set r | r in all :: r.job }

  ghost function ApprovalRows(all: seq<JobRecords>): set<ApprovalRow?>
    reads all
  {
    set r | r in all :: r.approval
  }

  /** `recover_expired_leases` over the rows it could lock. */
  method RecoverExpiredLeases(all: seq<JobRecords>, now: Time, maxRetries: nat, delay: nat)
    requires Separate(all)
    modifies JobRows(all), ApprovalRows(all)
    ensures forall r <- all :: r.Value() == D.RecoverRows(old(r.Value()), now, maxRetries, delay)
  {
    for i := 0 to |all|
      invariant forall n | 0 <= n < |all| :: all[n].approval == old(all[n].approval)
      invariant forall n | 0 <= n < i :: all[n].Value() == D.RecoverRows(old(all[n].Value()), now, maxRetries, delay)
      invariant forall n | i <= n < |all| :: all[n].Value() == old(all[n].Value())
    {
      assert all[i] in all && all[i].approval in old(ApprovalRows(all));
      label Before:
      all[i].RecoverLease(now, maxRetries, delay);
      assert forall n | 0 <= n < |all| && n != i :: all[n].Value() == old@Before(all[n].Value());
    }
  }

  /** `expire_due` over the rows it could lock: every due one expires with its job, and no conflict is raised. */
  method ExpireDue(all: seq<JobRecords>, now: Time) returns (ok: bool)
    requires Separate(all)
    modifies JobRows(all), ApprovalRows(all)
    ensures ok && forall r <- all :: D.ExpireRows(old(r.Value()), now) == Some(r.Value())
  {
    ok := true;
    var i := 0;
    while ok && i < |all|
      invariant ok && i <= |all|
      invariant forall n | 0 <= n < |all| :: all[n].approval == old(all[n].approval)
      invariant forall n | 0 <= n < i :: D.ExpireRows(old(all[n].Value()), now) == Some(all[n].Value())
      invariant forall n | i <= n < |all| :: all[n].Value() == old(all[n].Value())
    {
      assert all[i] in all && all[i].approval in old(ApprovalRows(all));
      label Before:
      ok := all[i].ExpireDue(now);
      assert forall n | 0 <= n < |all| && n != i :: all[n].Value() == old@Before(all[n].Value());
      i := i + 1;
    }
  }
}
