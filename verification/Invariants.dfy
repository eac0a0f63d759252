/** What every reachable state satisfies, over every interleaving. */
module Invariants {
  import opened Values
  import opened Profiles
  import Policy
  import opened Commands
  import opened JobResults
  import opened Durable
  import opened Machine

  // ---------------------------------------------------------------- the invariant of one job

  /** Job and approval agree. */
  ghost predicate Coherent(r: Rows) {
    && (r.job.lease.Some? <==> r.job.status == Running)
    && (r.job.finishedAt.Some? <==> IsTerminal(r.job.status))
    && (r.job.status == AwaitingApproval ==> r.approval.Some? && r.approval.value.status == Pending)
    && (r.job.status == Failed && r.job.error == Some(ApprovalTimedOut) ==>
          r.approval.Some? && r.approval.value.status == Expired)
    && (r.approval.Some? ==> Agrees(r.approval.value, r.job))
  }

  ghost predicate Agrees(a: Approval, job: Job) {
    match a.status
    case Staged => job.status == Queued || job.status == Running
    case Pending => job.status == AwaitingApproval
    case Approved => job.status == Succeeded
    case Rejected => job.status == Succeeded
    case Expired => job.status == Failed && job.error == Some(ApprovalTimedOut)
    case Cancelled => IsTerminal(job.status)
  }

  /** Attempts are counted, bounded, and each has its own token. */
  ghost predicate Bounded(cfg: Config, s: Slot) {
    && s.rows.job.attempt <= cfg.maxRetries + 1
    && (s.rows.job.status == Queued ==> s.rows.job.attempt <= cfg.maxRetries)
    && (s.rows.job.status != Queued ==> s.rows.job.attempt >= 1)
    && (forall k :: k in s.attempts <==> 1 <= k <= s.rows.job.attempt)
    && (forall k <- s.attempts ::
          s.attempts[k].control.Resolved? && s.attempts[k].control.intent.RetryIt? ==> k <= cfg.maxRetries)
  }

  ghost predicate TokenSound(cfg: Config, profile: Profile, a: Attempt) {
    && (a.thread.Asking? ==> Authorized(cfg.rules, profile, a.thread.command))
    && (a.thread.Granted? ==> Authorized(cfg.rules, profile, a.thread.command))
    && (a.control.Resolved? && a.control.intent.ParkIt? ==> a.thread.Granted?)
    && (a.control.Resolved? && a.control.intent.FailIt? ==> a.control.intent.code != ApprovalTimedOut)
  }

  /** Where the stored command comes from. */
  ghost predicate Provenance(cfg: Config, s: Slot) {
    && (forall k <- s.attempts :: TokenSound(cfg, s.rows.job.profile, s.attempts[k]))
    && (s.rows.approval.Some? ==>
          var a := s.rows.approval.value;
          && a.tenant == s.rows.job.tenant && a.profile == s.rows.job.profile
          && a.action == CommandAction(a.command)
          && Authorized(cfg.rules, s.rows.job.profile, a.command))
    && (s.rows.job.status == Running && s.rows.job.attempt in s.attempts
        && s.attempts[s.rows.job.attempt].thread.Granted? ==>
          && s.rows.approval.Some? && s.rows.approval.value.status == Staged
          && s.rows.approval.value.command == s.attempts[s.rows.job.attempt].thread.command)
    && (s.rows.approval.Some? && s.rows.approval.value.status != Staged && s.rows.approval.value.status != Cancelled ==>
          && s.rows.job.attempt in s.attempts
          && s.attempts[s.rows.job.attempt].thread == Granted(s.rows.approval.value.command))
  }

  function CreatedCases(effects: seq<Effect>): seq<Id> {
    if effects == [] then []
    else
      var last := effects[|effects| - 1];
      CreatedCases(effects[..|effects| - 1]) + (if last.CaseCreated? then [last.id] else [])
  }

  function CreatedArtifacts(effects: seq<Effect>, kind: ArtifactKind): seq<Id> {
    if effects == [] then []
    else
      var last := effects[|effects| - 1];
      CreatedArtifacts(effects[..|effects| - 1], kind)
      + (if last.ArtifactCreated? && last.kind == kind then [last.artifact] else [])
  }

  ghost predicate EffectLists(r: Rows) {
    && CreatedCases(r.effects) == (if r.caseId.Some? then [r.caseId.value] else [])
    && (forall kind :: CreatedArtifacts(r.effects, kind) == if kind in r.artifacts then [r.artifacts[kind].id] else [])
  }

  /** Every effect is one the rows show, at most one case and one artifact per kind, and the marker says whether
      there is any. */
  ghost predicate EffectsMatch(r: Rows) {
    (r.job.marker.Some? <==> r.effects != []) && EffectLists(r)
  }

  function Finals(events: seq<ApprovalEvent>): seq<ApprovalEvent> {
    if events == [] then []
    else
      var last := events[|events| - 1];
      Finals(events[..|events| - 1])
      + (if last == WasApproved || last == WasRejected || last == WasExpired then [last] else [])
  }

  function Executions(events: seq<ApprovalEvent>): nat {
    if events == [] then 0
    else Executions(events[..|events| - 1]) + (if events[|events| - 1] == WasExecuted then 1 else 0)
  }

  /** The event log records at most one final decision, in time or late as the status says. */
  ghost predicate Logged(a: Approval) {
    match a.status
    case Approved =>
      && Finals(a.events) == [WasApproved] && Executions(a.events) == 1
      && a.decidedAt.Some? && a.decidedAt.value < a.expiresAt && a.executedAt == a.decidedAt
    case Rejected =>
      && Finals(a.events) == [WasRejected] && Executions(a.events) == 0
      && a.decidedAt.Some? && a.decidedAt.value < a.expiresAt && a.executedAt.None?
    case Expired =>
      && Finals(a.events) == [WasExpired] && Executions(a.events) == 0
      && a.decidedAt.Some? && a.decidedAt.value >= a.expiresAt && a.executedAt.None?
    case _ => Finals(a.events) == [] && Executions(a.events) == 0 && a.decidedAt.None? && a.executedAt.None?
  }

  /** Uncertainty always has a cause: the marker. */
  ghost predicate UncertainHasMarker(s: Slot) {
    && (s.rows.job.status == FailedUncertain ==> s.rows.job.marker.Some?)
    && (forall k <- s.attempts ::
          && (s.attempts[k].markerSeen ==> s.rows.job.marker.Some?)
          && (s.attempts[k].control.Resolved? && s.attempts[k].control.intent.UncertainIt? ==> s.rows.job.marker.Some?))
  }

  ghost predicate SlotOk(cfg: Config, s: Slot) {
    && Coherent(s.rows)
    && Bounded(cfg, s)
    && Provenance(cfg, s)
    && EffectsMatch(s.rows)
    && (s.rows.approval.Some? ==> Logged(s.rows.approval.value))
    && UncertainHasMarker(s)
    && ValidProfile(s.rows.job.profile)
  }

  /** Cases and the jobs that created them point at each other. */
  ghost predicate CasesMatch(w: World) {
    && (forall j <- w.jobs :: w.jobs[j].rows.caseId.Some? ==>
          var c := w.jobs[j].rows.caseId.value;
          c in w.cases && w.cases[c].origin == Some(j) && w.cases[c].tenant == w.jobs[j].rows.job.tenant)
    && (forall c <- w.cases :: w.cases[c].origin.Some? ==>
          w.cases[c].origin.value in w.jobs && w.jobs[w.cases[c].origin.value].rows.caseId == Some(c))
  }

  ghost predicate WorldOk(cfg: Config, w: World) {
    && (forall j <- w.jobs :: SlotOk(cfg, w.jobs[j]))
    && CasesMatch(w)
  }

  // ---------------------------------------------------------------- each transaction keeps it

  lemma ClaimKeeps(cfg: Config, s: Slot, now: Time, until: Time, excluded: set<Id>)
    requires SlotOk(cfg, s)
    ensures SlotOk(cfg, SlotEvent(cfg, s, Claim(now, until, excluded)))
  {
  }

  lemma RenewKeeps(cfg: Config, s: Slot, k: nat, until: Time)
    requires SlotOk(cfg, s)
    ensures SlotOk(cfg, SlotEvent(cfg, s, Renew(k, until)))
  {
  }

  lemma ThreadKeeps(cfg: Config, s: Slot, e: Event)
    requires SlotOk(cfg, s) && (e.Build? || e.Ask?)
    ensures SlotOk(cfg, SlotEvent(cfg, s, e))
  {
  }

  /** What a worker resolves on is sound for its token. */
  lemma ResolvedSoundly(cfg: Config, s: Slot, k: nat, o: RunOutcome)
    requires SlotOk(cfg, s) && k in s.attempts && OutcomeFits(s.attempts[k].thread, o)
    ensures var c := AfterRun(s.rows.job, s.rows.job.tenant, k, s.attempts[k], o, cfg.maxRetries);
      && (c.Resolved? && c.intent.RetryIt? ==> k <= cfg.maxRetries)
      && (c.Resolved? && c.intent.ParkIt? ==> s.attempts[k].thread.Granted?)
      && (c.Resolved? && c.intent.FailIt? ==> c.intent.code != ApprovalTimedOut)
      && (c.Resolved? && c.intent.UncertainIt? ==> s.rows.job.marker.Some?)
  {
  }

  lemma ResolvedKeeps(cfg: Config, s: Slot, k: nat, c: Control, t: Thread)
    requires SlotOk(cfg, s) && k in s.attempts
    requires t == s.attempts[k].thread || (t.NoRuntime? && s.attempts[k].thread.Building?)
    requires c.Resolved? && c.intent.RetryIt? ==> k <= cfg.maxRetries
    requires c.Resolved? && c.intent.ParkIt? ==> t.Granted?
    requires c.Resolved? && c.intent.FailIt? ==> c.intent.code != ApprovalTimedOut
    requires c.Resolved? && c.intent.UncertainIt? ==> s.rows.job.marker.Some?
    ensures SlotOk(cfg, Attempts(s, k, s.attempts[k].(control := c, thread := t)))
  {
  }

  lemma FinishKeeps(cfg: Config, s: Slot, k: nat, o: RunOutcome)
    requires SlotOk(cfg, s)
    ensures SlotOk(cfg, SlotEvent(cfg, s, Finish(k, o)))
  {
    if k in s.attempts && s.attempts[k].control.Executing? && OutcomeFits(s.attempts[k].thread, o) {
      var a := s.attempts[k];
      ResolvedSoundly(cfg, s, k, o);
      ResolvedKeeps(cfg, s, k, AfterRun(s.rows.job, s.rows.job.tenant, k, a, o, cfg.maxRetries),
                    if o.PreflightUnreadable? || o.PreflightFailed? then NoRuntime else a.thread);
    }
  }

  lemma EventAppended(events: seq<ApprovalEvent>, e: ApprovalEvent)
    ensures Finals(events + [e])
      == Finals(events) + (if e == WasApproved || e == WasRejected || e == WasExpired then [e] else [])
    ensures Executions(events + [e]) == Executions(events) + (if e == WasExecuted then 1 else 0)
  {
    assert (events + [e])[..|events|] == events;
  }

  /** A successful request leaves a staged row holding exactly the requested command. */
  lemma StagedRow(r: Rows, tenant: Id, k: nat, id: Id, command: Command, reason: Policy.Reason, expiresAt: Time)
    requires r.approval.Some? ==> Logged(r.approval.value)
    requires CreateApproval(r, tenant, k, id, command, reason, expiresAt).Some?
    requires r.approval.Some? ==>
      r.approval.value.tenant == tenant && r.approval.value.action == CommandAction(r.approval.value.command)
    ensures Owned(r.job, tenant, k)
    ensures var after := CreateApproval(r, tenant, k, id, command, reason, expiresAt).value;
      && after.approval.Some?
      && after == r.(approval := after.approval)
      && var a := after.approval.value;
      && a.status == Staged && a.tenant == tenant && a.profile == r.job.profile
      && a.command == command && a.action == CommandAction(command) && Logged(a)
  {
    if r.approval.Some? {
      EventAppended(r.approval.value.events, WasReplaced);
    }
    EventAppended([], WasRequested);
    assert [] + [WasRequested] == [WasRequested];
  }

  lemma GrantedKeeps(cfg: Config, s: Slot, k: nat, a: Approval)
    requires SlotOk(cfg, s) && k in s.attempts && s.attempts[k].thread.Asking?
    requires Owned(s.rows.job, s.rows.job.tenant, k)
    requires a.status == Staged && a.tenant == s.rows.job.tenant && a.profile == s.rows.job.profile
    requires a.command == s.attempts[k].thread.command && a.action == CommandAction(a.command) && Logged(a)
    ensures SlotOk(cfg, Attempts(s.(rows := s.rows.(approval := Some(a))), k,
                                 s.attempts[k].(thread := Granted(a.command))))
  {
  }

  lemma StageUnfolds(cfg: Config, s: Slot, k: nat, id: Id, now: Time, after: Option<Rows>)
    requires k in s.attempts && s.attempts[k].thread.Asking?
    requires after == CreateApproval(s.rows, s.rows.job.tenant, k, id, s.attempts[k].thread.command,
                                     s.attempts[k].thread.reason, now + cfg.approvalTimeout)
    ensures SlotEvent(cfg, s, Stage(k, id, now))
      == if after.None? then s
         else Attempts(s.(rows := after.value), k, s.attempts[k].(thread := Granted(s.attempts[k].thread.command)))
  {
  }

  /** What a successful request leaves: only the approval and the thread changed. */
  ghost predicate Requested(s: Slot, k: nat, next: Slot) {
    && k in s.attempts && s.attempts[k].thread.Asking? && Owned(s.rows.job, s.rows.job.tenant, k)
    && next.rows.approval.Some?
    && next == Attempts(s.(rows := s.rows.(approval := next.rows.approval)), k,
                        s.attempts[k].(thread := Granted(s.attempts[k].thread.command)))
    && var a := next.rows.approval.value;
    && a.status == Staged && a.tenant == s.rows.job.tenant && a.profile == s.rows.job.profile
    && a.command == s.attempts[k].thread.command && a.action == CommandAction(a.command) && Logged(a)
  }

  lemma StageRequests(cfg: Config, s: Slot, k: nat, id: Id, now: Time)
    requires Provenance(cfg, s) && (s.rows.approval.Some? ==> Logged(s.rows.approval.value))
    ensures var next := SlotEvent(cfg, s, Stage(k, id, now)); next == s || Requested(s, k, next)
  {
    if k in s.attempts && s.attempts[k].thread.Asking? {
      var t := s.attempts[k].thread;
      var after := CreateApproval(s.rows, s.rows.job.tenant, k, id, t.command, t.reason, now + cfg.approvalTimeout);
      StageUnfolds(cfg, s, k, id, now, after);
      if after.Some? {
        StagedRow(s.rows, s.rows.job.tenant, k, id, t.command, t.reason, now + cfg.approvalTimeout);
      }
    }
  }

  lemma RequestedKeeps(cfg: Config, s: Slot, k: nat, next: Slot)
    requires SlotOk(cfg, s) && Requested(s, k, next)
    ensures SlotOk(cfg, next)
  {
    GrantedKeeps(cfg, s, k, next.rows.approval.value);
  }

  lemma StageKeeps(cfg: Config, s: Slot, k: nat, id: Id, now: Time)
    requires SlotOk(cfg, s)
    ensures SlotOk(cfg, SlotEvent(cfg, s, Stage(k, id, now)))
  {
    var next := SlotEvent(cfg, s, Stage(k, id, now));
    StageRequests(cfg, s, k, id, now);
    if next != s {
      RequestedKeeps(cfg, s, k, next);
    }
  }

  /** Every terminal transition cancels a staged approval with it. */
  lemma CancelledRow(r: Rows)
    requires r.approval.Some? ==> Logged(r.approval.value)
    ensures var a := CancelStaged(r.approval);
      && (a.Some? <==> r.approval.Some?)
      && (a.Some? ==>
            && Logged(a.value)
            && a.value == r.approval.value.(status := a.value.status, events := a.value.events)
            && a.value.status == if r.approval.value.status == Staged then Cancelled else r.approval.value.status)
  {
    if r.approval.Some? {
      EventAppended(r.approval.value.events, WasCancelled);
    }
  }

  lemma FinishedToken(cfg: Config, s: Slot, k: nat)
    requires SlotOk(cfg, s) && k in s.attempts
    ensures SlotOk(cfg, Attempts(s, k, s.attempts[k].(control := Finished)))
  {
  }

  lemma EndedKeeps(cfg: Config, s: Slot, job: Job, approval: Option<Approval>)
    requires SlotOk(cfg, s) && s.rows.job.status == Running && IsTerminal(job.status)
    requires job == s.rows.job.(status := job.status, finishedAt := job.finishedAt, lease := None,
                                result := job.result, error := job.error)
    requires job.finishedAt.Some?
    requires job.status == Failed ==> job.error != Some(ApprovalTimedOut)
    requires job.status == FailedUncertain ==> job.marker.Some?
    requires approval.Some? <==> s.rows.approval.Some?
    requires approval.Some? ==>
      && Logged(approval.value) && approval.value.status == Cancelled
      && approval.value == s.rows.approval.value.(status := Cancelled, events := approval.value.events)
    ensures SlotOk(cfg, s.(rows := s.rows.(job := job, approval := approval)))
  {
  }

  lemma TerminalKeeps(cfg: Config, s: Slot, k: nat, status: JobStatus, now: Time, result: Option<Result>,
                      error: Option<ErrorCode>)
    requires SlotOk(cfg, s) && IsTerminal(status)
    requires MarkTerminal(s.rows, s.rows.job.tenant, k, status, now, result, error).Some?
    requires status == Failed ==> error != Some(ApprovalTimedOut)
    requires status == FailedUncertain ==> s.rows.job.marker.Some?
    ensures SlotOk(cfg, s.(rows := MarkTerminal(s.rows, s.rows.job.tenant, k, status, now, result, error).value))
  {
    CancelledRow(s.rows);
    EndedKeeps(cfg, s, EndJob(s.rows.job, status, now, result, error), CancelStaged(s.rows.approval));
  }

  lemma RetryKeeps(cfg: Config, s: Slot, k: nat, code: ErrorCode, availableAt: Time)
    requires SlotOk(cfg, s) && k <= cfg.maxRetries
    requires ScheduleRetry(s.rows, s.rows.job.tenant, k, code, availableAt).Some?
    ensures SlotOk(cfg, s.(rows := ScheduleRetry(s.rows, s.rows.job.tenant, k, code, availableAt).value))
  {
  }

  lemma ParkKeeps(cfg: Config, s: Slot, k: nat, result: Result)
    requires SlotOk(cfg, s) && k in s.attempts && s.attempts[k].thread.Granted?
    requires Park(s.rows, s.rows.job.tenant, k, result).Some?
    ensures SlotOk(cfg, s.(rows := Park(s.rows, s.rows.job.tenant, k, result).value))
  {
  }

  lemma CommitRowsKeep(cfg: Config, s: Slot, k: nat, now: Time, availableAt: Time)
    requires SlotOk(cfg, s) && k in s.attempts && s.attempts[k].control.Resolved?
    requires CommitRows(s.rows, s.rows.job.tenant, k, s.attempts[k].control.intent, now, availableAt).Some?
    ensures var intent := s.attempts[k].control.intent;
      SlotOk(cfg, s.(rows := CommitRows(s.rows, s.rows.job.tenant, k, intent, now, availableAt).value))
  {
    match s.attempts[k].control.intent
    case RetryIt(code) => RetryKeeps(cfg, s, k, code, availableAt);
    case FailIt(code) => TerminalKeeps(cfg, s, k, Failed, now, None, Some(code));
    case UncertainIt(code) => TerminalKeeps(cfg, s, k, FailedUncertain, now, None, Some(code));
    case SucceedIt(result) => TerminalKeeps(cfg, s, k, Succeeded, now, Some(result), None);
    case ParkIt(result) => ParkKeeps(cfg, s, k, result);
  }

  lemma CommitKeeps(cfg: Config, s: Slot, k: nat, now: Time, availableAt: Time)
    requires SlotOk(cfg, s)
    ensures SlotOk(cfg, SlotEvent(cfg, s, Commit(k, now, availableAt)))
  {
    if k in s.attempts && s.attempts[k].control.Resolved? {
      var after := CommitRows(s.rows, s.rows.job.tenant, k, s.attempts[k].control.intent, now, availableAt);
      if after.Some? {
        CommitRowsKeep(cfg, s, k, now, availableAt);
        FinishedToken(cfg, s.(rows := after.value), k);
      } else {
        FinishedToken(cfg, s, k);
      }
    }
  }

  lemma RecoverKeeps(cfg: Config, s: Slot, now: Time, delay: nat)
    requires SlotOk(cfg, s)
    ensures SlotOk(cfg, Recovered(cfg, s, now, delay))
  {
    CancelledRow(s.rows);
  }

  // ---------------------------------------------------------------- effects

  lemma EffectAppended(effects: seq<Effect>, e: Effect)
    ensures CreatedCases(effects + [e]) == CreatedCases(effects) + (if e.CaseCreated? then [e.id] else [])
    ensures forall kind :: (
      CreatedArtifacts(effects + [e], kind)
      == CreatedArtifacts(effects, kind) + (if e.ArtifactCreated? && e.kind == kind then [e.artifact] else []))
  {
    assert (effects + [e])[..|effects|] == effects;
  }

  lemma SavedArtifact(r: Rows, kind: ArtifactKind, id: Id, payload: Payload)
    requires EffectLists(r)
    ensures var after := SaveArtifact(r, kind, id, payload);
      && EffectLists(after) && after.effects != [] && kind in after.artifacts
      && after == r.(artifacts := after.artifacts, effects := after.effects)
  {
    if kind in r.artifacts {
      assert CreatedArtifacts(r.effects, kind) != [];
    } else {
      EffectAppended(r.effects, ArtifactCreated(kind, id));
    }
  }

  lemma InsertedCase(s: Store, job: Id, id: Id, fields: map<string, Value>)
    requires EffectLists(s.rows) && s.rows.caseId.None?
    ensures var after := InsertCase(s, job, id, fields).rows;
      EffectLists(after) && after.effects != [] && after == s.rows.(caseId := Some(id), effects := after.effects)
  {
    EffectAppended(s.rows.effects, CaseCreated(id));
  }

  lemma MergedFields(s: Store, id: Id, changes: map<string, Value>)
    requires EffectLists(s.rows) && id in s.cases
    ensures var after := MergeFields(s, id, changes).rows;
      EffectLists(after) && after.effects != [] && after == s.rows.(effects := after.effects)
  {
    EffectAppended(s.rows.effects, FieldsUpdated(id));
  }

  /** A committed tool transaction is owned, marks the job, and keeps the effect lists. */
  lemma ToolRows(s: Store, job: Id, tenant: Id, k: nat, tx: ToolTx, now: Time)
    requires EffectLists(s.rows) && RunTool(s, job, tenant, k, tx, now).Some?
    ensures Owned(s.rows.job, tenant, k)
    ensures var after := RunTool(s, job, tenant, k, tx, now).value.rows;
      && after == s.rows.(job := s.rows.job.(marker := Some(now)), caseId := after.caseId,
                          artifacts := after.artifacts, effects := after.effects)
      && EffectLists(after) && after.effects != []
  {
    match tx
    case CreateCaseTx(id, customerKnown, fields) => InsertedCase(s, job, id, fields);
    case ArtifactTx(kind, id, payload) => SavedArtifact(s.rows, kind, id, payload);
    case UpdateCaseTx(id, changes) => MergedFields(s, id, changes);
  }

  lemma ToolKeeps(cfg: Config, job: Id, s: Slot, cases: Cases, k: nat, tx: ToolTx, now: Time)
    requires SlotOk(cfg, s)
    ensures SlotOk(cfg, Happen(cfg, job, s, cases, Tool(k, tx, now)).0)
  {
    if ThreadRuns(s, k) && RunTool(Store(s.rows, cases), job, s.rows.job.tenant, k, tx, now).Some? {
      ToolRows(Store(s.rows, cases), job, s.rows.job.tenant, k, tx, now);
    }
  }

  /** The rows an approved command may leave: effects added, the job row and the decision untouched. */
  ghost predicate Handled(before: Rows, a: Approval, after: Rows, approval: Approval) {
    && after == before.(caseId := after.caseId, artifacts := after.artifacts, effects := after.effects)
    && EffectLists(after)
    && (CommitsSideEffect(CommandAction(a.command)) ==> after.effects != [])
    && (!CommitsSideEffect(CommandAction(a.command)) ==> after == before)
    && approval == a.(caseId := approval.caseId)
  }

  lemma HandledCreate(s: Store, job: Id, a: Approval, l: Lookups)
    requires EffectLists(s.rows) && a.command.args.CreateCaseArgs? && Handle(s, job, a, l).Some?
    ensures var done := Handle(s, job, a, l).value; Handled(s.rows, a, done.0.rows, done.1)
  {
    if s.rows.caseId.None? {
      InsertedCase(s, job, l.newCase, a.command.knownFields);
    } else {
      assert CreatedCases(s.rows.effects) != [];
    }
  }

  lemma HandledUpdate(s: Store, job: Id, a: Approval, l: Lookups)
    requires EffectLists(s.rows) && a.command.args.UpdateCaseArgs? && Handle(s, job, a, l).Some?
    ensures var done := Handle(s, job, a, l).value; Handled(s.rows, a, done.0.rows, done.1)
  {
    MergedFields(s, a.command.args.caseId, a.command.knownFields);
  }

  lemma ArtifactAdded(before: Rows, a: Approval, kind: ArtifactKind, id: Id, payload: Payload, approval: Approval)
    requires EffectLists(before) && approval == a.(caseId := approval.caseId)
    requires CommitsSideEffect(CommandAction(a.command))
    ensures Handled(before, a, SaveArtifact(before, kind, id, payload), approval)
  {
    SavedArtifact(before, kind, id, payload);
  }

  lemma HandledDraft(s: Store, job: Id, a: Approval, l: Lookups)
    requires EffectLists(s.rows) && a.command.args.ReplyDraftArgs? && Handle(s, job, a, l).Some?
    ensures var done := Handle(s, job, a, l).value; Handled(s.rows, a, done.0.rows, done.1)
  {
    ArtifactAdded(s.rows, a, ReplyDraft, l.newArtifact, ApprovedDraft(a.command, l.subject),
                  Handle(s, job, a, l).value.1);
  }

  lemma HandledReview(s: Store, job: Id, a: Approval, l: Lookups)
    requires EffectLists(s.rows) && a.command.args.ReviewArgs? && Handle(s, job, a, l).Some?
    ensures var done := Handle(s, job, a, l).value; Handled(s.rows, a, done.0.rows, done.1)
  {
    ArtifactAdded(s.rows, a, ReviewFlag, l.newArtifact, ApprovedFlag(a.command.args.note), a);
  }

  lemma HandledRows(s: Store, job: Id, a: Approval, l: Lookups)
    requires EffectLists(s.rows) && Handle(s, job, a, l).Some?
    ensures var done := Handle(s, job, a, l).value; Handled(s.rows, a, done.0.rows, done.1)
  {
    match a.command.args
    case FindCustomerArgs(_, _) =>
    case CreateCaseArgs(_) => HandledCreate(s, job, a, l);
    case UpdateCaseArgs(_) => HandledUpdate(s, job, a, l);
    case ReplyDraftArgs(_) => HandledDraft(s, job, a, l);
    case ReviewArgs(_) => HandledReview(s, job, a, l);
  }

  lemma ExecutedRows(s: Store, job: Id, a: Approval, now: Time, l: Lookups)
    requires EffectsMatch(s.rows) && ExecuteApproved(s, job, a, now, l).Some?
    ensures var (after, approval) := ExecuteApproved(s, job, a, now, l).value;
      && after.rows == s.rows.(job := s.rows.job.(marker := after.rows.job.marker), caseId := after.rows.caseId,
                               artifacts := after.rows.artifacts, effects := after.rows.effects)
      && EffectsMatch(after.rows)
      && (s.rows.job.marker.Some? ==> after.rows.job.marker.Some?)
      && approval == a.(caseId := approval.caseId)
  {
    HandledRows(s, job, a, l);
  }

  // ---------------------------------------------------------------- decisions

  /** A final, logged decision on the slot's approval, with rows that differ in nothing but their effects. */
  ghost predicate Settles(s: Slot, rows: Rows, a: Approval) {
    && EffectsMatch(rows)
    && rows == s.rows.(job := s.rows.job.(marker := rows.job.marker), caseId := rows.caseId,
                       artifacts := rows.artifacts, effects := rows.effects)
    && (s.rows.job.marker.Some? ==> rows.job.marker.Some?)
    && IsFinal(a.status) && Logged(a) && s.rows.approval.Some?
    && a == s.rows.approval.value.(status := a.status, decidedAt := a.decidedAt, decidedBy := a.decidedBy,
                                   executedAt := a.executedAt, caseId := a.caseId, events := a.events)
  }

  /** Written together with the job's final status, such a decision keeps the invariant. */
  lemma SettledKeeps(cfg: Config, s: Slot, rows: Rows, a: Approval, now: Time)
    requires SlotOk(cfg, s) && s.rows.job.status == AwaitingApproval
    ensures Settles(s, rows, a) ==>
      && FinalizeJob(a, rows.job, now).Some?
      && SlotOk(cfg, s.(rows := rows.(job := FinalizeJob(a, rows.job, now).value, approval := Some(a))))
  {
  }

  lemma ExpiryLogged(a: Approval, now: Time)
    requires Logged(a) && a.status == Pending && now >= a.expiresAt
    ensures Logged(ExpireLocked(a, now))
  {
    EventAppended(a.events, WasExpired);
  }

  lemma RejectionLogged(a: Approval, actor: Id, now: Time)
    requires Logged(a) && a.status == Pending && now < a.expiresAt
    ensures Logged(RejectedBy(a, actor, now))
  {
    EventAppended(a.events, WasRejected);
  }

  lemma ApprovalLogged(a: Approval, actor: Id, now: Time)
    requires Logged(a) && a.status == Pending && now < a.expiresAt
    ensures Logged(ApprovedBy(a, actor, now))
  {
    EventAppended(a.events, WasApproved);
    EventAppended(a.events + [WasApproved], WasExecuted);
    assert a.events + [WasApproved, WasExecuted] == a.events + [WasApproved] + [WasExecuted];
  }

  lemma SweepKeeps(cfg: Config, s: Slot, now: Time)
    requires SlotOk(cfg, s)
    ensures ExpireRows(s.rows, now).Some?
    ensures SlotOk(cfg, Swept(s, now))
  {
    if Due(s.rows, now) {
      ExpiryLogged(s.rows.approval.value, now);
      SettledKeeps(cfg, s, s.rows, ExpireLocked(s.rows.approval.value, now), now);
    }
  }

  /** What `Decide` does to a pending approval, branch by branch. */
  lemma DecideLate(rules: Rules, s: Store, job: Id, tenant: Id, actor: Id, approve: bool, now: Time, l: Lookups)
    requires s.rows.approval.Some? && s.rows.approval.value.status == Pending && s.rows.approval.value.expiresAt <= now
    ensures var end := Decide(rules, s, job, tenant, actor, approve, now, l);
      var a := ExpireLocked(s.rows.approval.value, now);
      || end.store == s
      || (FinalizeJob(a, s.rows.job, now).Some?
          && end.store == s.(rows := s.rows.(job := FinalizeJob(a, s.rows.job, now).value, approval := Some(a))))
  {
  }

  lemma DecideReject(rules: Rules, s: Store, job: Id, tenant: Id, actor: Id, now: Time, l: Lookups)
    requires s.rows.approval.Some? && s.rows.approval.value.status == Pending && now < s.rows.approval.value.expiresAt
    ensures var end := Decide(rules, s, job, tenant, actor, false, now, l);
      var a := RejectedBy(s.rows.approval.value, actor, now);
      || end.store == s
      || (FinalizeJob(a, s.rows.job, now).Some?
          && end.store == s.(rows := s.rows.(job := FinalizeJob(a, s.rows.job, now).value, approval := Some(a))))
  {
  }

  lemma DecideApprove(rules: Rules, s: Store, job: Id, tenant: Id, actor: Id, now: Time, l: Lookups)
    requires s.rows.approval.Some? && s.rows.approval.value.status == Pending && now < s.rows.approval.value.expiresAt
    ensures var end := Decide(rules, s, job, tenant, actor, true, now, l);
      var done := ExecuteApproved(s, job, s.rows.approval.value, now, l);
      || end.store == s
      || (done.Some?
          && var after, a := done.value.0, ApprovedBy(done.value.1, actor, now);
          && FinalizeJob(a, after.rows.job, now).Some?
          && end.store
             == after.(rows := after.rows.(job := FinalizeJob(a, after.rows.job, now).value, approval := Some(a))))
  {
  }

  lemma ApprovedKeeps(cfg: Config, job: Id, s: Slot, cases: Cases, actor: Id, now: Time, l: Lookups)
    requires SlotOk(cfg, s) && s.rows.approval.Some? && s.rows.approval.value.status == Pending
    requires now < s.rows.approval.value.expiresAt
    requires ExecuteApproved(Store(s.rows, cases), job, s.rows.approval.value, now, l).Some?
    ensures var done := ExecuteApproved(Store(s.rows, cases), job, s.rows.approval.value, now, l).value;
      var after, a := done.0, ApprovedBy(done.1, actor, now);
      && FinalizeJob(a, after.rows.job, now).Some?
      && SlotOk(cfg, s.(rows := after.rows.(job := FinalizeJob(a, after.rows.job, now).value, approval := Some(a))))
  {
    ExecutedRows(Store(s.rows, cases), job, s.rows.approval.value, now, l);
    var done := ExecuteApproved(Store(s.rows, cases), job, s.rows.approval.value, now, l).value;
    ApprovalLogged(done.1, actor, now);
    SettledKeeps(cfg, s, done.0.rows, ApprovedBy(done.1, actor, now), now);
  }

  lemma ExpiryKeeps(cfg: Config, s: Slot, now: Time)
    requires SlotOk(cfg, s) && s.rows.approval.Some? && s.rows.approval.value.status == Pending
    requires s.rows.approval.value.expiresAt <= now
    ensures var a := ExpireLocked(s.rows.approval.value, now);
      && FinalizeJob(a, s.rows.job, now).Some?
      && SlotOk(cfg, s.(rows := s.rows.(job := FinalizeJob(a, s.rows.job, now).value, approval := Some(a))))
  {
    ExpiryLogged(s.rows.approval.value, now);
    SettledKeeps(cfg, s, s.rows, ExpireLocked(s.rows.approval.value, now), now);
  }

  lemma RejectionKeeps(cfg: Config, s: Slot, actor: Id, now: Time)
    requires SlotOk(cfg, s) && s.rows.approval.Some? && s.rows.approval.value.status == Pending
    requires now < s.rows.approval.value.expiresAt
    ensures var a := RejectedBy(s.rows.approval.value, actor, now);
      && FinalizeJob(a, s.rows.job, now).Some?
      && SlotOk(cfg, s.(rows := s.rows.(job := FinalizeJob(a, s.rows.job, now).value, approval := Some(a))))
  {
    RejectionLogged(s.rows.approval.value, actor, now);
    SettledKeeps(cfg, s, s.rows, RejectedBy(s.rows.approval.value, actor, now), now);
  }

  lemma NothingPending(rules: Rules, s: Store, job: Id, tenant: Id, actor: Id, approve: bool, now: Time, l: Lookups)
    requires s.rows.approval.Some? ==> s.rows.approval.value.status != Pending
    ensures Decide(rules, s, job, tenant, actor, approve, now, l).store == s
  {
  }

  lemma VerdictKeeps(cfg: Config, job: Id, s: Slot, cases: Cases, e: Event)
    requires SlotOk(cfg, s) && e.Verdict?
    ensures SlotOk(cfg, Happen(cfg, job, s, cases, e).0)
  {
    var store := Store(s.rows, cases);
    var end := Decide(cfg.rules, store, job, e.tenant, e.actor, e.approve, e.now, e.lookups);
    assert Happen(cfg, job, s, cases, e).0 == s.(rows := end.store.rows);
    if s.rows.approval.None? || s.rows.approval.value.status != Pending {
      NothingPending(cfg.rules, store, job, e.tenant, e.actor, e.approve, e.now, e.lookups);
    } else if s.rows.approval.value.expiresAt <= e.now {
      DecideLate(cfg.rules, store, job, e.tenant, e.actor, e.approve, e.now, e.lookups);
      ExpiryKeeps(cfg, s, e.now);
    } else if !e.approve {
      DecideReject(cfg.rules, store, job, e.tenant, e.actor, e.now, e.lookups);
      RejectionKeeps(cfg, s, e.actor, e.now);
    } else {
      DecideApprove(cfg.rules, store, job, e.tenant, e.actor, e.now, e.lookups);
      if ExecuteApproved(store, job, s.rows.approval.value, e.now, e.lookups).Some? {
        ApprovedKeeps(cfg, job, s, cases, e.actor, e.now, e.lookups);
      }
    }
  }
}
