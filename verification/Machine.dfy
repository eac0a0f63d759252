/** The whole system as a machine: every transaction is one step, interleaved in any order.
    Workers hold tokens (job, attempt) that may be stale (app/workers/agent_worker.py). */
module Machine {
  import opened Values
  import opened Profiles
  import Policy
  import opened Commands
  import opened JobResults
  import opened Durable

  datatype Config = Config(rules: Rules, maxRetries: nat, approvalTimeout: nat)

  /** What the agent thread of one attempt has done: build its runtime, run, ask for approval (its last
      call), get it back. `NoRuntime` is a preflight refusal. A thread may outlive its worker's interest. */
  datatype Thread =
    | Building | Working | Asking(command: Command, reason: Policy.Reason) | Granted(command: Command) | NoRuntime

  /** The transaction a worker has decided on. */
  datatype Intent =
    | RetryIt(code: ErrorCode) | FailIt(code: ErrorCode) | UncertainIt(code: ErrorCode)
    | SucceedIt(result: Result) | ParkIt(result: Result)

  datatype Control = Executing | Resolved(intent: Intent) | Finished

  /** One claimed attempt: whether the claim already saw a marker, its thread and its worker. */
  datatype Attempt = Attempt(markerSeen: bool, thread: Thread, control: Control)

  datatype Slot = Slot(rows: Rows, attempts: map<nat, Attempt>)

  datatype World = World(jobs: map<Id, Slot>, cases: Cases)

  datatype RetryCause = ProviderDown | GatewayTimedOut | JobTimedOut

  function CauseCode(c: RetryCause): ErrorCode {
    match c
    case ProviderDown => ProviderUnavailable
    case GatewayTimedOut => GatewayTimeout
    case JobTimedOut => WorkerTimeout
  }

  /** How one execution ended, as `serve_once` classifies it. */
  datatype RunOutcome =
    | PreflightUnreadable(summary: Result)
    | PreflightFailed(incompatible: bool)
    | Complete(emptyPath: bool, parks: bool, summary: Result)
    | AgentFailure(toolFailed: bool)
    | Retryable(cause: RetryCause)
    | ProviderRejected
    | Unexpected
    | LeaseLost

  predicate InspectsMarker(o: RunOutcome) {
    o.AgentFailure? || o.Retryable? || o.ProviderRejected? || o.Unexpected?
  }

  /** The branches of `serve_once`, `_persist_result` and `_persist_preflight_result`. */
  function IntentFor(o: RunOutcome, hasEffect: bool, attempt: nat, maxRetries: nat): Intent
    requires !o.LeaseLost?
  {
    match o
    case PreflightUnreadable(summary) => SucceedIt(summary)
    case PreflightFailed(incompatible) => FailIt(if incompatible then SnapshotIncompatible else CapabilityUnavailable)
    case Complete(emptyPath, parks, summary) =>
      if emptyPath then FailIt(AgentFailed) else if parks then ParkIt(summary) else SucceedIt(summary)
    case AgentFailure(toolFailed) =>
      if hasEffect then UncertainIt(AgentFailedAfterSideEffect)
      else FailIt(if toolFailed then ToolFailed else AgentFailed)
    case Retryable(cause) =>
      if hasEffect then UncertainIt(SideEffectCommitted)
      else if attempt > maxRetries then FailIt(RetryExhausted)
      else RetryIt(CauseCode(cause))
    case ProviderRejected =>
      if hasEffect then UncertainIt(UnexpectedAfterSideEffect) else FailIt(ProviderRequestRejected)
    case Unexpected => if hasEffect then UncertainIt(UnexpectedAfterSideEffect) else FailIt(WorkerError)
  }

  /** The marker read is fenced too: without the lease the worker stops. */
  function AfterRun(job: Job, tenant: Id, k: nat, a: Attempt, o: RunOutcome, maxRetries: nat): Control {
    if o.LeaseLost? then Finished
    else if !InspectsMarker(o) then Resolved(IntentFor(o, false, k, maxRetries))
    else if a.markerSeen then Resolved(IntentFor(o, true, k, maxRetries))
    else if !Owned(job, tenant, k) then Finished
    else Resolved(IntentFor(o, job.marker.Some?, k, maxRetries))
  }

  /** A completed gated run parks exactly when its request was granted, and its path is not empty
      (`RunProperties.ParkingRuns`); a preflight result means no runtime was built. */
  predicate OutcomeFits(t: Thread, o: RunOutcome) {
    match o
    case PreflightUnreadable(_) => t.Building?
    case PreflightFailed(_) => t.Building?
    case Complete(emptyPath, parks, _) => !emptyPath && (if parks then t.Granted? else t.Working?)
    case _ => true
  }

  datatype Event =
    | Claim(now: Time, until: Time, excluded: set<Id>)
    | Renew(k: nat, until: Time)
    | Build(k: nat)
    | Tool(k: nat, tx: ToolTx, now: Time)
    | Ask(k: nat, command: Command, reason: Policy.Reason)
    | Stage(k: nat, approvalId: Id, now: Time)
    | Finish(k: nat, outcome: RunOutcome)
    | Commit(k: nat, now: Time, availableAt: Time)
    | Verdict(tenant: Id, actor: Id, approve: bool, now: Time, lookups: Lookups)

  /** Sweeps act on any set of rows that is not locked by others. */
  datatype Step =
    | Enqueue(job: Id, tenant: Id, trace: Id, profile: Profile, now: Time)
    | At(job: Id, event: Event)
    | RecoverLeases(now: Time, delay: nat, unlocked: set<Id>)
    | ExpireApprovals(now: Time, unlocked: set<Id>)

  function Attempts(s: Slot, k: nat, a: Attempt): Slot { s.(attempts := s.attempts[k := a]) }

  /** The terminal, retry or park transaction; a lost lease changes nothing. */
  function CommitRows(r: Rows, tenant: Id, k: nat, intent: Intent, now: Time, availableAt: Time): Option<Rows> {
    match intent
    case RetryIt(code) => ScheduleRetry(r, tenant, k, code, availableAt)
    case FailIt(code) => MarkTerminal(r, tenant, k, Failed, now, None, Some(code))
    case UncertainIt(code) => MarkTerminal(r, tenant, k, FailedUncertain, now, None, Some(code))
    case SucceedIt(result) => MarkTerminal(r, tenant, k, Succeeded, now, Some(result), None)
    case ParkIt(result) => Park(r, tenant, k, result)
  }

  /** An attempt's own steps and the claim; decisions are in `Happen`. */
  function SlotEvent(cfg: Config, s: Slot, e: Event): Slot {
    var tenant := s.rows.job.tenant;
    match e
    case Claim(now, until, excluded) =>
      if !Claimable(s.rows.job, now, excluded) then s
      else
        var job := ClaimJob(s.rows.job, now, until);
        Attempts(s.(rows := s.rows.(job := job)), job.attempt, Attempt(job.marker.Some?, Building, Executing))
    case Renew(k, until) =>
      if k !in s.attempts then s else s.(rows := RenewLease(s.rows, tenant, k, until))
    case Build(k) =>
      if k !in s.attempts || !s.attempts[k].thread.Building? then s
      else Attempts(s, k, s.attempts[k].(thread := Working))
    case Ask(k, command, reason) =>
      if k !in s.attempts || !s.attempts[k].thread.Working?
         || !Authorized(cfg.rules, s.rows.job.profile, command) then s
      else Attempts(s, k, s.attempts[k].(thread := Asking(command, reason)))
    case Stage(k, id, now) =>
      if k !in s.attempts || !s.attempts[k].thread.Asking? then s
      else
        var t := s.attempts[k].thread;
        var after := CreateApproval(s.rows, tenant, k, id, t.command, t.reason, now + cfg.approvalTimeout);
        if after.None? then s
        else Attempts(s.(rows := after.value), k, s.attempts[k].(thread := Granted(t.command)))
    case Finish(k, o) =>
      if k !in s.attempts || !s.attempts[k].control.Executing? || !OutcomeFits(s.attempts[k].thread, o) then s
      else
        var a := s.attempts[k];
        Attempts(s, k, a.(control := AfterRun(s.rows.job, tenant, k, a, o, cfg.maxRetries),
                          thread := if o.PreflightUnreadable? || o.PreflightFailed? then NoRuntime else a.thread))
    case Commit(k, now, availableAt) =>
      if k !in s.attempts || !s.attempts[k].control.Resolved? then s
      else
        var after := CommitRows(s.rows, tenant, k, s.attempts[k].control.intent, now, availableAt);
        Attempts(if after.Some? then s.(rows := after.value) else s, k, s.attempts[k].(control := Finished))
    case Tool(_, _, _) => s
    case Verdict(_, _, _, _, _) => s
  }

  predicate ThreadRuns(s: Slot, k: nat) {
    k in s.attempts && !s.attempts[k].thread.Building? && !s.attempts[k].thread.NoRuntime?
  }

  /** Any event of one job, with the cases it may touch. */
  function Happen(cfg: Config, job: Id, s: Slot, cases: Cases, e: Event): (Slot, Cases) {
    match e
    case Tool(k, tx, now) =>
      if !ThreadRuns(s, k) then (s, cases)
      else
        var after := RunTool(Store(s.rows, cases), job, s.rows.job.tenant, k, tx, now);
        if after.None? then (s, cases) else (s.(rows := after.value.rows), after.value.cases)
    case Verdict(tenant, actor, approve, now, lookups) =>
      var end := Decide(cfg.rules, Store(s.rows, cases), job, tenant, actor, approve, now, lookups);
      (s.(rows := end.store.rows), end.store.cases)
    case _ => (SlotEvent(cfg, s, e), cases)
  }

  function Recovered(cfg: Config, s: Slot, now: Time, delay: nat): Slot {
    s.(rows := RecoverRows(s.rows, now, cfg.maxRetries, delay))
  }

  function Swept(s: Slot, now: Time): Slot {
    var after := ExpireRows(s.rows, now);
    if after.None? then s else s.(rows := after.value)
  }

  /** A conflict on any row of the sweep would roll the whole sweep back. */
  predicate SweepConflicts(w: World, now: Time, unlocked: set<Id>) {
    exists j <- w.jobs :: j in unlocked && ExpireRows(w.jobs[j].rows, now).None?
  }

  function Apply(cfg: Config, w: World, step: Step): World {
    match step
    case Enqueue(j, tenant, trace, profile, now) =>
      if j in w.jobs || !ValidProfile(profile) then w
      else w.(jobs := w.jobs[j := Slot(Rows(NewJob(tenant, trace, profile, now), None, None, map[], []), map[])])
    case At(j, e) =>
      if j !in w.jobs then w
      else
        var (slot, cases) := Happen(cfg, j, w.jobs[j], w.cases, e);
        World(w.jobs[j := slot], cases)
    case RecoverLeases(now, delay, unlocked) =>
      w.(jobs := map j | j in w.jobs :: if j in unlocked then Recovered(cfg, w.jobs[j], now, delay) else w.jobs[j])
    case ExpireApprovals(now, unlocked) =>
      if SweepConflicts(w, now, unlocked) then w
      else w.(jobs := map j | j in w.jobs :: if j in unlocked then Swept(w.jobs[j], now) else w.jobs[j])
  }

  /** The state after a whole history. */
  function Run(cfg: Config, w: World, steps: seq<Step>): World {
    if steps == [] then w else Apply(cfg, Run(cfg, w, steps[..|steps| - 1]), steps[|steps| - 1])
  }

  const EMPTY := World(map[], map[])
}
