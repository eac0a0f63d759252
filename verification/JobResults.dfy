/** The JSON result stored on a job: written by the worker, kept by decisions, projected for readers
    (app/workers/agent_worker.py, app/domain/approval_repository.py, app/domain/jobs.py). */
module JobResults {
  import opened Values
  import opened Profiles
  import Policy
  import Gate
  import opened AgentLoop
  import opened RunProperties

  type Result = map<string, Json>

  const MAX_EXECUTION_STEPS: nat := 8

  // ---------------------------------------------------------------- closed vocabularies

  function DecisionText(d: Policy.Decision): string {
    match d
    case Allow => "allow"
    case NeedsApproval => "needs_approval"
    case Deny => "deny"
  }

  function StatusText(s: Policy.Status): string {
    match s
    case Urgent => "urgent"
    case AwaitingInput => "awaiting_input"
    case PendingApproval => "pending_approval"
    case Ready => "ready"
    case Rejected => "rejected"
  }

  function OutcomeText(o: Gate.OutcomeCode): string {
    match o
    case Executed => "executed"
    case NotFound => "not_found"
    case InvalidArguments => "invalid_arguments"
    case BackendFailure => "backend_failure"
  }

  const DECISIONS := {"allow", "needs_approval", "deny"}
  const STATUSES := {"urgent", "awaiting_input", "pending_approval", "ready", "rejected"}
  const REASONS := {
    "safety_or_legal_risk", "unknown_intake_type", "missing_required_fields", "invalid_field_values",
    "action_not_configured", "action_not_executable", "action_not_allowed", "approval_required",
    "action_allowed", "no_action_requested", "document_unreadable"}
  const STOP_REASONS := {
    "final", "invalid_proposal", "repeated_tool", "max_steps", "executor_stopped", "tool_execution_failed"}
  const OUTCOMES := {
    "success", "failed", "authenticated", "rejected", "verified", "missing", "malformed", "stale", "mismatch",
    "created", "reused", "conflict", "claimed", "started", "retry_scheduled", "lease_lost", "recovered",
    "succeeded", "failed_uncertain", "completed", "terminal", "tool_requested", "invalid_schema", "timeout",
    "network_error", "http_error", "allow", "deny", "needs_approval", "approved", "expired", "executed",
    "not_found", "invalid_arguments", "backend_failure", "no_result"}
  const ENTRY_KEYS := {
    "step", "action_key", "action_known", "policy_decision", "routing_status", "policy_reason",
    "missing_required_fields", "tool_outcome", "side_effect_committed"}

  // ---------------------------------------------------------------- writing

  function OptionalText(t: Option<string>): Json { if t.Some? then JStr(t.value) else JNull }

  ghost function Listed(names: set<string>): (xs: seq<string>)
    ensures (set x <- xs) == names
  {
    if names == {} then []
    else
      var x :| x in names;
      assert names == {x} + (names - {x});
      [x] + Listed(names - {x})
  }

  ghost function Texts(names: set<string>): Json {
    var xs := Listed(names);
    JArr(seq(|xs|, i requires 0 <= i < |xs| => JStr(xs[i])))
  }

  ghost function EntryJson(e: PathEntry): Json {
    var x := e.evidence;
    JObj(map[
      "step" := JInt(e.step),
      "action_key" := OptionalText(x.actionKey),
      "action_known" := JBool(x.actionKnown),
      "policy_decision" := JStr(DecisionText(x.decision)),
      "routing_status" := JStr(StatusText(x.status)),
      "policy_reason" := JStr(Policy.ReasonText(x.reason)),
      "missing_required_fields" := Texts(x.missing),
      "tool_outcome" := if x.toolOutcome.Some? then JStr(OutcomeText(x.toolOutcome.value)) else JNull,
      "side_effect_committed" := JBool(x.sideEffect)])
  }

  /** The last step about a known action, else the last step. */
  function RoutingStep(path: seq<PathEntry>): (e: PathEntry)
    requires path != []
    ensures e in path
  {
    var last := path[|path| - 1];
    if last.evidence.actionKey.Some? then last
    else if exists e <- path :: e.evidence.actionKey.Some? then
      assert exists e <- path[..|path| - 1] :: e.evidence.actionKey.Some?;
      RoutingStep(path[..|path| - 1])
    else last
  }

  ghost function PathJson(path: seq<PathEntry>): (r: seq<Json>)
    ensures |r| == |path|
  {
    if path == [] then [] else PathJson(path[..|path| - 1]) + [EntryJson(path[|path| - 1])]
  }

  function BusinessOutcome(r: RunResult): string
    requires r.path != []
  {
    if RoutingStep(r.path).evidence.toolOutcome.Some? then "tool_result"
    else if ApprovalWasRequested(r) then "approval_requested"
    else "routing_only"
  }

  ghost function RunFacts(r: RunResult): Result {
    map[
      "status" := JStr(if r.completed then "completed" else "failed"),
      "reason" := JStr(StopText(r.reason)),
      "steps" := JInt(r.steps),
      "execution_path" := JArr(PathJson(r.path))]
  }

  ghost function RoutingFacts(r: RunResult): Result
    requires r.path != []
  {
    var terminal := RoutingStep(r.path).evidence;
    map[
      "routing_status" := JStr(StatusText(terminal.status)),
      "routing_reason" := JStr(Policy.ReasonText(terminal.reason)),
      "missing_required_fields" := Texts(terminal.missing),
      "business_outcome" := JStr(BusinessOutcome(r))]
  }

  /** `_result_summary`. */
  ghost function ResultSummary(r: RunResult): Result {
    if r.path == [] then RunFacts(r) else RunFacts(r) + RoutingFacts(r)
  }

  const PRESERVED := {
    "reason", "steps", "execution_path", "routing_status", "routing_reason", "missing_required_fields"}

  /** What `finalize_job_for_decision` stores: the run's facts and the decision, nothing else. */
  function DecidedResult(result: Option<Result>, outcome: string, approval: Id, status: string,
                         caseId: Option<Id>): Result {
    var stored := if result.Some? then result.value else map[];
    (map k | k in stored && k in PRESERVED :: stored[k])
    + map["business_outcome" := JStr(outcome),
          "approval_id" := JInt(approval),
          "approval_status" := JStr(status),
          "result_reference" := JObj(if caseId.Some? then map["case_id" := JInt(caseId.value)] else map[])]
  }

  // ---------------------------------------------------------------- reading

  datatype PathRead = PathRead(
    step: int, actionKey: Option<string>, actionKnown: bool, decision: string, status: string, reason: string,
    missing: set<string>, toolOutcome: Option<string>, sideEffect: bool)

  datatype ExecutionRead = ExecutionRead(steps: Option<int>, stopReason: Option<string>, path: seq<PathRead>)

  datatype RoutingRead = RoutingRead(status: Option<string>, reason: Option<string>, missing: set<string>)

  predicate AllTexts(xs: seq<Json>) { forall x <- xs :: x.JStr? }

  function TextSet(xs: seq<Json>): set<string>
    requires AllTexts(xs)
  {
    set x | x in xs :: x.s
  }

  function Lookup(r: map<string, Json>, key: string): Json { if key in r then r[key] else JNull }

  /** The structural checks on one stored entry. */
  predicate Acceptable(item: Json, registered: set<string>, previous: int) {
    && item.JObj?
    && item.members.Keys == ENTRY_KEYS
    && var m := item.members;
    && m["step"].JInt? && 1 <= m["step"].n <= MAX_EXECUTION_STEPS && m["step"].n > previous
    && m["action_known"].JBool?
    && (m["action_known"].b ==> m["action_key"].JStr? && m["action_key"].s in registered)
    && (!m["action_known"].b ==> m["action_key"].JNull?)
    && m["missing_required_fields"].JArr? && AllTexts(m["missing_required_fields"].items)
    && m["side_effect_committed"].JBool?
  }

  /** The vocabularies and identifiers the read model insists on. */
  predicate Decodable(rules: Rules, m: map<string, Json>)
    requires m.Keys == ENTRY_KEYS && m["missing_required_fields"].JArr? && AllTexts(m["missing_required_fields"].items)
  {
    && m["policy_decision"].JStr? && m["policy_decision"].s in DECISIONS
    && m["routing_status"].JStr? && m["routing_status"].s in STATUSES
    && m["policy_reason"].JStr? && m["policy_reason"].s in REASONS
    && (m["tool_outcome"].JNull? || (m["tool_outcome"].JStr? && m["tool_outcome"].s in OUTCOMES))
    && (m["action_key"].JStr? ==> rules.safeIdentifier(m["action_key"].s))
    && (forall name <- TextSet(m["missing_required_fields"].items) :: rules.safeIdentifier(name))
  }

  function ReadEntry(rules: Rules, item: Json, registered: set<string>, previous: int): Option<PathRead> {
    if !Acceptable(item, registered, previous) || !Decodable(rules, item.members) then None
    else
      var m := item.members;
      Some(PathRead(
        m["step"].n,
        if m["action_key"].JStr? then Some(m["action_key"].s) else None,
        m["action_known"].b,
        m["policy_decision"].s, m["routing_status"].s, m["policy_reason"].s,
        TextSet(m["missing_required_fields"].items),
        if m["tool_outcome"].JStr? then Some(m["tool_outcome"].s) else None,
        m["side_effect_committed"].b))
  }

  /** The whole path, or nothing at all. */
  function ReadPath(rules: Rules, items: seq<Json>, registered: set<string>): (r: Option<seq<PathRead>>)
    ensures r.Some? ==> |r.value| == |items|
  {
    if items == [] then Some([])
    else
      var n := |items| - 1;
      var front := ReadPath(rules, items[..n], registered);
      if front.None? then None
      else
        var previous := if n == 0 then 0 else front.value[|front.value| - 1].step;
        var last := ReadEntry(rules, items[n], registered, previous);
        if last.None? then None else Some(front.value + [last.value])
  }

  function ReadSteps(r: Result): Option<int> {
    var steps := Lookup(r, "steps");
    if steps.JInt? && 0 <= steps.n <= MAX_EXECUTION_STEPS then Some(steps.n) else None
  }

  function ReadReason(r: Result): Option<string> {
    var reason := Lookup(r, "reason");
    if reason.JStr? && reason.s in STOP_REASONS then Some(reason.s) else None
  }

  function ReadExecution(rules: Rules, result: Option<Result>, registered: set<string>): ExecutionRead {
    if result.None? || ("steps" !in result.value && "execution_path" !in result.value) then
      ExecutionRead(None, None, [])
    else
      var r := result.value;
      var raw := Lookup(r, "execution_path");
      var path :=
        if raw.JArr? && |raw.items| <= MAX_EXECUTION_STEPS then ReadPath(rules, raw.items, registered) else None;
      ExecutionRead(ReadSteps(r), ReadReason(r), if path.Some? then path.value else [])
  }

  function ReadRouting(result: Option<Result>): RoutingRead {
    if result.None? then RoutingRead(None, None, {})
    else
      var status, reason := Lookup(result.value, "routing_status"), Lookup(result.value, "routing_reason");
      var missing := Lookup(result.value, "missing_required_fields");
      RoutingRead(
        if status.JStr? then Some(status.s) else None,
        if reason.JStr? then Some(reason.s) else None,
        if missing.JArr? && AllTexts(missing.items) then TextSet(missing.items) else {})
  }

  lemma {:induction false} UnreadablePrefix(rules: Rules, items: seq<Json>, registered: set<string>, i: nat)
    requires i <= |items| && ReadPath(rules, items[..i], registered).None?
    ensures ReadPath(rules, items, registered).None?
    decreases |items| - i
  {
    if i == |items| {
      assert items[..i] == items;
    } else {
      assert items[..i + 1][..i] == items[..i];
      UnreadablePrefix(rules, items, registered, i + 1);
    }
  }

  /** The loop of `_safe_execution_values` over the stored path: the first unreadable entry empties it. */
  method SafePathValues(rules: Rules, items: seq<Json>, registered: set<string>) returns (r: Option<seq<PathRead>>)
    ensures r == ReadPath(rules, items, registered)
  {
    var path: seq<PathRead> := [];
    var previousStep := 0;
    for i := 0 to |items|
      invariant |path| == i
      invariant ReadPath(rules, items[..i], registered) == Some(path)
      invariant previousStep == if i == 0 then 0 else path[i - 1].step
    {
      assert items[..i + 1][..i] == items[..i];
      var entry := ReadEntry(rules, items[i], registered, previousStep);
      if entry.None? {
        UnreadablePrefix(rules, items, registered, i + 1);
        return None;
      }
      path := path + [entry.value];
      previousStep := entry.value.step;
    }
    assert items[..|items|] == items;
    r := Some(path);
  }

  /** `_safe_execution_values`. */
  method SafeExecutionValues(rules: Rules, result: Option<Result>, registered: set<string>) returns (r: ExecutionRead)
    ensures r == ReadExecution(rules, result, registered)
  {
    if result.None? || ("steps" !in result.value && "execution_path" !in result.value) {
      return ExecutionRead(None, None, []);
    }
    var agentSteps := ReadSteps(result.value);
    var stopReason := ReadReason(result.value);
    var raw := Lookup(result.value, "execution_path");
    if !raw.JArr? || |raw.items| > MAX_EXECUTION_STEPS {
      return ExecutionRead(agentSteps, stopReason, []);
    }
    var path := SafePathValues(rules, raw.items, registered);
    r := ExecutionRead(agentSteps, stopReason, if path.Some? then path.value else []);
  }

  // ---------------------------------------------------------------- round trip

  /** The read form of one path entry: the same nine facts, in their closed vocabularies. */
  function ReadOf(e: PathEntry): PathRead {
    var x := e.evidence;
    PathRead(e.step, x.actionKey, x.actionKnown, DecisionText(x.decision), StatusText(x.status),
             Policy.ReasonText(x.reason), x.missing,
             if x.toolOutcome.Some? then Some(OutcomeText(x.toolOutcome.value)) else None, x.sideEffect)
  }

  function Reads(path: seq<PathEntry>): (r: seq<PathRead>)
    ensures |r| == |path|
  {
    if path == [] then [] else Reads(path[..|path| - 1]) + [ReadOf(path[|path| - 1])]
  }

  predicate SafeEvidence(rules: Rules, x: Gate.StepEvidence) {
    && (x.actionKnown <==> x.actionKey.Some?)
    && (x.actionKey.Some? ==> rules.safeIdentifier(x.actionKey.value))
    && (forall name <- x.missing :: rules.safeIdentifier(name))
  }

  /** What every gated run guarantees of its path (see `GatedRuns.SafePathsFrom`). */
  predicate SafePath(rules: Rules, path: seq<PathEntry>, steps: nat) {
    && |path| <= steps <= MAX_EXECUTION_STEPS
    && (forall i :: 0 <= i < |path| ==>
          && 1 <= path[i].step <= steps && (i > 0 ==> path[i - 1].step < path[i].step)
          && SafeEvidence(rules, path[i].evidence))
  }

  predicate KnownActionsRegistered(path: seq<PathEntry>, registered: set<string>) {
    forall e <- path ::
      e.evidence.actionKnown ==> e.evidence.actionKey.Some? && e.evidence.actionKey.value in registered
  }

  lemma TextsReadBack(names: set<string>)
    ensures Texts(names).JArr? && AllTexts(Texts(names).items) && TextSet(Texts(names).items) == names
  {
    var xs := Listed(names);
    var items := Texts(names).items;
    forall name ensures name in TextSet(items) <==> name in names {
      if name in names {
        assert name in xs;
        var i :| 0 <= i < |xs| && xs[i] == name;
        assert items[i] == JStr(name);
      }
      if name in TextSet(items) {
        var x :| x in items && x.s == name;
        var i :| 0 <= i < |items| && items[i] == x;
        assert xs[i] == name;
      }
    }
  }

  lemma EntryIsDecodable(rules: Rules, e: PathEntry)
    requires SafeEvidence(rules, e.evidence)
    ensures EntryJson(e).members.Keys == ENTRY_KEYS
    ensures var m := EntryJson(e).members;
      m["missing_required_fields"].JArr? && AllTexts(m["missing_required_fields"].items) && Decodable(rules, m)
  {
    TextsReadBack(e.evidence.missing);
  }

  lemma EntryIsAcceptable(e: PathEntry, registered: set<string>, previous: int)
    requires 1 <= e.step <= MAX_EXECUTION_STEPS && previous < e.step
    requires e.evidence.actionKnown <==> e.evidence.actionKey.Some?
    ensures Acceptable(EntryJson(e), registered, previous)
      == (e.evidence.actionKnown ==> e.evidence.actionKey.value in registered)
  {
    TextsReadBack(e.evidence.missing);
    assert EntryJson(e).members.Keys == ENTRY_KEYS;
  }

  lemma EntryRoundTrip(rules: Rules, e: PathEntry, registered: set<string>, previous: int)
    requires SafeEvidence(rules, e.evidence) && 1 <= e.step <= MAX_EXECUTION_STEPS && previous < e.step
    ensures ReadEntry(rules, EntryJson(e), registered, previous)
      == if e.evidence.actionKnown ==> e.evidence.actionKey.value in registered then Some(ReadOf(e)) else None
  {
    TextsReadBack(e.evidence.missing);
    EntryIsDecodable(rules, e);
    EntryIsAcceptable(e, registered, previous);
  }

  lemma SafePrefix(rules: Rules, path: seq<PathEntry>, steps: nat, registered: set<string>)
    requires path != [] && SafePath(rules, path, steps)
    ensures var n := |path| - 1;
      && SafePath(rules, path[..n], steps)
      && SafeEvidence(rules, path[n].evidence)
      && 1 <= path[n].step <= MAX_EXECUTION_STEPS
      && LastStep(path[..n]) < path[n].step
      && KnownActionsRegistered(path, registered)
        == (KnownActionsRegistered(path[..n], registered)
            && (path[n].evidence.actionKnown ==> path[n].evidence.actionKey.value in registered))
  {
    var n := |path| - 1;
    assert path == path[..n] + [path[n]];
  }

  function LastStep(path: seq<PathEntry>): nat { if path == [] then 0 else path[|path| - 1].step }

  lemma ReadPathAppended(rules: Rules, items: seq<Json>, item: Json, registered: set<string>)
    ensures ReadPath(rules, items + [item], registered) ==
      var front := ReadPath(rules, items, registered);
      if front.None? then None
      else
        var last := ReadEntry(rules, item, registered, if items == [] then 0 else front.value[|items| - 1].step);
        if last.None? then None else Some(front.value + [last.value])
  {
    assert (items + [item])[..|items|] == items;
  }

  /** One more entry: whatever its JSON is, if it reads back as the entry, the longer path reads back. */
  lemma LongerPathReadsBack(rules: Rules, front: seq<PathEntry>, e: PathEntry, items: seq<Json>, item: Json,
                            registered: set<string>)
    requires |items| == |front|
    requires ReadPath(rules, items, registered)
      == if KnownActionsRegistered(front, registered) then Some(Reads(front)) else None
    requires KnownActionsRegistered(front, registered) ==>
      ReadEntry(rules, item, registered, LastStep(front))
      == if KnownActionsRegistered([e], registered) then Some(ReadOf(e)) else None
    ensures ReadPath(rules, items + [item], registered)
      == if KnownActionsRegistered(front + [e], registered) then Some(Reads(front + [e])) else None
  {
    ReadPathAppended(rules, items, item, registered);
    assert (front + [e])[..|front|] == front;
    assert e in [e] && e in front + [e] && forall x <- front :: x in front + [e];
    if front != [] {
      ReadAt(front, |front| - 1);
    }
  }

  lemma {:induction false} ReadAt(path: seq<PathEntry>, i: nat)
    requires i < |path|
    ensures Reads(path)[i] == ReadOf(path[i])
  {
    if i < |path| - 1 {
      ReadAt(path[..|path| - 1], i);
    }
  }

  lemma LastReadsBack(rules: Rules, path: seq<PathEntry>, steps: nat, registered: set<string>)
    requires path != [] && SafePath(rules, path, steps)
    ensures var n := |path| - 1;
      && SafePath(rules, path[..n], steps)
      && ReadEntry(rules, EntryJson(path[n]), registered, LastStep(path[..n]))
         == if KnownActionsRegistered([path[n]], registered) then Some(ReadOf(path[n])) else None
  {
    var n := |path| - 1;
    SafePrefix(rules, path, steps, registered);
    EntryRoundTrip(rules, path[n], registered, LastStep(path[..n]));
    assert path[n] in [path[n]];
  }

  lemma LongerJson(path: seq<PathEntry>)
    requires path != []
    ensures PathJson(path) == PathJson(path[..|path| - 1]) + [EntryJson(path[|path| - 1])]
  {
  }

  lemma FrontAndLast<T>(xs: seq<T>)
    requires xs != []
    ensures xs == xs[..|xs| - 1] + [xs[|xs| - 1]]
  {
  }

  /** A stored path reads back entry for entry exactly when the reader knows all of its actions, and not at all
      otherwise. */
  lemma {:induction false} PathRoundTrip(rules: Rules, path: seq<PathEntry>, steps: nat, registered: set<string>)
    requires SafePath(rules, path, steps)
    ensures ReadPath(rules, PathJson(path), registered)
      == if KnownActionsRegistered(path, registered) then Some(Reads(path)) else None
  {
    if path != [] {
      var front, e := path[..|path| - 1], path[|path| - 1];
      LastReadsBack(rules, path, steps, registered);
      PathRoundTrip(rules, front, steps, registered);
      LongerPathReadsBack(rules, front, e, PathJson(front), EntryJson(e), registered);
      LongerJson(path);
      FrontAndLast(path);
    }
  }

  // ---------------------------------------------------------------- what the words mean to a reader

  function DecisionNamed(word: string): Option<Policy.Decision> {
    if word == "allow" then Some(Policy.Allow)
    else if word == "deny" then Some(Policy.Deny)
    else if word == "needs_approval" then Some(Policy.NeedsApproval)
    else None
  }

  function StatusNamed(word: string): Option<Policy.Status> {
    if word == "ready" then Some(Policy.Ready)
    else if word == "rejected" then Some(Policy.Status.Rejected)
    else if word == "urgent" then Some(Policy.Status.Urgent)
    else if word == "awaiting_input" then Some(Policy.AwaitingInput)
    else if word == "pending_approval" then Some(Policy.PendingApproval)
    else None
  }

  function ReasonNamed(word: string): Option<Policy.Reason> {
    if word == "action_allowed" then Some(Policy.ActionAllowed)
    else if word == "no_action_requested" then Some(Policy.NoActionRequested)
    else if word == "approval_required" then Some(Policy.ApprovalRequired)
    else if word == "safety_or_legal_risk" then Some(Policy.SafetyOrLegalRisk)
    else if word == "missing_required_fields" then Some(Policy.MissingRequiredFields)
    else if word == "invalid_field_values" then Some(Policy.InvalidFieldValues)
    else if word == "unknown_intake_type" then Some(Policy.UnknownIntakeType)
    else if word == "document_unreadable" then Some(Policy.DocumentUnreadable)
    else if word == "action_not_configured" then Some(Policy.ActionNotConfigured)
    else if word == "action_not_executable" then Some(Policy.ActionNotExecutable)
    else if word == "action_not_allowed" then Some(Policy.ActionNotAllowed)
    else None
  }

  function OutcomeNamed(word: string): Option<Gate.OutcomeCode> {
    if word == "executed" then Some(Gate.Executed)
    else if word == "not_found" then Some(Gate.NotFound)
    else if word == "invalid_arguments" then Some(Gate.InvalidArguments)
    else if word == "backend_failure" then Some(Gate.BackendFailure)
    else None
  }

  function StopNamed(word: string): Option<StopReason> {
    if word == "executor_stopped" then Some(ExecutorStopped)
    else if word == "tool_execution_failed" then Some(ToolExecutionFailed)
    else if word == "repeated_tool" then Some(RepeatedTool)
    else if word == "max_steps" then Some(MaxSteps)
    else None
  }

  /** A reader of the entry learns all nine facts of the step. */
  predicate Tells(x: PathRead, e: PathEntry) {
    && x.step == e.step && x.actionKey == e.evidence.actionKey && x.actionKnown == e.evidence.actionKnown
    && DecisionNamed(x.decision) == Some(e.evidence.decision) && StatusNamed(x.status) == Some(e.evidence.status)
    && ReasonNamed(x.reason) == Some(e.evidence.reason) && x.missing == e.evidence.missing
    && (x.toolOutcome.Some? <==> e.evidence.toolOutcome.Some?)
    && (x.toolOutcome.Some? ==> OutcomeNamed(x.toolOutcome.value) == e.evidence.toolOutcome)
    && x.sideEffect == e.evidence.sideEffect
  }

  predicate TellsAll(xs: seq<PathRead>, path: seq<PathEntry>) {
    |xs| == |path| && forall i :: 0 <= i < |path| ==> Tells(xs[i], path[i])
  }

  lemma DecisionsTell(d: Policy.Decision)
    ensures DecisionNamed(DecisionText(d)) == Some(d)
  {
  }

  lemma StatusesTell(s: Policy.Status)
    ensures StatusNamed(StatusText(s)) == Some(s)
  {
  }

  lemma ReasonsTell(r: Policy.Reason)
    ensures ReasonNamed(Policy.ReasonText(r)) == Some(r)
  {
  }

  lemma OutcomesTell(o: Gate.OutcomeCode)
    ensures OutcomeNamed(OutcomeText(o)) == Some(o)
  {
  }

  lemma ReadTells(e: PathEntry)
    ensures Tells(ReadOf(e), e)
  {
    DecisionsTell(e.evidence.decision);
    StatusesTell(e.evidence.status);
    ReasonsTell(e.evidence.reason);
    if e.evidence.toolOutcome.Some? {
      OutcomesTell(e.evidence.toolOutcome.value);
    }
  }

  lemma ReadsTell(path: seq<PathEntry>)
    ensures TellsAll(Reads(path), path)
  {
    forall i | 0 <= i < |path| ensures Tells(Reads(path)[i], path[i]) {
      ReadAt(path, i);
      ReadTells(path[i]);
    }
  }

  lemma StopReasonsTell(r: StopReason)
    ensures StopNamed(StopText(r)) == Some(r)
  {
  }

  /** A reader learns the run's number of steps, its stop reason and every fact of its whole path. */
  ghost predicate ProjectsFaithfully(rules: Rules, stored: Result, r: RunResult, registered: set<string>) {
    var x := ReadExecution(rules, Some(stored), registered);
    && x.steps == Some(r.steps) && x.stopReason.Some? && StopNamed(x.stopReason.value) == Some(r.reason)
    && TellsAll(x.path, r.path)
  }

  lemma RunEntries(r: RunResult)
    ensures var s := RunFacts(r);
      && s.Keys == {"status", "reason", "steps", "execution_path"}
      && s["steps"] == JInt(r.steps) && s["reason"] == JStr(StopText(r.reason))
      && s["status"] == JStr(if r.completed then "completed" else "failed")
      && s["execution_path"] == JArr(PathJson(r.path))
  {
  }

  lemma RoutingEntries(r: RunResult)
    requires r.path != []
    ensures var s, x := RoutingFacts(r), RoutingStep(r.path).evidence;
      && s.Keys == {"routing_status", "routing_reason", "missing_required_fields", "business_outcome"}
      && s["routing_status"] == JStr(StatusText(x.status))
      && s["routing_reason"] == JStr(Policy.ReasonText(x.reason))
      && s["missing_required_fields"] == Texts(x.missing)
      && s["business_outcome"]
         == JStr(if x.toolOutcome.Some? then "tool_result"
                 else if ApprovalWasRequested(r) then "approval_requested" else "routing_only")
  {
  }

  /** The routing facts leave the run's facts as they are. */
  lemma RoutingAdds(run: Result, routing: Result)
    requires run.Keys == {"status", "reason", "steps", "execution_path"}
    requires routing.Keys == {"routing_status", "routing_reason", "missing_required_fields", "business_outcome"}
    ensures forall k <- run :: k in run + routing && (run + routing)[k] == run[k]
  {
  }

  lemma SummaryEntries(r: RunResult)
    ensures var s := ResultSummary(r);
      && "steps" in s
      && Lookup(s, "steps") == JInt(r.steps)
      && Lookup(s, "reason") == JStr(StopText(r.reason))
      && Lookup(s, "execution_path") == JArr(PathJson(r.path))
  {
    RunEntries(r);
    if r.path != [] {
      RoutingEntries(r);
      RoutingAdds(RunFacts(r), RoutingFacts(r));
    }
  }

  lemma StopReasonsAreKnown(r: StopReason)
    ensures StopText(r) in STOP_REASONS
  {
  }

  lemma ReadFromEntries(rules: Rules, s: Result, r: RunResult, registered: set<string>)
    requires SafePath(rules, r.path, r.steps)
    requires "steps" in s && Lookup(s, "steps") == JInt(r.steps)
    requires Lookup(s, "reason") == JStr(StopText(r.reason))
    requires Lookup(s, "execution_path") == JArr(PathJson(r.path))
    ensures ReadExecution(rules, Some(s), registered)
      == ExecutionRead(Some(r.steps), Some(StopText(r.reason)),
                       if KnownActionsRegistered(r.path, registered) then Reads(r.path) else [])
  {
    StopReasonsAreKnown(r.reason);
    PathRoundTrip(rules, r.path, r.steps, registered);
  }

  /** The stored summary projects back to the run's steps, reason and whole path exactly when every
      known action on the path is registered by the profile; otherwise the path is withheld entirely. */
  lemma SummaryRoundTrip(rules: Rules, r: RunResult, registered: set<string>)
    requires SafePath(rules, r.path, r.steps)
    ensures ProjectsFaithfully(rules, ResultSummary(r), r, registered) <==> KnownActionsRegistered(r.path, registered)
    ensures !KnownActionsRegistered(r.path, registered) ==>
      var x := ReadExecution(rules, Some(ResultSummary(r)), registered);
      x.steps == Some(r.steps) && x.stopReason.Some? && StopNamed(x.stopReason.value) == Some(r.reason) && x.path == []
  {
    var s := ResultSummary(r);
    SummaryEntries(r);
    ReadFromEntries(rules, s, r, registered);
    ReadsTell(r.path);
    StopReasonsTell(r.reason);
  }

  /** The entry that stands for the run: the last one about a known action, else the last. */
  predicate StandsFor(path: seq<PathEntry>, k: nat) {
    && k < |path|
    && (forall i :: k < i < |path| ==> path[i].evidence.actionKey.None?)
    && (path[k].evidence.actionKey.None? ==> k == |path| - 1 && forall e <- path :: e.evidence.actionKey.None?)
  }

  lemma {:induction false} RoutingStepStands(path: seq<PathEntry>, k: nat)
    requires StandsFor(path, k)
    ensures path[k] == RoutingStep(path)
  {
    var n := |path| - 1;
    assert path == path[..n] + [path[n]];
    if k < n {
      assert path[..n][k].evidence.actionKey.Some? && path[..n][k] in path[..n];
      RoutingStepStands(path[..n], k);
    }
  }

  lemma SummaryRouting(r: RunResult)
    requires r.path != []
    ensures var s, x := ResultSummary(r), RoutingStep(r.path).evidence;
      && Lookup(s, "status") == JStr(if r.completed then "completed" else "failed")
      && Lookup(s, "routing_status") == JStr(StatusText(x.status))
      && Lookup(s, "routing_reason") == JStr(Policy.ReasonText(x.reason))
      && Lookup(s, "missing_required_fields") == Texts(x.missing)
      && Lookup(s, "business_outcome")
         == JStr(if x.toolOutcome.Some? then "tool_result"
                 else if ApprovalWasRequested(r) then "approval_requested" else "routing_only")
  {
    RunEntries(r);
    RoutingEntries(r);
  }

  lemma RoutingReads(s: Result, x: Gate.StepEvidence)
    requires Lookup(s, "routing_status") == JStr(StatusText(x.status))
    requires Lookup(s, "routing_reason") == JStr(Policy.ReasonText(x.reason))
    requires Lookup(s, "missing_required_fields") == Texts(x.missing)
    ensures var read := ReadRouting(Some(s));
      && read.status.Some? && StatusNamed(read.status.value) == Some(x.status)
      && read.reason.Some? && ReasonNamed(read.reason.value) == Some(x.reason)
      && read.missing == x.missing
  {
    TextsReadBack(x.missing);
    StatusesTell(x.status);
    ReasonsTell(x.reason);
  }

  /** What a stored run says for itself: whether it completed, and the routing facts and business outcome of the entry
      that stands for it. */
  lemma RoutingRoundTrip(r: RunResult, k: nat)
    requires StandsFor(r.path, k)
    ensures var x, read := r.path[k].evidence, ReadRouting(Some(ResultSummary(r)));
      && read.status.Some? && StatusNamed(read.status.value) == Some(x.status)
      && read.reason.Some? && ReasonNamed(read.reason.value) == Some(x.reason)
      && read.missing == x.missing
    ensures Lookup(ResultSummary(r), "status") == JStr(if r.completed then "completed" else "failed")
    ensures Lookup(ResultSummary(r), "business_outcome")
      == JStr(if r.path[k].evidence.toolOutcome.Some? then "tool_result"
              else if ApprovalWasRequested(r) then "approval_requested" else "routing_only")
  {
    RoutingStepStands(r.path, k);
    SummaryRouting(r);
    RoutingReads(ResultSummary(r), r.path[k].evidence);
  }

  /** Both results hold the same facts about the run. */
  predicate SameFacts(a: Result, b: Result) {
    forall k | k in PRESERVED :: Lookup(a, k) == Lookup(b, k) && (k in a <==> k in b)
  }

  lemma SameFactsReadAlike(rules: Rules, a: Result, b: Result, registered: set<string>)
    requires SameFacts(a, b)
    ensures ReadExecution(rules, Some(a), registered) == ReadExecution(rules, Some(b), registered)
    ensures ReadRouting(Some(a)) == ReadRouting(Some(b))
  {
  }

  lemma DecisionsKeepFacts(stored: Result, outcome: string, approval: Id, status: string, caseId: Option<Id>)
    ensures SameFacts(DecidedResult(Some(stored), outcome, approval, status, caseId), stored)
  {
  }

  /** A later approval, rejection or expiry changes nothing a reader sees of the run. */
  lemma DecisionsKeepTheProjection(rules: Rules, stored: Result, registered: set<string>,
                                   outcome: string, approval: Id, status: string, caseId: Option<Id>)
    ensures var decided := DecidedResult(Some(stored), outcome, approval, status, caseId);
      && ReadExecution(rules, Some(decided), registered) == ReadExecution(rules, Some(stored), registered)
      && ReadRouting(Some(decided)) == ReadRouting(Some(stored))
  {
    DecisionsKeepFacts(stored, outcome, approval, status, caseId);
    SameFactsReadAlike(rules, DecidedResult(Some(stored), outcome, approval, status, caseId), stored, registered);
  }

  // ---------------------------------------------------------------- any stored JSON

  /** An entry a reader can be shown: exactly nine facts of the right types, in the closed vocabularies, about an action
      the profile registers or about none. */
  predicate Legible(rules: Rules, item: Json, registered: set<string>) {
    && item.JObj?
    && item.members.Keys
       == {"step", "action_key", "action_known", "policy_decision", "routing_status", "policy_reason",
           "missing_required_fields", "tool_outcome", "side_effect_committed"}
    && var m := item.members;
    && m["step"].JInt? && 1 <= m["step"].n <= 8
    && (|| (m["action_known"] == JBool(false) && m["action_key"] == JNull)
        || (&& m["action_known"] == JBool(true) && m["action_key"].JStr?
            && m["action_key"].s in registered && rules.safeIdentifier(m["action_key"].s)))
    && m["policy_decision"].JStr? && DecisionNamed(m["policy_decision"].s).Some?
    && m["routing_status"].JStr? && StatusNamed(m["routing_status"].s).Some?
    && m["policy_reason"].JStr? && ReasonNamed(m["policy_reason"].s).Some?
    && m["missing_required_fields"].JArr?
    && (forall x <- m["missing_required_fields"].items :: x.JStr? && rules.safeIdentifier(x.s))
    && (m["tool_outcome"] == JNull || (m["tool_outcome"].JStr? && m["tool_outcome"].s in OUTCOMES))
    && m["side_effect_committed"].JBool?
  }

  lemma EntriesReadExactly(rules: Rules, item: Json, registered: set<string>, previous: int)
    ensures var x := ReadEntry(rules, item, registered, previous);
      && (x.Some? <==> Legible(rules, item, registered) && StepOf(item) > previous)
      && (x.Some? ==> x.value.step == StepOf(item))
  {
  }

  function StepOf(item: Json): int {
    if item.JObj? && "step" in item.members && item.members["step"].JInt? then item.members["step"].n else 0
  }

  /** Every entry is legible, and each step comes after the one before. */
  predicate LegiblePath(rules: Rules, items: seq<Json>, registered: set<string>) {
    items == [] ||
    (var n := |items| - 1;
     && LegiblePath(rules, items[..n], registered) && Legible(rules, items[n], registered)
     && (n > 0 ==> StepOf(items[n - 1]) < StepOf(items[n])))
  }

  /** Whatever was stored as a path is shown exactly when every entry is legible and the steps increase. */
  lemma {:induction false} PathsReadExactly(rules: Rules, items: seq<Json>, registered: set<string>)
    ensures var r := ReadPath(rules, items, registered);
      && (r.Some? <==> LegiblePath(rules, items, registered))
      && (r.Some? && items != [] ==> r.value[|items| - 1].step == StepOf(items[|items| - 1]))
  {
    if items != [] {
      var n := |items| - 1;
      PathsReadExactly(rules, items[..n], registered);
      FrontAndLast(items);
      PathReadNext(rules, items[..n], items[n], registered);
    }
  }

  lemma PathReadNext(rules: Rules, items: seq<Json>, item: Json, registered: set<string>)
    requires ReadPath(rules, items, registered).Some? && items != [] ==>
      ReadPath(rules, items, registered).value[|items| - 1].step == StepOf(items[|items| - 1])
    ensures var r := ReadPath(rules, items + [item], registered);
      && (r.Some? <==> && ReadPath(rules, items, registered).Some? && Legible(rules, item, registered)
                       && (items != [] ==> StepOf(items[|items| - 1]) < StepOf(item)))
      && (r.Some? ==> r.value[|items|].step == StepOf(item))
  {
    ReadPathAppended(rules, items, item, registered);
    if ReadPath(rules, items, registered).Some? {
      EntriesReadExactly(rules, item, registered, if items == [] then 0 else StepOf(items[|items| - 1]));
    }
  }

  /** What any stored result shows of its run: a number of steps up to eight, a stop reason of the vocabulary, and a
      legible path of at most eight entries; each by itself, and only if the result speaks of steps or a path. */
  lemma ResultsReadExactly(rules: Rules, result: Option<Result>, registered: set<string>)
    ensures var x := ReadExecution(rules, result, registered);
      var speaks := result.Some? && ("steps" in result.value || "execution_path" in result.value);
      && (forall n :: x.steps == Some(n)
            <==> result.Some? && "steps" in result.value && result.value["steps"] == JInt(n) && 0 <= n <= 8)
      && (forall word :: x.stopReason == Some(word)
            <==> && speaks && "reason" in result.value && result.value["reason"] == JStr(word)
                 && (StopNamed(word).Some? || word == "final" || word == "invalid_proposal"))
      && (if speaks && "execution_path" in result.value && result.value["execution_path"].JArr?
             && |result.value["execution_path"].items| <= 8
             && LegiblePath(rules, result.value["execution_path"].items, registered) then
            ReadPath(rules, result.value["execution_path"].items, registered) == Some(x.path)
          else x.path == [])
  {
    if result.Some? && "execution_path" in result.value && result.value["execution_path"].JArr? {
      PathsReadExactly(rules, result.value["execution_path"].items, registered);
    }
  }

  /** The routing facts any stored result shows: its own words if they are words, and the names it lists if all are. */
  lemma RoutingReadsExactly(result: Option<Result>, word: string)
    ensures var x := ReadRouting(result);
      && (x.status == Some(word) <==>
            result.Some? && "routing_status" in result.value && result.value["routing_status"] == JStr(word))
      && (x.reason == Some(word) <==>
            result.Some? && "routing_reason" in result.value && result.value["routing_reason"] == JStr(word))
      && (word in x.missing <==>
            && result.Some? && "missing_required_fields" in result.value
            && result.value["missing_required_fields"].JArr?
            && JStr(word) in result.value["missing_required_fields"].items
            && forall item <- result.value["missing_required_fields"].items :: item.JStr?)
  {
    if result.Some? && "missing_required_fields" in result.value && result.value["missing_required_fields"].JArr? {
      var items := result.value["missing_required_fields"].items;
      if AllTexts(items) && JStr(word) in items {
        assert JStr(word).s in TextSet(items);
      }
    }
  }
}
