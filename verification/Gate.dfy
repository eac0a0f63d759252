/** Policy-gated execution of typed tools (app/tools/executor.py). */
module Gate {
  import opened Values
  import opened Profiles
  import FieldValues
  import opened Proposals
  import opened Policy
  import opened Commands

  /** How the persistence port answers one call. */
  datatype PortReply = Returned(ref: Id) | CustomerMissing | NoCase | Failed

  /** What happens around one gate call: cancellation seen at its start, or only just before the port is consulted,
      and the port's answer. */
  datatype Surroundings = Surroundings(cancelled: bool, cancelledLate: bool, reply: PortReply)

  datatype ToolData =
    | PolicyData(outcome: Outcome)
    | ApprovalData(outcome: Outcome, approvalId: Id)
    | RoutingOnly(outcome: Outcome)
    | Code(code: string)
    | Result(ref: Id)

  datatype Disposition = Continue | Completed | Stopped

  datatype OutcomeCode = Executed | NotFound | InvalidArguments | BackendFailure

  datatype StepEvidence = StepEvidence(
    actionKey: Option<string>,
    actionKnown: bool,
    decision: Decision,
    status: Status,
    reason: Reason,
    missing: set<string>,
    toolOutcome: Option<OutcomeCode>,
    sideEffect: bool)

  /** `Stopped` is the source's FAILED disposition. */
  datatype Execution = Execution(
    data: ToolData, disposition: Disposition, finalResponse: Option<string>, evidence: Option<StepEvidence>)

  datatype Reply = Raised | Replied(execution: Execution)

  /** What the gate asked of the port. */
  datatype PortUse =
    | Untouched
    | AskedApproval(command: Command, reason: Reason)
    | RanHandler(args: Args, fields: map<string, Value>)

  datatype Consultation = Consultation(reply: Reply, use: PortUse)

  function ToolOutcomeOf(data: ToolData): OutcomeCode {
    match data
    case Code(c) =>
      if c == "tool_arguments_invalid" then InvalidArguments
      else if c == "customer_not_found" || c == "case_not_found" then NotFound
      else if c == "tool_execution_failed" then BackendFailure
      else Executed
    case _ => Executed
  }

  function PolicyInput(rt: Runtime, p: Proposal, requested: string, requiresComplete: bool): Input {
    var accepted := Accepted(rt, p);
    Input(p.intakeType, p.overrideAttempt, p.priority == Critical, requested, requiresComplete,
          RegisteredActions(rt.profile), rt.profile, rt.source, rt.risk, accepted.values.Keys, accepted.invalid)
  }

  function ActionPolicy(rt: Runtime, p: Proposal, call: ToolCall): Outcome {
    var action := ActionNamed(call.name);
    Evaluate(PolicyInput(rt, p, call.name, action.Some? && RequiresCompleteFields(action.value)))
  }

  function Evidenced(data: ToolData, disposition: Disposition, response: Option<string>, action: Option<Action>,
                     o: Outcome, ran: bool, sideEffect: bool): Reply {
    Replied(Execution(data, disposition, response, Some(StepEvidence(
      if action.Some? then Some(ActionKey(action.value)) else None, action.Some?,
      o.decision, o.status, o.reason, o.missing,
      if ran then Some(ToolOutcomeOf(data)) else None, sideEffect))))
  }

  function PendingCommand(rt: Runtime, p: Proposal, args: Args): Command {
    Command(PENDING_ACTION_VERSION, args, Accepted(rt, p).values)
  }

  datatype HandlerEnd = Value(ref: Id) | Halt(code: string) | Broken

  function HandlerResult(rt: Runtime, args: Args, reply: PortReply): HandlerEnd {
    if args.CreateCaseArgs? && rt.source.None? then Halt("trusted_source_unavailable")
    else match reply
      case Returned(ref) => Value(ref)
      case CustomerMissing => Halt("customer_not_found")
      case NoCase => if args.UpdateCaseArgs? || args.ReplyDraftArgs? then Halt("case_not_found") else Broken
      case Failed => Broken
  }

  function Execute(rt: Runtime, p: Proposal, call: ToolCall, s: Surroundings): Consultation {
    if s.cancelled then Consultation(Raised, Untouched)
    else
      var action := ActionNamed(call.name);
      var o := ActionPolicy(rt, p, call);
      if o.decision == Deny || (o.decision == NeedsApproval && action.None?) then
        Consultation(Evidenced(PolicyData(o), Completed, Some(ReasonText(o.reason)), action, o, false, false),
                     Untouched)
      else if action.None? then Consultation(Raised, Untouched)
      else
        var parsed := ParseArgs(rt.rules, action.value, call.arguments);
        match parsed
        case Escaped => Consultation(Raised, Untouched)
        case Malformed =>
          Consultation(Evidenced(Code("tool_arguments_invalid"), Completed, Some("tool_arguments_invalid"),
                                 action, o, true, false), Untouched)
        case Parsed(args) =>
          if o.decision == NeedsApproval && s.cancelledLate then Consultation(Raised, Untouched)
          else if o.decision == NeedsApproval then
            var use := AskedApproval(PendingCommand(rt, p, args), o.reason);
            if s.reply.Returned? then
              Consultation(Evidenced(ApprovalData(o, s.reply.ref), Completed, Some("approval_requested"),
                                     action, o, false, false), use)
            else Consultation(Raised, use)
          else if s.cancelledLate then
            Consultation(Evidenced(Code("tool_execution_failed"), Stopped, Some("tool_execution_failed"),
                                   action, o, true, false), Untouched)
          else
            var use := RanHandler(args, Accepted(rt, p).values);
            match HandlerResult(rt, args, s.reply)
            case Value(ref) =>
              Consultation(Evidenced(Result(ref), Continue, None, action, o, true, CommitsSideEffect(action.value)),
                           use)
            case Halt(code) =>
              Consultation(Evidenced(Code(code), Completed, Some(code), action, o, true, false), use)
            case Broken =>
              Consultation(Evidenced(Code("tool_execution_failed"), Stopped, Some("tool_execution_failed"),
                                     action, o, true, false), use)
  }

  function TerminalPolicy(rt: Runtime, p: Proposal): Outcome {
    Policy.EvaluateTerminal(PolicyInput(rt, p, "", true))
  }

  function EvaluateTerminal(rt: Runtime, p: Proposal, s: Surroundings): Reply {
    if s.cancelled then Raised
    else
      var o := TerminalPolicy(rt, p);
      Evidenced(RoutingOnly(o), Completed,
                Some(if o.reason == SafetyOrLegalRisk then "review_required" else ReasonText(o.reason)),
                None, o, false, false)
  }

  /** Every reply carries the policy facts of its call. */
  lemma CallEvidence(rt: Runtime, p: Proposal, call: ToolCall, s: Surroundings)
    requires Execute(rt, p, call, s).reply.Replied?
    ensures var action, o := ActionNamed(call.name), ActionPolicy(rt, p, call);
      var evidence := Execute(rt, p, call, s).reply.execution.evidence;
      && evidence.Some?
      && evidence.value.actionKey == (if action.Some? then Some(ActionKey(action.value)) else None)
      && evidence.value.actionKnown == action.Some?
      && evidence.value.missing == o.missing
      && evidence.value.decision == o.decision
  {
  }

  // ---------------------------------------------------------------- soundness

  /** A handler runs only on an eligible, insensitive request, with the fields the server accepted. */
  lemma HandlersRunOnlyWhenAllowed(rt: Runtime, p: Proposal, call: ToolCall, s: Surroundings)
    requires Execute(rt, p, call, s).use.RanHandler?
    ensures ActionNamed(call.name).Some?
    ensures var i := PolicyInput(rt, p, call.name, RequiresCompleteFields(ActionNamed(call.name).value));
      Eligible(i) && !Sensitive(i)
    ensures Execute(rt, p, call, s).use.fields == Accepted(rt, p).values
    ensures ArgsAction(Execute(rt, p, call, s).use.args) == ActionNamed(call.name).value
  {
    EvaluateExactly(PolicyInput(rt, p, call.name, RequiresCompleteFields(ActionNamed(call.name).value)));
  }

  lemma AskedIsPending(rt: Runtime, p: Proposal, call: ToolCall, s: Surroundings)
    requires Execute(rt, p, call, s).use.AskedApproval?
    ensures ActionNamed(call.name).Some? && ActionPolicy(rt, p, call).decision == NeedsApproval
    ensures var parsed := ParseArgs(rt.rules, ActionNamed(call.name).value, call.arguments);
      parsed.Parsed? && Execute(rt, p, call, s).use.command == PendingCommand(rt, p, parsed.result)
  {
  }

  lemma PendingIsAuthorized(rt: Runtime, p: Proposal, args: Args)
    requires ValidProfile(rt.profile) && ValidArgs(args)
    requires ActionKey(ArgsAction(args)) in AvailableActions(rt.profile)
    ensures Authorized(rt.rules, rt.profile, PendingCommand(rt, p, args))
  {
    FieldValues.FrozenFieldsRevalidate(rt.rules, EvidenceFor(rt), p.fields);
  }

  /** Whatever the gate asks a human to approve is a command the decision service will accept. */
  lemma AskedCommandsAreAuthorized(rt: Runtime, p: Proposal, call: ToolCall, s: Surroundings)
    requires ValidProfile(rt.profile)
    requires Execute(rt, p, call, s).use.AskedApproval?
    ensures var c := Execute(rt, p, call, s).use.command;
      && Authorized(rt.rules, rt.profile, c)
      && ActionKey(CommandAction(c)) == call.name
      && c.knownFields == Accepted(rt, p).values
    ensures var i := PolicyInput(rt, p, call.name, RequiresCompleteFields(ActionNamed(call.name).value));
      Eligible(i) && Sensitive(i)
  {
    AskedIsPending(rt, p, call, s);
    EvaluateExactly(PolicyInput(rt, p, call.name, RequiresCompleteFields(ActionNamed(call.name).value)));
    PendingIsAuthorized(rt, p, ParseArgs(rt.rules, ActionNamed(call.name).value, call.arguments).result);
  }

  /** An allowed action always has a registered tool: the assertion in `execute` cannot fail. */
  lemma AllowedActionsAreRegistered(rt: Runtime, p: Proposal, call: ToolCall)
    requires ActionPolicy(rt, p, call).decision != Deny
    ensures ActionNamed(call.name).Some?
  {
    EvaluateExactly(PolicyInput(rt, p, call.name,
      ActionNamed(call.name).Some? && RequiresCompleteFields(ActionNamed(call.name).value)));
  }

  /** The model's self-assessment (confidence, rationale, missing fields) changes neither reply nor port use. */
  lemma SelfAssessmentIsIgnored(rt: Runtime, p: Proposal, q: Proposal, call: ToolCall, s: Surroundings)
    requires q == p.(confidence := q.confidence, rationale := q.rationale, missing := q.missing)
    ensures Execute(rt, p, call, s) == Execute(rt, q, call, s)
    ensures EvaluateTerminal(rt, p, s) == EvaluateTerminal(rt, q, s)
  {
    assert Accepted(rt, p) == Accepted(rt, q);
  }

  lemma HandlersNeedParsedArguments(rt: Runtime, p: Proposal, call: ToolCall, s: Surroundings)
    ensures Execute(rt, p, call, s).use.RanHandler?
       <==> && !s.cancelled && !s.cancelledLate
            && ActionPolicy(rt, p, call).decision == Allow
            && ActionNamed(call.name).Some?
            && ParseArgs(rt.rules, ActionNamed(call.name).value, call.arguments).Parsed?
  {
  }

  /** What makes a gate call raise instead of replying: cancellation, an identifier argument of the wrong type on
      an action policy does not deny, or an approval request the port refuses. */
  predicate RaisesOn(rt: Runtime, p: Proposal, call: ToolCall, s: Surroundings) {
    var action, decision := ActionNamed(call.name), ActionPolicy(rt, p, call).decision;
    || s.cancelled
    || (action.Some? && decision != Deny
        && (|| Escapes(action.value, call.arguments)
            || (decision == NeedsApproval && (s.cancelledLate || !s.reply.Returned?)
                && ParseArgs(rt.rules, action.value, call.arguments).Parsed?)))
  }

  lemma RaisesExactly(rt: Runtime, p: Proposal, call: ToolCall, s: Surroundings)
    ensures Execute(rt, p, call, s).reply.Raised? <==> RaisesOn(rt, p, call, s)
  {
    if ActionPolicy(rt, p, call).decision != Deny {
      AllowedActionsAreRegistered(rt, p, call);
    }
    if ActionNamed(call.name).Some? {
      EscapesExactly(rt.rules, ActionNamed(call.name).value, call.arguments);
    }
  }

  /** More risk, more warnings and fewer accepted fields never let an extra handler run. */
  lemma SuspicionNeverRunsAHandler(
      rt: Runtime, p: Proposal, riskier: Runtime, q: Proposal, call: ToolCall, s: Surroundings, t: Surroundings)
    requires riskier == rt.(risk := riskier.risk) && (rt.risk ==> riskier.risk)
    requires q.intakeType == p.intakeType
    requires p.overrideAttempt ==> q.overrideAttempt
    requires p.priority == Critical ==> q.priority == Critical
    requires Accepted(riskier, q).values.Keys <= Accepted(rt, p).values.Keys
    requires Accepted(rt, p).invalid <= Accepted(riskier, q).invalid
    requires Execute(riskier, q, call, s).use.RanHandler?
    ensures ActionPolicy(rt, p, call).decision == Allow
    ensures !t.cancelled && !t.cancelledLate ==> Execute(rt, p, call, t).use.RanHandler?
  {
    HandlersNeedParsedArguments(riskier, q, call, s);
    HandlersNeedParsedArguments(rt, p, call, t);
    var complete := RequiresCompleteFields(ActionNamed(call.name).value);
    SuspicionNeverHelps(PolicyInput(riskier, q, call.name, complete), PolicyInput(rt, p, call.name, complete));
  }

  // ---------------------------------------------------------------- why a call gets its outcome

  predicate Unread(rt: Runtime) {
    rt.source.Some? && rt.source.value.attachment.Some? && rt.source.value.attachment.value.unreadable
  }

  /** The source can be read, the intake type is one of the profile's, and no field was refused. */
  predicate Sound(rt: Runtime, p: Proposal) {
    && !Unread(rt) && p.intakeType.Some?
    && (exists t <- rt.profile.intakeTypes :: t.name == p.intakeType.value)
    && Accepted(rt, p).invalid == {}
  }

  /** The required fields that the server did not accept. */
  function Lacking(rt: Runtime, p: Proposal): set<string>
    requires Sound(rt, p)
  {
    set f | f in IntakeNamed(rt.profile.intakeTypes, p.intakeType.value).value.required && f !in Accepted(rt, p).values
  }

  /** Sound, and complete if the action writes a case. */
  predicate Routable(rt: Runtime, p: Proposal, action: string) {
    Sound(rt, p) && (action == "create_case" || action == "update_case_fields" ==> Lacking(rt, p) == {})
  }

  /** Nothing stands in the way but, perhaps, a human. */
  predicate Cleared(rt: Runtime, p: Proposal, action: string) {
    && Routable(rt, p, action) && action in rt.profile.actionPolicy && ActionNamed(action).Some?
    && rt.profile.actionPolicy[action].executable && rt.profile.actionPolicy[action].allowed
  }

  predicate Risky(rt: Runtime, p: Proposal) { rt.risk || p.overrideAttempt }

  /** A human has to confirm the action in any case. */
  predicate Guarded(rt: Runtime, p: Proposal, action: string)
    requires action in rt.profile.actionPolicy
  {
    || p.priority == Critical || action in rt.profile.alwaysApproval
    || rt.profile.actionPolicy[action].requiresApproval
  }

  /** When policy answers a call for that action with this reason. */
  predicate Because(rt: Runtime, p: Proposal, action: string, r: Reason) {
    match r
    case DocumentUnreadable => Unread(rt)
    case UnknownIntakeType =>
      !Unread(rt) && (p.intakeType.Some? ==> forall t <- rt.profile.intakeTypes :: t.name != p.intakeType.value)
    case InvalidFieldValues =>
      && !Unread(rt) && p.intakeType.Some? && (exists t <- rt.profile.intakeTypes :: t.name == p.intakeType.value)
      && Accepted(rt, p).invalid != {}
    case MissingRequiredFields => Sound(rt, p) && !Routable(rt, p, action)
    case ActionNotConfigured =>
      && Routable(rt, p, action)
      && (action in rt.profile.actionPolicy ==>
            rt.profile.actionPolicy[action].executable && ActionNamed(action).None?)
    case ActionNotExecutable =>
      Routable(rt, p, action) && action in rt.profile.actionPolicy && !rt.profile.actionPolicy[action].executable
    case ActionNotAllowed =>
      && Routable(rt, p, action) && action in rt.profile.actionPolicy && ActionNamed(action).Some?
      && rt.profile.actionPolicy[action].executable && !rt.profile.actionPolicy[action].allowed
    case SafetyOrLegalRisk => Cleared(rt, p, action) && Risky(rt, p)
    case ApprovalRequired => Cleared(rt, p, action) && !Risky(rt, p) && Guarded(rt, p, action)
    case ActionAllowed => Cleared(rt, p, action) && !Risky(rt, p) && !Guarded(rt, p, action)
    case NoActionRequested => false
  }

  /** The same for a closing proposal, which must be complete. */
  predicate BecauseTerminal(rt: Runtime, p: Proposal, r: Reason) {
    match r
    case MissingRequiredFields => Sound(rt, p) && Lacking(rt, p) != {}
    case SafetyOrLegalRisk => Sound(rt, p) && Lacking(rt, p) == {} && Risky(rt, p)
    case NoActionRequested => Sound(rt, p) && Lacking(rt, p) == {} && !Risky(rt, p)
    case DocumentUnreadable => Because(rt, p, "", r)
    case UnknownIntakeType => Because(rt, p, "", r)
    case InvalidFieldValues => Because(rt, p, "", r)
    case _ => false
  }

  /** What each reason means for the request: decision, routing status and the fields named as missing. */
  predicate Follows(rt: Runtime, p: Proposal, o: Outcome) {
    match o.reason
    case DocumentUnreadable =>
      && o.decision == Deny && o.status == AwaitingInput && Unread(rt)
      && (if exists t <- rt.profile.intakeTypes :: t.name == rt.source.value.attachment.value.targetIntakeType then
            exists t <- rt.profile.intakeTypes ::
              (t.name == rt.source.value.attachment.value.targetIntakeType && o.missing == set f <- t.required)
          else o.missing == {})
    case InvalidFieldValues => o == Outcome(Deny, AwaitingInput, InvalidFieldValues, Accepted(rt, p).invalid)
    case MissingRequiredFields =>
      Sound(rt, p) && o == Outcome(Deny, AwaitingInput, MissingRequiredFields, Lacking(rt, p))
    case SafetyOrLegalRisk => o == Outcome(NeedsApproval, Status.Urgent, SafetyOrLegalRisk, {})
    case ApprovalRequired => o == Outcome(NeedsApproval, PendingApproval, ApprovalRequired, {})
    case ActionAllowed => o == Outcome(Allow, Ready, ActionAllowed, {})
    case NoActionRequested => o == Outcome(Allow, Ready, NoActionRequested, {})
    case _ => o == Outcome(Deny, Rejected, o.reason, {})
  }

  lemma AcceptedAreKnown(rt: Runtime, p: Proposal)
    ensures Accepted(rt, p).values.Keys <= rt.profile.fields.Keys
  {
    forall name | name in Accepted(rt, p).values ensures name in rt.profile.fields {
      AcceptedExactly(rt, p, name);
    }
  }

  lemma LackingIsMissing(rt: Runtime, p: Proposal, i: Input)
    requires Sound(rt, p) && i.intakeType == p.intakeType && i.profile == rt.profile
    requires i.verified == Accepted(rt, p).values.Keys
    ensures ProposedIntake(i).Some? && Required(ProposedIntake(i).value) - PresentFields(i) == Lacking(rt, p)
  {
    AcceptedAreKnown(rt, p);
  }

  lemma OneReason(rt: Runtime, p: Proposal, action: string, r: Reason, q: Reason)
    requires Because(rt, p, action, r) && Because(rt, p, action, q)
    ensures r == q
  {
  }

  lemma CaseActionsNeedAll(action: string)
    ensures ActionNamed(action).Some? && RequiresCompleteFields(ActionNamed(action).value)
       <==> action == "create_case" || action == "update_case_fields"
  {
  }

  lemma UnsoundReasons(rt: Runtime, p: Proposal, call: ToolCall)
    requires !Sound(rt, p)
    ensures Because(rt, p, call.name, ActionPolicy(rt, p, call).reason) && Follows(rt, p, ActionPolicy(rt, p, call))
  {
  }

  lemma SoundReasons(rt: Runtime, p: Proposal, call: ToolCall, complete: bool)
    requires Sound(rt, p) && complete == (call.name == "create_case" || call.name == "update_case_fields")
    ensures var o := Evaluate(PolicyInput(rt, p, call.name, complete));
      Because(rt, p, call.name, o.reason) && Follows(rt, p, o)
  {
    LackingIsMissing(rt, p, PolicyInput(rt, p, call.name, complete));
  }

  /** Policy's reason for any call, from the runtime and the proposal alone, and what it entails. */
  lemma ReasonsExactly(rt: Runtime, p: Proposal, call: ToolCall, r: Reason)
    ensures ActionPolicy(rt, p, call).reason == r <==> Because(rt, p, call.name, r)
    ensures Follows(rt, p, ActionPolicy(rt, p, call))
  {
    CaseActionsNeedAll(call.name);
    if Sound(rt, p) {
      SoundReasons(rt, p, call, call.name == "create_case" || call.name == "update_case_fields");
    } else {
      UnsoundReasons(rt, p, call);
    }
    if Because(rt, p, call.name, r) {
      OneReason(rt, p, call.name, r, ActionPolicy(rt, p, call).reason);
    }
  }

  lemma TerminalReasonsExactly(rt: Runtime, p: Proposal, r: Reason)
    ensures TerminalPolicy(rt, p).reason == r <==> BecauseTerminal(rt, p, r)
    ensures Follows(rt, p, TerminalPolicy(rt, p))
  {
    if Sound(rt, p) {
      LackingIsMissing(rt, p, PolicyInput(rt, p, "", true));
    }
  }
}
