/** Deterministic policy and routing (app/policy/engine.py, app/tenants/routing.py). */
module Policy {
  import opened Values
  import opened Profiles
  import opened Proposals

  datatype Decision = Allow | NeedsApproval | Deny

  datatype Status = Urgent | AwaitingInput | PendingApproval | Ready | Rejected

  datatype Reason =
    | SafetyOrLegalRisk | UnknownIntakeType | MissingRequiredFields | InvalidFieldValues
    | ActionNotConfigured | ActionNotExecutable | ActionNotAllowed | ApprovalRequired
    | ActionAllowed | NoActionRequested | DocumentUnreadable

  function ReasonText(r: Reason): string {
    match r
    case SafetyOrLegalRisk => "safety_or_legal_risk"
    case UnknownIntakeType => "unknown_intake_type"
    case MissingRequiredFields => "missing_required_fields"
    case InvalidFieldValues => "invalid_field_values"
    case ActionNotConfigured => "action_not_configured"
    case ActionNotExecutable => "action_not_executable"
    case ActionNotAllowed => "action_not_allowed"
    case ApprovalRequired => "approval_required"
    case ActionAllowed => "action_allowed"
    case NoActionRequested => "no_action_requested"
    case DocumentUnreadable => "document_unreadable"
  }

  /** Missing names are a sorted tuple without duplicates, represented by its set. */
  datatype Outcome = Outcome(decision: Decision, status: Status, reason: Reason, missing: set<string>)

  datatype Assessment = Assessment(
    intakeType: string,
    present: set<string>,
    risk: bool,
    requestedAction: string,
    requiresComplete: bool,
    executable: Option<set<string>>,
    critical: bool)

  function Required(t: IntakeType): set<string> { set f <- t.required }

  function Route(profile: Profile, a: Assessment): Outcome {
    var intake := IntakeNamed(profile.intakeTypes, a.intakeType);
    if intake.None? then Outcome(Deny, Rejected, UnknownIntakeType, {})
    else
      var missing := Required(intake.value) - a.present;
      if a.requiresComplete && missing != {} then Outcome(Deny, AwaitingInput, MissingRequiredFields, missing)
      else if a.requestedAction !in profile.actionPolicy then Outcome(Deny, Rejected, ActionNotConfigured, {})
      else
        var rule := profile.actionPolicy[a.requestedAction];
        if !rule.executable then Outcome(Deny, Rejected, ActionNotExecutable, {})
        else if a.executable.Some? && a.requestedAction !in a.executable.value then
          Outcome(Deny, Rejected, ActionNotConfigured, {})
        else if !rule.allowed then Outcome(Deny, Rejected, ActionNotAllowed, {})
        else if a.risk then Outcome(NeedsApproval, Status.Urgent, SafetyOrLegalRisk, {})
        else if a.requestedAction in profile.alwaysApproval || rule.requiresApproval || a.critical then
          Outcome(NeedsApproval, PendingApproval, ApprovalRequired, {})
        else Outcome(Allow, Ready, ActionAllowed, {})
  }

  /** The engine's input: proposal facts, the request, and the verified fields. */
  datatype Input = Input(
    intakeType: Option<string>,
    overrideAttempt: bool,
    critical: bool,
    requestedAction: string,
    requiresComplete: bool,
    registered: set<string>,
    profile: Profile,
    source: Option<Source>,
    risk: bool,
    verified: set<string>,
    invalid: set<string>)

  predicate Unreadable(i: Input) {
    i.source.Some? && i.source.value.attachment.Some? && i.source.value.attachment.value.unreadable
  }

  function UnreadableOutcome(i: Input): Outcome
    requires Unreadable(i)
  {
    var intake := IntakeNamed(i.profile.intakeTypes, i.source.value.attachment.value.targetIntakeType);
    Outcome(Deny, AwaitingInput, DocumentUnreadable, if intake.Some? then Required(intake.value) else {})
  }

  function PresentFields(i: Input): set<string> { set f | f in i.verified && f in i.profile.fields }

  function ProposedIntake(i: Input): Option<IntakeType> {
    if i.intakeType.None? then None else IntakeNamed(i.profile.intakeTypes, i.intakeType.value)
  }

  function Evaluate(i: Input): Outcome {
    if Unreadable(i) then UnreadableOutcome(i)
    else if ProposedIntake(i).None? then Outcome(Deny, Rejected, UnknownIntakeType, {})
    else if i.invalid != {} then Outcome(Deny, AwaitingInput, InvalidFieldValues, i.invalid)
    else Route(i.profile, Assessment(
      i.intakeType.value, PresentFields(i), i.risk || i.overrideAttempt, i.requestedAction,
      i.requiresComplete, Some(i.registered), i.critical))
  }

  function EvaluateTerminal(i: Input): Outcome {
    if Unreadable(i) then UnreadableOutcome(i)
    else if ProposedIntake(i).None? then Outcome(Deny, Rejected, UnknownIntakeType, {})
    else if i.invalid != {} then Outcome(Deny, AwaitingInput, InvalidFieldValues, i.invalid)
    else
      var missing := Required(ProposedIntake(i).value) - PresentFields(i);
      if i.requiresComplete && missing != {} then Outcome(Deny, AwaitingInput, MissingRequiredFields, missing)
      else if i.risk || i.overrideAttempt then Outcome(NeedsApproval, Status.Urgent, SafetyOrLegalRisk, {})
      else Outcome(Allow, Ready, NoActionRequested, {})
  }

  // ---------------------------------------------------------------- what the chain of returns means

  /** The conditions no human can waive. */
  predicate Eligible(i: Input) {
    && !Unreadable(i)
    && ProposedIntake(i).Some?
    && i.invalid == {}
    && (i.requiresComplete ==> Required(ProposedIntake(i).value) <= i.verified * i.profile.fields.Keys)
    && i.requestedAction in i.profile.actionPolicy
    && i.profile.actionPolicy[i.requestedAction].executable
    && i.profile.actionPolicy[i.requestedAction].allowed
    && i.requestedAction in i.registered
  }

  /** The conditions that call for a human. */
  predicate Sensitive(i: Input) {
    || i.risk || i.overrideAttempt || i.critical
    || i.requestedAction in i.profile.alwaysApproval
    || (i.requestedAction in i.profile.actionPolicy && i.profile.actionPolicy[i.requestedAction].requiresApproval)
  }

  lemma NothingMissing(required: set<string>, present: set<string>)
    ensures required - present == {} <==> required <= present
  {
    forall f | f in required && f !in present ensures required - present != {} {
      assert f in required - present;
    }
  }

  lemma EvaluateExactly(i: Input)
    ensures Evaluate(i).decision == Allow <==> Eligible(i) && !Sensitive(i)
    ensures Evaluate(i).decision == NeedsApproval <==> Eligible(i) && Sensitive(i)
    ensures Evaluate(i).decision == Deny <==> !Eligible(i)
  {
    if ProposedIntake(i).Some? {
      assert PresentFields(i) == i.verified * i.profile.fields.Keys;
      NothingMissing(Required(ProposedIntake(i).value), PresentFields(i));
    }
  }

  function Permissiveness(d: Decision): nat {
    match d
    case Deny => 0
    case NeedsApproval => 1
    case Allow => 2
  }

  /** `worse` asks for the same thing with more warning signs and no more verified fields. */
  predicate MoreSuspicious(worse: Input, better: Input) {
    && worse == better.(risk := worse.risk, overrideAttempt := worse.overrideAttempt, critical := worse.critical,
                        verified := worse.verified, invalid := worse.invalid)
    && (better.risk ==> worse.risk)
    && (better.overrideAttempt ==> worse.overrideAttempt)
    && (better.critical ==> worse.critical)
    && worse.verified <= better.verified
    && better.invalid <= worse.invalid
  }

  /** Warning signs and withheld fields never make policy more permissive. */
  lemma SuspicionNeverHelps(worse: Input, better: Input)
    requires MoreSuspicious(worse, better)
    ensures Permissiveness(Evaluate(worse).decision) <= Permissiveness(Evaluate(better).decision)
    ensures Permissiveness(EvaluateTerminal(worse).decision) <= Permissiveness(EvaluateTerminal(better).decision)
  {
    EvaluateExactly(worse);
    EvaluateExactly(better);
    if ProposedIntake(better).Some? {
      assert PresentFields(worse) <= PresentFields(better);
    }
  }
}
