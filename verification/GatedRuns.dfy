/** Gated runs store paths that read back. */
module GatedRuns {
  import opened Values
  import opened Profiles
  import FieldValues
  import opened Proposals
  import Policy
  import opened Gate
  import opened Transcript
  import opened AgentLoop
  import opened RunProperties
  import opened JobResults

  /** Profile and registry names are safe identifiers, as their contracts check. */
  ghost predicate SafeNames(rt: Runtime) {
    && ValidProfile(rt.profile)
    && (forall f <- rt.profile.fields :: rt.rules.safeIdentifier(f))
    && (forall a: Action :: rt.rules.safeIdentifier(ActionKey(a)))
  }

  lemma PolicyNamesAreFields(i: Policy.Input)
    requires ValidProfile(i.profile) && i.invalid <= i.profile.fields.Keys
    ensures Policy.Evaluate(i).missing <= i.profile.fields.Keys
    ensures Policy.EvaluateTerminal(i).missing <= i.profile.fields.Keys
  {
    forall t <- i.profile.intakeTypes ensures Policy.Required(t) <= i.profile.fields.Keys {
    }
  }

  lemma RefusedNamesAreFields(rt: Runtime, p: Proposal)
    ensures Accepted(rt, p).invalid <= rt.profile.fields.Keys
  {
  }

  lemma CallEvidenceIsSafe(rt: Runtime, p: Proposal, call: ToolCall, x: StepEvidence)
    requires SafeNames(rt)
    requires x.actionKnown == ActionNamed(call.name).Some? && x.missing == ActionPolicy(rt, p, call).missing
    requires x.actionKey == if x.actionKnown then Some(ActionKey(ActionNamed(call.name).value)) else None
    ensures SafeEvidence(rt.rules, x)
  {
    RefusedNamesAreFields(rt, p);
    PolicyNamesAreFields(PolicyInput(rt, p, call.name,
      ActionNamed(call.name).Some? && RequiresCompleteFields(ActionNamed(call.name).value)));
  }

  lemma TerminalEvidenceIsSafe(rt: Runtime, p: Proposal, s: Surroundings)
    requires SafeNames(rt) && EvaluateTerminal(rt, p, s).Replied?
    ensures var x := EvaluateTerminal(rt, p, s).execution;
      x.evidence.Some? && SafeEvidence(rt.rules, x.evidence.value)
  {
    RefusedNamesAreFields(rt, p);
    PolicyNamesAreFields(PolicyInput(rt, p, "", true));
  }

  lemma RecordedIsSafe(rules: Rules, path: seq<PathEntry>, steps: nat, x: Execution)
    requires SafePath(rules, path, steps) && steps < MAX_EXECUTION_STEPS
    requires x.evidence.Some? && SafeEvidence(rules, x.evidence.value)
    ensures SafePath(rules, AgentLoop.Recorded(path, steps + 1, x), steps + 1)
  {
  }

  predicate SafeReply(rules: Rules, r: Reply) {
    r.Replied? ==> r.execution.evidence.Some? && SafeEvidence(rules, r.execution.evidence.value)
  }

  ghost predicate SafeTools(rules: Rules, tools: Tools) {
    && (forall ms, p, call :: SafeReply(rules, tools.execute(ms, p, call)))
    && (forall ms, p :: SafeReply(rules, tools.evaluateTerminal(ms, p)))
  }

  lemma GateToolsAreSafe(rt: Runtime, world: World)
    requires SafeNames(rt)
    ensures SafeTools(rt.rules, GateTools(rt, world))
  {
    var tools := GateTools(rt, world);
    forall ms, p, call ensures SafeReply(rt.rules, tools.execute(ms, p, call)) {
      if Execute(rt, p, call, world(ms)).reply.Replied? {
        CallEvidence(rt, p, call, world(ms));
        CallEvidenceIsSafe(rt, p, call, Execute(rt, p, call, world(ms)).reply.execution.evidence.value);
      }
    }
    forall ms, p ensures SafeReply(rt.rules, tools.evaluateTerminal(ms, p)) {
      if EvaluateTerminal(rt, p, world(ms)).Replied? {
        TerminalEvidenceIsSafe(rt, p, world(ms));
      }
    }
  }

  predicate SafeStep(rules: Rules, r: LoopStep) {
    match r
    case Next(st) => SafePath(rules, st.path, st.steps)
    case Stop(Crashed) => true
    case Stop(Ended(result)) => SafePath(rules, result.path, result.steps)
  }

  lemma AdvanceIsSafe(rules: Rules, model: Model, tools: Tools, st: LoopState)
    requires SafeTools(rules, tools) && st.steps < MAX_EXECUTION_STEPS
    requires SafePath(rules, st.path, st.steps)
    ensures SafeStep(rules, Advance(model, tools, st))
  {
    if model(st.messages).Some? {
      var p := model(st.messages).value;
      var messages := st.messages + [AssistantTurn(p)];
      var reply := if p.toolCall.None? then tools.evaluateTerminal(messages, p)
                   else tools.execute(messages, p, p.toolCall.value);
      assert SafeReply(rules, reply);
      if reply.Replied? {
        RecordedIsSafe(rules, st.path, st.steps, reply.execution);
      }
    }
  }

  lemma {:induction false} SafePathsFrom(rules: Rules, model: Model, tools: Tools, limit: nat, st: LoopState)
    requires SafeTools(rules, tools) && limit <= MAX_EXECUTION_STEPS
    requires SafePath(rules, st.path, st.steps)
    ensures SafeStep(rules, Stop(Continued(model, tools, limit, st)))
    decreases limit - st.steps
  {
    if st.steps < limit {
      AdvanceIsSafe(rules, model, tools, st);
      match Advance(model, tools, st)
      case Stop(_) =>
      case Next(next) => SafePathsFrom(rules, model, tools, limit, next);
    }
  }

  /** For every model: the stored summary of a gated run reads back whole exactly when every known action
      on its path is registered by the profile. */
  lemma StoredRunsReadBack(model: Model, rt: Runtime, world: World, maxSteps: nat, initial: seq<Message>)
    requires SafeNames(rt)
    ensures var end := Run(model, GateTools(rt, world), maxSteps, initial);
      end.Ended? ==>
        (ProjectsFaithfully(rt.rules, ResultSummary(end.result), end.result, RegisteredActions(rt.profile))
         <==> KnownActionsRegistered(end.result.path, RegisteredActions(rt.profile)))
  {
    GateToolsAreSafe(rt, world);
    SafePathsFrom(rt.rules, model, GateTools(rt, world), Limit(maxSteps), Start(initial));
    var end := Run(model, GateTools(rt, world), maxSteps, initial);
    if end.Ended? {
      SummaryRoundTrip(rt.rules, end.result, RegisteredActions(rt.profile));
    }
  }

  /** An unregistered action reaches the path only as a policy refusal. */
  lemma UnregisteredActionsWereDenied(rt: Runtime, p: Proposal, call: ToolCall, s: Surroundings)
    requires Execute(rt, p, call, s).reply.Replied?
    requires call.name !in RegisteredActions(rt.profile)
    ensures Execute(rt, p, call, s).reply.execution.evidence.value.decision == Policy.Deny
    ensures Execute(rt, p, call, s).use.Untouched?
  {
    Policy.EvaluateExactly(PolicyInput(rt, p, call.name,
      ActionNamed(call.name).Some? && RequiresCompleteFields(ActionNamed(call.name).value)));
  }
}
