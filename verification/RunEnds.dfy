/** How gated runs end: when they crash, when their stored path reads back, and what the command they park is. */
module RunEnds {
  import opened Values
  import opened Profiles
  import FieldValues
  import opened Proposals
  import Policy
  import opened Commands
  import opened Gate
  import opened GateEnds
  import opened Transcript
  import opened AgentLoop
  import opened RunProperties
  import opened JobResults
  import opened GatedRuns

  /** The state in which the run's last iteration began, or in which its steps were exhausted. */
  function LastState(model: Model, tools: Tools, limit: nat, st: LoopState): LoopState
    decreases limit - st.steps
  {
    if st.steps >= limit then st
    else match Advance(model, tools, st)
      case Stop(_) => st
      case Next(next) => LastState(model, tools, limit, next)
  }

  /** The last iteration of a whole gated run. */
  function LastOf(model: Model, rt: Runtime, world: World, maxSteps: nat, initial: seq<Message>): LoopState {
    LastState(model, GateTools(rt, world), Limit(maxSteps), Start(initial))
  }

  /** The call the model proposes in a state, if the run still acts there. */
  function LastCall(model: Model, limit: nat, st: LoopState): Option<ToolCall> {
    if st.steps < limit && model(st.messages).Some? then model(st.messages).value.toolCall else None
  }

  // ---------------------------------------------------------------- crashes

  /** What makes one iteration crash the run. */
  predicate StepCrashes(model: Model, rt: Runtime, world: World, st: LoopState) {
    var answer := model(st.messages);
    || answer.None?
    || (var p := answer.value;
        var s := world(st.messages + [AssistantTurn(p)]);
        if p.toolCall.None? then s.cancelled
        else Repeats(st, p.toolCall.value) != MAX_CONSECUTIVE_TOOL_CALLS && RaisesOn(rt, p, p.toolCall.value, s))
  }

  lemma OneStepCrashes(model: Model, rt: Runtime, world: World, st: LoopState)
    ensures Advance(model, GateTools(rt, world), st) == Stop(Crashed) <==> StepCrashes(model, rt, world, st)
  {
    if model(st.messages).Some? && model(st.messages).value.toolCall.Some? {
      var p := model(st.messages).value;
      RaisesExactly(rt, p, p.toolCall.value, world(st.messages + [AssistantTurn(p)]));
    }
  }

  lemma {:induction false} ContinuedCrashes(model: Model, rt: Runtime, world: World, limit: nat, st: LoopState)
    ensures var last := LastState(model, GateTools(rt, world), limit, st);
      Continued(model, GateTools(rt, world), limit, st).Crashed?
      <==> last.steps < limit && StepCrashes(model, rt, world, last)
    decreases limit - st.steps
  {
    if st.steps < limit {
      OneStepCrashes(model, rt, world, st);
      match Advance(model, GateTools(rt, world), st)
      case Stop(_) =>
      case Next(next) => ContinuedCrashes(model, rt, world, limit, next);
    }
  }

  /** A gated run crashes exactly when, in its last iteration, the model raised, the run was cancelled, an action
      policy does not deny had an identifier of the wrong type, or an approval request was refused. */
  lemma RunsCrashExactly(model: Model, rt: Runtime, world: World, maxSteps: nat, initial: seq<Message>)
    ensures var last := LastOf(model, rt, world, maxSteps, initial);
      Run(model, GateTools(rt, world), maxSteps, initial).Crashed?
      <==> last.steps < Limit(maxSteps) && StepCrashes(model, rt, world, last)
  {
    ContinuedCrashes(model, rt, world, Limit(maxSteps), Start(initial));
  }

  const NOTE := map["note" := FieldDefinition(ShortText, None)]

  /** Replies are only ever a policy entry; drafts are executable without a human. */
  const DRAFTING := Profile(
    [IntakeType("request", [])], NOTE,
    map["send_reply" := ActionRule(true, true, false), "create_reply_draft" := ActionRule(true, false, true)],
    {"send_reply"})

  const WRONG_ID := ToolCall("create_reply_draft", map["case_id" := One(Int(1))])

  function Calling(call: ToolCall): Proposal {
    Proposal(Some("request"), [], [], Priority.Normal, false, "draft a reply", Some(call), 1.0)
  }

  lemma DraftingIsContract()
    ensures ContractProfile(DRAFTING)
  {
    assert "note" in DRAFTING.fields && "send_reply" in DRAFTING.actionPolicy;
    assert ActionNamed("create_reply_draft").Some?;
  }

  /** The call is allowed, and still the run crashes: its identifier is a number. */
  lemma WrongTypedIdentifierCrashes(rules: Rules, world: World, maxSteps: nat, initial: seq<Message>)
    requires maxSteps > 0
    ensures var rt := Runtime(rules, DRAFTING, None, false);
      var p := Calling(WRONG_ID);
      && ContractProfile(DRAFTING)
      && ActionPolicy(rt, p, WRONG_ID).decision == Policy.Allow
      && Run(_ => Some(p), GateTools(rt, world), maxSteps, initial).Crashed?
  {
    var rt := Runtime(rules, DRAFTING, None, false);
    var p := Calling(WRONG_ID);
    DraftingIsContract();
    assert DRAFTING.intakeTypes[0].name == "request";
    Policy.EvaluateExactly(PolicyInput(rt, p, WRONG_ID.name, false));
    RaisesExactly(rt, p, WRONG_ID, world(initial + [AssistantTurn(p)]));
  }

  // ---------------------------------------------------------------- what reads back

  /** A known action that the profile does not register. */
  predicate Unregistered(rt: Runtime, call: ToolCall) {
    ActionNamed(call.name).Some? && call.name !in RegisteredActions(rt.profile)
  }

  /** Before its last iteration a run only called registered actions. */
  ghost predicate OnlyRegistered(rt: Runtime, st: LoopState) {
    && KnownActionsRegistered(st.path, RegisteredActions(rt.profile))
    && (st.previous.Some? ==> st.previous.value.name in RegisteredActions(rt.profile))
  }

  lemma RecordedCallRegistered(rt: Runtime, p: Proposal, call: ToolCall, s: Surroundings, path: seq<PathEntry>,
                               step: nat)
    requires KnownActionsRegistered(path, RegisteredActions(rt.profile))
    requires Execute(rt, p, call, s).reply.Replied?
    ensures var x := Execute(rt, p, call, s).reply.execution;
      KnownActionsRegistered(Recorded(path, step, x), RegisteredActions(rt.profile)) <==> !Unregistered(rt, call)
  {
    CallEvidence(rt, p, call, s);
    var x := Execute(rt, p, call, s).reply.execution;
    assert Recorded(path, step, x) == path + [PathEntry(step, x.evidence.value)];
    assert PathEntry(step, x.evidence.value) in Recorded(path, step, x);
  }

  lemma ContinuedCallIsRegistered(rt: Runtime, p: Proposal, call: ToolCall, s: Surroundings)
    requires Execute(rt, p, call, s).reply.Replied? && Execute(rt, p, call, s).reply.execution.disposition.Continue?
    ensures call.name in RegisteredActions(rt.profile)
  {
    ContinuingCalls(rt, p, call, s);
    HandlersRunOnlyWhenAllowed(rt, p, call, s);
  }

  lemma ContinuesRegistered(model: Model, rt: Runtime, world: World, st: LoopState)
    requires OnlyRegistered(rt, st) && Advance(model, GateTools(rt, world), st).Next?
    ensures OnlyRegistered(rt, Advance(model, GateTools(rt, world), st).state)
  {
    var p := model(st.messages).value;
    var s := world(st.messages + [AssistantTurn(p)]);
    ContinuedCallIsRegistered(rt, p, p.toolCall.value, s);
    RecordedCallRegistered(rt, p, p.toolCall.value, s, st.path, st.steps + 1);
  }

  lemma TerminalStaysRegistered(rt: Runtime, p: Proposal, s: Surroundings, path: seq<PathEntry>, step: nat)
    requires KnownActionsRegistered(path, RegisteredActions(rt.profile)) && EvaluateTerminal(rt, p, s).Replied?
    ensures KnownActionsRegistered(
      Recorded(path, step, EvaluateTerminal(rt, p, s).execution), RegisteredActions(rt.profile))
  {
  }

  lemma StopsRegistered(model: Model, rt: Runtime, world: World, limit: nat, st: LoopState)
    requires OnlyRegistered(rt, st) && st.steps < limit
    requires Advance(model, GateTools(rt, world), st).Stop? && Advance(model, GateTools(rt, world), st).end.Ended?
    ensures var call := LastCall(model, limit, st);
      KnownActionsRegistered(Advance(model, GateTools(rt, world), st).end.result.path, RegisteredActions(rt.profile))
      <==> !(call.Some? && Unregistered(rt, call.value))
  {
    var p := model(st.messages).value;
    var s := world(st.messages + [AssistantTurn(p)]);
    if p.toolCall.None? {
      TerminalStaysRegistered(rt, p, s, st.path, st.steps + 1);
    } else if Repeats(st, p.toolCall.value) != MAX_CONSECUTIVE_TOOL_CALLS {
      RecordedCallRegistered(rt, p, p.toolCall.value, s, st.path, st.steps + 1);
    }
  }

  lemma {:induction false} PathsRegistered(model: Model, rt: Runtime, world: World, limit: nat, st: LoopState)
    requires OnlyRegistered(rt, st)
    ensures var end := Continued(model, GateTools(rt, world), limit, st);
      var call := LastCall(model, limit, LastState(model, GateTools(rt, world), limit, st));
      end.Ended? ==>
        (KnownActionsRegistered(end.result.path, RegisteredActions(rt.profile))
         <==> !(call.Some? && Unregistered(rt, call.value)))
    decreases limit - st.steps
  {
    if st.steps < limit {
      match Advance(model, GateTools(rt, world), st)
      case Stop(end) =>
        if end.Ended? {
          StopsRegistered(model, rt, world, limit, st);
        }
      case Next(next) =>
        ContinuesRegistered(model, rt, world, st);
        PathsRegistered(model, rt, world, limit, next);
    }
  }

  /** For every model: what a gated run stored reads back whole exactly when its last proposal did not call a known
      action that the profile does not register. */
  lemma ReadsBackExactly(model: Model, rt: Runtime, world: World, maxSteps: nat, initial: seq<Message>)
    requires SafeNames(rt)
    ensures var end := Run(model, GateTools(rt, world), maxSteps, initial);
      var call := LastCall(model, Limit(maxSteps), LastOf(model, rt, world, maxSteps, initial));
      end.Ended? ==>
        (ProjectsFaithfully(rt.rules, ResultSummary(end.result), end.result, RegisteredActions(rt.profile))
         <==> !(call.Some? && Unregistered(rt, call.value)))
  {
    PathsRegistered(model, rt, world, Limit(maxSteps), Start(initial));
    StoredRunsReadBack(model, rt, world, maxSteps, initial);
  }

  lemma RefusedAtOnce(rt: Runtime, p: Proposal, s: Surroundings)
    requires p.toolCall.Some? && Unregistered(rt, p.toolCall.value) && !s.cancelled
    ensures var reply := Execute(rt, p, p.toolCall.value, s).reply;
      reply.Replied? && reply.execution.disposition.Completed?
  {
    var name := p.toolCall.value.name;
    Policy.EvaluateExactly(PolicyInput(rt, p, name, RequiresCompleteFields(ActionNamed(name).value)));
  }

  lemma UnregisteredEndsRun(model: Model, rt: Runtime, world: World, limit: nat, st: LoopState)
    requires st.steps < limit && st.previous.None?
    requires model(st.messages).Some? && model(st.messages).value.toolCall.Some?
    requires Unregistered(rt, model(st.messages).value.toolCall.value)
    requires !world(st.messages + [AssistantTurn(model(st.messages).value)]).cancelled
    ensures var end := Continued(model, GateTools(rt, world), limit, st);
      end.Ended? && end.result.completed && end.result.steps == st.steps + 1
    ensures LastState(model, GateTools(rt, world), limit, st) == st
  {
    var p := model(st.messages).value;
    RefusedAtOnce(rt, p, world(st.messages + [AssistantTurn(p)]));
  }

  /** The failing family: whoever first calls a known action that the profile does not register gets an ended run
      whose stored path is withheld. */
  lemma UnregisteredCallIsWithheld(model: Model, rt: Runtime, world: World, maxSteps: nat, initial: seq<Message>)
    requires SafeNames(rt) && maxSteps > 0
    requires model(initial).Some? && model(initial).value.toolCall.Some?
    requires Unregistered(rt, model(initial).value.toolCall.value)
    requires !world(initial + [AssistantTurn(model(initial).value)]).cancelled
    ensures var end := Run(model, GateTools(rt, world), maxSteps, initial);
      && end.Ended? && end.result.completed && end.result.steps == 1
      && !ProjectsFaithfully(rt.rules, ResultSummary(end.result), end.result, RegisteredActions(rt.profile))
  {
    UnregisteredEndsRun(model, rt, world, Limit(maxSteps), Start(initial));
    ReadsBackExactly(model, rt, world, maxSteps, initial);
  }

  const NOTHING_EXECUTABLE := Profile(
    [IntakeType("request", [])], NOTE, map["send_reply" := ActionRule(true, true, false)], {"send_reply"})

  lemma NothingExecutableIsContract()
    ensures ContractProfile(NOTHING_EXECUTABLE)
    ensures "create_reply_draft" !in RegisteredActions(NOTHING_EXECUTABLE)
  {
    assert "note" in NOTHING_EXECUTABLE.fields && "send_reply" in NOTHING_EXECUTABLE.actionPolicy;
  }

  /** One such run: a schema-valid proposal under a profile that registers nothing. */
  lemma SomePathIsWithheld(rules: Rules, world: World, initial: seq<Message>)
    requires rules.safeIdentifier("note") && forall a: Action :: rules.safeIdentifier(ActionKey(a))
    requires !world(initial + [AssistantTurn(Calling(WRONG_ID))]).cancelled
    ensures var rt := Runtime(rules, NOTHING_EXECUTABLE, None, false);
      var end := Run(_ => Some(Calling(WRONG_ID)), GateTools(rt, world), 1, initial);
      && ContractProfile(NOTHING_EXECUTABLE) && end.Ended?
      && !ProjectsFaithfully(rules, ResultSummary(end.result), end.result, RegisteredActions(NOTHING_EXECUTABLE))
  {
    var rt := Runtime(rules, NOTHING_EXECUTABLE, None, false);
    NothingExecutableIsContract();
    assert Unregistered(rt, WRONG_ID);
    UnregisteredCallIsWithheld(_ => Some(Calling(WRONG_ID)), rt, world, 1, initial);
  }

  // ---------------------------------------------------------------- the parked command

  /** The command a proposal's call freezes for a human: version 1 of what the call says, on the fields the server
      accepted. */
  predicate Proposes(rt: Runtime, p: Proposal, c: Command) {
    && p.toolCall.Some? && c.version == 1
    && Says(rt.rules, p.toolCall.value.name, p.toolCall.value.arguments, c.args)
    && c.knownFields == Accepted(rt, p).values
  }

  lemma AskedIsProposed(rt: Runtime, p: Proposal, call: ToolCall, s: Surroundings)
    requires p.toolCall == Some(call) && Execute(rt, p, call, s).use.AskedApproval?
    ensures Proposes(rt, p, Execute(rt, p, call, s).use.command)
  {
    HumansAreAskedExactly(rt, p, call, s);
  }

  /** The command a run is granted is the one its last proposal makes. */
  lemma {:induction false} GrantedIsLastProposed(model: Model, rt: Runtime, world: World, limit: nat, st: LoopState)
    requires Granted(model, rt, world, limit, st).Some?
    ensures var last := LastState(model, GateTools(rt, world), limit, st);
      && model(last.messages).Some?
      && Proposes(rt, model(last.messages).value, Granted(model, rt, world, limit, st).value)
    decreases limit - st.steps
  {
    match Advance(model, GateTools(rt, world), st)
    case Next(next) => GrantedIsLastProposed(model, rt, world, limit, next);
    case Stop(_) =>
      var p := model(st.messages).value;
      AskedIsProposed(rt, p, p.toolCall.value, world(st.messages + [AssistantTurn(p)]));
  }
}
