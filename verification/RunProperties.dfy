/** What holds of every agent run, whatever the model and the tools answer. */
module RunProperties {
  import opened Values
  import opened Profiles
  import opened Proposals
  import Policy
  import opened Commands
  import opened Gate
  import opened Transcript
  import opened AgentLoop

  // ---------------------------------------------------------------- transcripts

  /** Every message sequence a run hands to the model. */
  function Prompts(model: Model, tools: Tools, limit: nat, st: LoopState): seq<seq<Message>>
    decreases limit - st.steps
  {
    if st.steps >= limit then []
    else [st.messages] + match Advance(model, tools, st)
      case Stop(_) => []
      case Next(next) => Prompts(model, tools, limit, next)
  }

  lemma {:induction false} PromptsAreComplete(model: Model, tools: Tools, limit: nat, st: LoopState)
    requires Complete(st.messages)
    ensures forall ms <- Prompts(model, tools, limit, st) :: Complete(ms)
    decreases limit - st.steps
  {
    if st.steps < limit {
      match Advance(model, tools, st)
      case Stop(_) =>
      case Next(next) =>
        var p := model(st.messages).value;
        TurnKeepsComplete(st.messages, p, next.messages[|next.messages| - 1].toolResult.value);
        PromptsAreComplete(model, tools, limit, next);
    }
  }

  /** From system and user messages only, every prompt converts for the provider, also with the repair message. */
  lemma EveryPromptConverts(model: Model, tools: Tools, maxSteps: nat, initial: seq<Message>, feedback: string)
    requires forall m <- initial :: Opening(m)
    ensures forall ms <- Prompts(model, tools, Limit(maxSteps), Start(initial)) ::
      Convert(ms).Converted? && Convert(ms + [UserText(feedback)]).Converted?
  {
    OpeningsAreComplete(initial);
    PromptsAreComplete(model, tools, Limit(maxSteps), Start(initial));
    forall ms <- Prompts(model, tools, Limit(maxSteps), Start(initial))
      ensures Convert(ms).Converted? && Convert(ms + [UserText(feedback)]).Converted?
    {
      RepairKeepsComplete(ms, feedback);
    }
  }

  lemma {:induction false} StepsAreBounded(model: Model, tools: Tools, limit: nat, st: LoopState)
    requires st.steps <= limit
    ensures |Prompts(model, tools, limit, st)| <= limit - st.steps
    ensures var end := Continued(model, tools, limit, st);
      end.Ended? ==> end.result.steps == st.steps + |Prompts(model, tools, limit, st)|
    decreases limit - st.steps
  {
    if st.steps < limit {
      match Advance(model, tools, st)
      case Stop(_) =>
      case Next(next) => StepsAreBounded(model, tools, limit, next);
    }
  }

  // ---------------------------------------------------------------- repeated calls

  /** The calls a run executes, up to Python's equality. */
  function Executed(model: Model, tools: Tools, limit: nat, st: LoopState): seq<ToolCall>
    decreases limit - st.steps
  {
    if st.steps >= limit || model(st.messages).None? || model(st.messages).value.toolCall.None? then []
    else
      var call := model(st.messages).value.toolCall.value;
      if Repeats(st, call) == MAX_CONSECUTIVE_TOOL_CALLS then []
      else [CanonCall(call)] + match Advance(model, tools, st)
        case Stop(_) => []
        case Next(next) => Executed(model, tools, limit, next)
  }

  predicate NoThreeInARow<T(==)>(xs: seq<T>) {
    forall i :: 0 <= i < |xs| - 2 ==> !(xs[i] == xs[i + 1] == xs[i + 2])
  }

  /** The current run of equal calls, as the loop's two counters remember it. */
  function Tail(st: LoopState): seq<ToolCall> {
    if st.previous.None? then [] else seq(st.repeats, _ => CanonCall(st.previous.value))
  }

  predicate CountersFit(st: LoopState) {
    (st.previous.None? ==> st.repeats == 0) && (st.previous.Some? ==> 1 <= st.repeats < MAX_CONSECUTIVE_TOOL_CALLS)
  }

  lemma TailGrows(st: LoopState, call: ToolCall, rest: seq<ToolCall>, next: LoopState)
    requires CountersFit(st) && CountersFit(next)
    requires next.repeats == Repeats(st, call)
    requires next.previous == if st.previous.Some? && SameCall(call, st.previous.value) then st.previous else Some(call)
    requires NoThreeInARow(Tail(next) + rest)
    ensures NoThreeInARow(Tail(st) + ([CanonCall(call)] + rest))
  {
    var k := CanonCall(call);
    var after := Tail(next) + rest;
    if st.previous.Some? && SameCall(call, st.previous.value) {
      assert Tail(st) + ([k] + rest) == after;
    } else if st.previous.None? {
      assert Tail(st) + ([k] + rest) == after;
    } else {
      var whole := Tail(st) + ([k] + rest);
      var r := st.repeats;
      assert after == [k] + rest;
      assert forall i :: r <= i < |whole| ==> whole[i] == after[i - r];
      assert whole[r - 1] != whole[r];
      forall i | 0 <= i < |whole| - 2 ensures !(whole[i] == whole[i + 1] == whole[i + 2]) {
        if i >= r {
          assert !(after[i - r] == after[i - r + 1] == after[i - r + 2]);
        }
      }
    }
  }

  lemma {:induction false} RepetitionIsCut(model: Model, tools: Tools, limit: nat, st: LoopState)
    requires CountersFit(st)
    ensures NoThreeInARow(Tail(st) + Executed(model, tools, limit, st))
    decreases limit - st.steps
  {
    if st.steps < limit && model(st.messages).Some? && model(st.messages).value.toolCall.Some? {
      var p := model(st.messages).value;
      var call := p.toolCall.value;
      if Repeats(st, call) < MAX_CONSECUTIVE_TOOL_CALLS {
        match Advance(model, tools, st)
        case Stop(_) =>
          var previous := if st.previous.Some? && SameCall(call, st.previous.value) then st.previous else Some(call);
          TailGrows(st, call, [], st.(previous := previous, repeats := Repeats(st, call)));
        case Next(next) =>
          RepetitionIsCut(model, tools, limit, next);
          TailGrows(st, call, Executed(model, tools, limit, next), next);
      }
    }
  }

  /** At most min(max_steps, 8) steps, and never three equal executed calls in a row. */
  lemma RunsAreBounded(model: Model, tools: Tools, maxSteps: nat, initial: seq<Message>)
    ensures var end := Run(model, tools, maxSteps, initial);
      end.Ended? ==> end.result.steps <= maxSteps && end.result.steps <= MAX_STEPS
    ensures NoThreeInARow(Executed(model, tools, Limit(maxSteps), Start(initial)))
  {
    var executed := Executed(model, tools, Limit(maxSteps), Start(initial));
    StepsAreBounded(model, tools, Limit(maxSteps), Start(initial));
    RepetitionIsCut(model, tools, Limit(maxSteps), Start(initial));
    assert Tail(Start(initial)) + executed == executed;
  }

  // ---------------------------------------------------------------- gated runs

  /** What surrounds each gate call of a run: any behaviour of the port, depending on anything so far. */
  type World = seq<Message> -> Surroundings

  function GateTools(rt: Runtime, world: World): Tools {
    Tools((ms, p, call) => Execute(rt, p, call, world(ms)).reply,
          (ms, p) => EvaluateTerminal(rt, p, world(ms)))
  }

  /** The gate call one iteration makes, if any. */
  function Consulted(model: Model, rt: Runtime, world: World, st: LoopState): Option<Consultation> {
    var answer := model(st.messages);
    if answer.None? || answer.value.toolCall.None?
       || Repeats(st, answer.value.toolCall.value) == MAX_CONSECUTIVE_TOOL_CALLS then None
    else
      var p := answer.value;
      Some(Execute(rt, p, p.toolCall.value, world(st.messages + [AssistantTurn(p)])))
  }

  /** The commands one iteration asks a human to approve. */
  function Asked(model: Model, rt: Runtime, world: World, st: LoopState): seq<Command> {
    var c := Consulted(model, rt, world, st);
    if c.Some? && c.value.use.AskedApproval? then [c.value.use.command] else []
  }

  /** All approval requests of a run, in order. */
  function Requests(model: Model, rt: Runtime, world: World, limit: nat, st: LoopState): seq<Command>
    decreases limit - st.steps
  {
    if st.steps >= limit then []
    else Asked(model, rt, world, st) + match Advance(model, GateTools(rt, world), st)
      case Stop(_) => []
      case Next(next) => Requests(model, rt, world, limit, next)
  }

  /** What the iteration's gate call was granted, if it ends the run. */
  function GrantedNow(model: Model, rt: Runtime, world: World, st: LoopState): Option<Command> {
    var c := Consulted(model, rt, world, st);
    if c.Some? && c.value.use.AskedApproval? && c.value.reply.Replied? then Some(c.value.use.command) else None
  }

  /** The command whose request the run's last step got back successfully. */
  function Granted(model: Model, rt: Runtime, world: World, limit: nat, st: LoopState): Option<Command>
    decreases limit - st.steps
  {
    if st.steps >= limit then None
    else match Advance(model, GateTools(rt, world), st)
      case Next(next) => Granted(model, rt, world, limit, next)
      case Stop(_) => GrantedNow(model, rt, world, st)
  }

  predicate AwaitsHuman(e: PathEntry) { e.evidence.actionKnown && e.evidence.decision == Policy.NeedsApproval }

  /** `_approval_was_requested`. */
  predicate ApprovalWasRequested(r: RunResult) {
    r.finalResponse == Some("approval_requested") && exists e <- r.path :: AwaitsHuman(e)
  }

  lemma AskingCalls(rt: Runtime, p: Proposal, call: ToolCall, s: Surroundings)
    requires Execute(rt, p, call, s).reply.Replied?
    ensures var c := Execute(rt, p, call, s);
      && c.reply.execution.evidence.Some?
      && (c.use.AskedApproval? ==>
            && c.reply.execution.finalResponse == Some("approval_requested")
            && c.reply.execution.disposition.Completed? && AwaitsHuman(PathEntry(1, c.reply.execution.evidence.value)))
  {
  }

  lemma OnlyAskingCallsSaySo(rt: Runtime, p: Proposal, call: ToolCall, s: Surroundings)
    requires Execute(rt, p, call, s).reply.Replied? && !Execute(rt, p, call, s).use.AskedApproval?
    ensures Execute(rt, p, call, s).reply.execution.finalResponse != Some("approval_requested")
  {
  }

  /** A gated call continues only after its handler ran: it is never one that awaits a human. */
  lemma ContinuingCalls(rt: Runtime, p: Proposal, call: ToolCall, s: Surroundings)
    requires Execute(rt, p, call, s).reply.Replied?
    ensures var c := Execute(rt, p, call, s);
      && c.reply.execution.evidence.Some?
      && (c.reply.execution.disposition.Continue? ==>
            c.use.RanHandler? && !AwaitsHuman(PathEntry(1, c.reply.execution.evidence.value)))
  {
  }

  /** One gated call, recorded: it parks exactly when it asked, and it goes on only without asking. */
  lemma RecordedCall(rt: Runtime, p: Proposal, call: ToolCall, s: Surroundings, path: seq<PathEntry>, step: nat)
    requires forall e <- path :: !AwaitsHuman(e)
    requires Execute(rt, p, call, s).reply.Replied?
    ensures var c := Execute(rt, p, call, s);
      var x, after := c.reply.execution, Recorded(path, step, c.reply.execution);
      && after != []
      && ((x.finalResponse == Some("approval_requested") && exists e <- after :: AwaitsHuman(e))
          <==> c.use.AskedApproval?)
      && (c.use.AskedApproval? ==> x.disposition.Completed?)
      && (x.disposition.Continue? ==> forall e <- after :: !AwaitsHuman(e))
  {
    AskingCalls(rt, p, call, s);
    ContinuingCalls(rt, p, call, s);
    if !Execute(rt, p, call, s).use.AskedApproval? {
      OnlyAskingCallsSaySo(rt, p, call, s);
    }
    var x := Execute(rt, p, call, s).reply.execution;
    var after := Recorded(path, step, x);
    assert after == path + [PathEntry(step, x.evidence.value)];
    assert PathEntry(step, x.evidence.value) in after;
  }

  /** A terminal evaluation never counts as a known action, whatever its response says. */
  lemma TerminalNeverParks(rt: Runtime, st: LoopState, p: Proposal, s: Surroundings)
    requires forall e <- st.path :: !AwaitsHuman(e)
    requires EvaluateTerminal(rt, p, s).Replied?
    ensures var end := TerminalEnd(st, p, EvaluateTerminal(rt, p, s).execution);
      end.result.completed && end.result.path != [] && !ApprovalWasRequested(end.result)
  {
    var x := EvaluateTerminal(rt, p, s).execution;
    assert Recorded(st.path, st.steps + 1, x) == st.path + [PathEntry(st.steps + 1, x.evidence.value)];
  }

  ghost predicate StepParks(step: LoopStep, granted: Option<Command>) {
    match step
    case Next(next) => granted.None? && forall e <- next.path :: !AwaitsHuman(e)
    case Stop(Crashed) => granted.None?
    case Stop(Ended(r)) =>
      && (ApprovalWasRequested(r) <==> granted.Some?)
      && (granted.Some? ==> r.completed) && (r.completed ==> r.path != [])
  }

  lemma TerminalStepParks(model: Model, rt: Runtime, world: World, st: LoopState)
    requires forall e <- st.path :: !AwaitsHuman(e)
    requires model(st.messages).Some? && model(st.messages).value.toolCall.None?
    ensures StepParks(Advance(model, GateTools(rt, world), st), GrantedNow(model, rt, world, st))
  {
    var p := model(st.messages).value;
    var s := world(st.messages + [AssistantTurn(p)]);
    if EvaluateTerminal(rt, p, s).Replied? {
      TerminalNeverParks(rt, st, p, s);
    }
  }

  lemma CallStepParks(model: Model, rt: Runtime, world: World, st: LoopState)
    requires forall e <- st.path :: !AwaitsHuman(e)
    requires model(st.messages).Some? && model(st.messages).value.toolCall.Some?
    ensures StepParks(Advance(model, GateTools(rt, world), st), GrantedNow(model, rt, world, st))
  {
    var p := model(st.messages).value;
    var s := world(st.messages + [AssistantTurn(p)]);
    if Repeats(st, p.toolCall.value) != MAX_CONSECUTIVE_TOOL_CALLS {
      var c := Execute(rt, p, p.toolCall.value, s);
      if c.reply.Replied? {
        RecordedCall(rt, p, p.toolCall.value, s, st.path, st.steps + 1);
        AfterCallParks(st, p, p.toolCall.value, c.reply.execution,
                       if c.use.AskedApproval? then Some(c.use.command) else None);
      }
    }
  }

  lemma AfterCallParks(st: LoopState, p: Proposal, call: ToolCall, x: Execution, granted: Option<Command>)
    requires var after := Recorded(st.path, st.steps + 1, x);
      && after != []
      && ((x.finalResponse == Some("approval_requested") && exists e <- after :: AwaitsHuman(e)) <==> granted.Some?)
      && (granted.Some? ==> x.disposition.Completed?)
      && (x.disposition.Continue? ==> forall e <- after :: !AwaitsHuman(e))
    ensures StepParks(AfterCall(st, p, call, x), granted)
  {
  }

  /** One iteration ends the run as parked exactly when its own request was granted. */
  lemma OneStepParks(model: Model, rt: Runtime, world: World, st: LoopState)
    requires forall e <- st.path :: !AwaitsHuman(e)
    ensures StepParks(Advance(model, GateTools(rt, world), st), GrantedNow(model, rt, world, st))
  {
    if model(st.messages).Some? {
      if model(st.messages).value.toolCall.None? {
        TerminalStepParks(model, rt, world, st);
      } else {
        CallStepParks(model, rt, world, st);
      }
    }
  }

  lemma ContinuesWithoutAsking(model: Model, rt: Runtime, world: World, st: LoopState)
    requires Advance(model, GateTools(rt, world), st).Next?
    ensures Asked(model, rt, world, st) == []
  {
    var p := model(st.messages).value;
    ContinuingCalls(rt, p, p.toolCall.value, world(st.messages + [AssistantTurn(p)]));
  }

  lemma {:induction false} ParkingRuns(model: Model, rt: Runtime, world: World, limit: nat, st: LoopState)
    requires forall e <- st.path :: !AwaitsHuman(e)
    ensures var end, granted := Continued(model, GateTools(rt, world), limit, st), Granted(model, rt, world, limit, st);
      && (end.Crashed? ==> granted.None?)
      && (end.Ended? ==> (ApprovalWasRequested(end.result) <==> granted.Some?))
      && (end.Ended? && granted.Some? ==> end.result.completed)
      && (end.Ended? && end.result.completed ==> end.result.path != [])
    ensures var requests, granted := Requests(model, rt, world, limit, st), Granted(model, rt, world, limit, st);
      |requests| <= 1 && (granted.Some? ==> requests == [granted.value])
    decreases limit - st.steps
  {
    if st.steps < limit {
      OneStepParks(model, rt, world, st);
      match Advance(model, GateTools(rt, world), st)
      case Stop(_) =>
      case Next(next) =>
        ContinuesWithoutAsking(model, rt, world, st);
        ParkingRuns(model, rt, world, limit, next);
    }
  }

  /** For every model: a run parks its job exactly when its last step got `request_approval` back, and
      that request is the only one of the run. No rationale can fake it. */
  lemma OnlyTheGateParks(model: Model, rt: Runtime, world: World, maxSteps: nat, initial: seq<Message>)
    ensures var end := Run(model, GateTools(rt, world), maxSteps, initial);
      var granted := Granted(model, rt, world, Limit(maxSteps), Start(initial));
      && (end.Ended? ==> (ApprovalWasRequested(end.result) <==> granted.Some?))
      && (granted.Some? ==> end.Ended? && end.result.completed)
      && (granted.Some? ==> Requests(model, rt, world, Limit(maxSteps), Start(initial)) == [granted.value])
  {
    ParkingRuns(model, rt, world, Limit(maxSteps), Start(initial));
  }

  lemma {:induction false} RequestsAreAuthorized(model: Model, rt: Runtime, world: World, limit: nat, st: LoopState)
    requires ValidProfile(rt.profile)
    ensures forall c <- Requests(model, rt, world, limit, st) :: Authorized(rt.rules, rt.profile, c)
    decreases limit - st.steps
  {
    if st.steps < limit {
      var c := Consulted(model, rt, world, st);
      if c.Some? && c.value.use.AskedApproval? {
        var p := model(st.messages).value;
        AskedCommandsAreAuthorized(rt, p, p.toolCall.value, world(st.messages + [AssistantTurn(p)]));
      }
      match Advance(model, GateTools(rt, world), st)
      case Stop(_) =>
      case Next(next) => RequestsAreAuthorized(model, rt, world, limit, next);
    }
  }
}
