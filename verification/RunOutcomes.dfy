/** How gated runs end: which iteration ends them, for which reason, and with what in the transcript and on the path
    (app/agent/loop.py, app/tools/executor.py). */
module RunOutcomes {
  import opened Values
  import opened Profiles
  import opened Proposals
  import Policy
  import opened Commands
  import opened Gate
  import opened GateEnds
  import opened Transcript
  import opened AgentLoop
  import opened RunProperties
  import opened RunEnds

  // ---------------------------------------------------------------- one call

  /** An allowed call whose port breaks, or that is cancelled just before its port is consulted. */
  ghost predicate BackendFails(rt: Runtime, p: Proposal, call: ToolCall, s: Surroundings) {
    && !s.cancelled && Because(rt, p, call.name, Policy.ActionAllowed)
    && exists a :: Says(rt.rules, call.name, call.arguments, a) && (s.cancelledLate || PortBroke(rt, a, s.reply))
  }

  /** An allowed call whose port returns a reference. */
  ghost predicate Succeeds(rt: Runtime, p: Proposal, call: ToolCall, s: Surroundings) {
    && !s.cancelled && !s.cancelledLate && Because(rt, p, call.name, Policy.ActionAllowed) && s.reply.Returned?
    && exists a :: Says(rt.rules, call.name, call.arguments, a) && !NoSource(rt, a)
  }

  lemma OneMeaning(rt: Runtime, call: ToolCall, a: Args, b: Args)
    requires Says(rt.rules, call.name, call.arguments, a) && Says(rt.rules, call.name, call.arguments, b)
    ensures a == b
  {
    ParsesExactly(rt.rules, ArgsAction(a), call.arguments, a);
    ParsesExactly(rt.rules, ArgsAction(a), call.arguments, b);
  }

  lemma StopsExactly(rt: Runtime, p: Proposal, call: ToolCall, s: Surroundings)
    requires Execute(rt, p, call, s).reply.Replied?
    ensures Execute(rt, p, call, s).reply.execution.disposition.Stopped? <==> BackendFails(rt, p, call, s)
  {
    HandlerRunsExactly(rt, p, call, s);
    if Execute(rt, p, call, s).use.RanHandler? {
      HandlersEndExactly(rt, p, call, s);
      var used := Execute(rt, p, call, s).use.args;
      forall a | Says(rt.rules, call.name, call.arguments, a) ensures a == used {
        OneMeaning(rt, call, a, used);
      }
    } else {
      OtherCallsEndExactly(rt, p, call, s);
    }
  }

  lemma RefusesCancelled(rt: Runtime, p: Proposal, call: ToolCall, s: Surroundings)
    ensures BackendFails(rt, p, call, s) ==> Execute(rt, p, call, s).reply.Replied?
    ensures Succeeds(rt, p, call, s) ==> Execute(rt, p, call, s).use.RanHandler?
  {
    HandlerRunsExactly(rt, p, call, s);
    PolicyAllows(rt, p, call);
    RaisesExactly(rt, p, call, s);
    if Because(rt, p, call.name, Policy.ActionAllowed) && Meant(rt, call) {
      MeantExactly(rt, call);
      EscapesExactly(rt.rules, ActionNamed(call.name).value, call.arguments);
    }
  }

  lemma ContinuesExactly(rt: Runtime, p: Proposal, call: ToolCall, s: Surroundings)
    ensures var c := Execute(rt, p, call, s);
      && (c.reply.Replied? && c.reply.execution.disposition.Continue? <==> Succeeds(rt, p, call, s))
      && (Succeeds(rt, p, call, s) ==>
            && c.reply.execution.data == Result(s.reply.ref)
            && c.reply.execution.evidence == Some(SuccessEvidence(call)))
  {
    RefusesCancelled(rt, p, call, s);
    HandlerRunsExactly(rt, p, call, s);
    var c := Execute(rt, p, call, s);
    if c.use.RanHandler? {
      HandlersEndExactly(rt, p, call, s);
      forall a | Says(rt.rules, call.name, call.arguments, a) ensures a == c.use.args {
        OneMeaning(rt, call, a, c.use.args);
      }
      if Succeeds(rt, p, call, s) {
        EvidenceExactly(rt, p, call, s);
        OneReason(rt, p, call.name, Policy.ActionAllowed, c.reply.execution.evidence.value.reason);
      }
    } else if c.reply.Replied? {
      OtherCallsEndExactly(rt, p, call, s);
    }
  }

  /** What a successful call leaves on the path. */
  function SuccessEvidence(call: ToolCall): StepEvidence {
    StepEvidence(Some(call.name), true, Policy.Allow, Policy.Ready, Policy.ActionAllowed, {}, Some(Executed),
                 call.name != "find_customer")
  }

  // ---------------------------------------------------------------- one iteration

  /** The iteration executes a call: the model answers with one that is not the third of its kind in a row. */
  predicate Calls(model: Model, st: LoopState) {
    && model(st.messages).Some? && model(st.messages).value.toolCall.Some?
    && Repeats(st, model(st.messages).value.toolCall.value) != 3
  }

  /** An iteration goes on exactly when it executes a call that succeeds; then the transcript gains the proposal and
      the port's reference, and the path one entry. */
  lemma GoesOnExactly(model: Model, rt: Runtime, world: World, st: LoopState)
    ensures var step := Advance(model, GateTools(rt, world), st);
      && (step.Next?
          <==> && Calls(model, st)
               && var p := model(st.messages).value;
                  Succeeds(rt, p, p.toolCall.value, world(st.messages + [AssistantTurn(p)])))
      && (step.Next? ==>
            var p := model(st.messages).value;
            var s := world(st.messages + [AssistantTurn(p)]);
            && s.reply.Returned?
            && step.state.messages
               == st.messages + [Message(Assistant, Some(p.rationale), Some(p), p.toolCall, None)]
                  + [Message(Tool, None, None, p.toolCall, Some(Result(s.reply.ref)))]
            && step.state.path == st.path + [PathEntry(st.steps + 1, SuccessEvidence(p.toolCall.value))])
  {
    if Calls(model, st) {
      var p := model(st.messages).value;
      ContinuesExactly(rt, p, p.toolCall.value, world(st.messages + [AssistantTurn(p)]));
    }
  }

  ghost predicate LastCallFails(model: Model, rt: Runtime, world: World, st: LoopState) {
    && Calls(model, st)
    && var p := model(st.messages).value;
       BackendFails(rt, p, p.toolCall.value, world(st.messages + [AssistantTurn(p)]))
  }

  /** The model answers with the third call of its kind in a row. */
  predicate Loops(model: Model, st: LoopState) {
    && model(st.messages).Some? && model(st.messages).value.toolCall.Some?
    && Repeats(st, model(st.messages).value.toolCall.value) == 3
  }

  /** What the last iteration leaves: the model's last words, and beyond them only what an executed call gave back. */
  predicate Leaves(model: Model, rt: Runtime, world: World, st: LoopState, r: RunResult)
    requires model(st.messages).Some?
  {
    var p := model(st.messages).value;
    var messages := st.messages + [Message(Assistant, Some(p.rationale), Some(p), p.toolCall, None)];
    if Loops(model, st) then r.messages == messages && r.finalResponse.None? && r.path == st.path
    else if p.toolCall.Some? then
      var reply := Execute(rt, p, p.toolCall.value, world(st.messages + [AssistantTurn(p)])).reply;
      && reply.Replied? && reply.execution.evidence.Some?
      && r.messages == messages + [Message(Tool, None, None, p.toolCall, Some(reply.execution.data))]
      && r.finalResponse == reply.execution.finalResponse
      && r.path == st.path + [PathEntry(st.steps + 1, reply.execution.evidence.value)]
    else r.messages == messages && |r.path| == |st.path| + 1 && r.path[..|st.path|] == st.path
  }

  lemma IterationLeaves(model: Model, rt: Runtime, world: World, st: LoopState)
    requires Advance(model, GateTools(rt, world), st).Stop? && Advance(model, GateTools(rt, world), st).end.Ended?
    ensures model(st.messages).Some?
    ensures Leaves(model, rt, world, st, Advance(model, GateTools(rt, world), st).end.result)
  {
    var p := model(st.messages).value;
    var s := world(st.messages + [AssistantTurn(p)]);
    if Calls(model, st) {
      EvidenceExactly(rt, p, p.toolCall.value, s);
    } else if !Loops(model, st) {
      TerminalEndsExactly(rt, p, s);
    }
  }

  lemma IterationEnds(model: Model, rt: Runtime, world: World, st: LoopState)
    requires Advance(model, GateTools(rt, world), st).Stop? && Advance(model, GateTools(rt, world), st).end.Ended?
    ensures var r := Advance(model, GateTools(rt, world), st).end.result;
      && (r.reason == RepeatedTool <==> Loops(model, st))
      && (r.reason == ToolExecutionFailed <==> LastCallFails(model, rt, world, st))
      && r.reason != MaxSteps && (r.completed <==> r.reason == ExecutorStopped) && r.steps == st.steps + 1
  {
    if Calls(model, st) {
      var p := model(st.messages).value;
      StopsExactly(rt, p, p.toolCall.value, world(st.messages + [AssistantTurn(p)]));
    } else if !Loops(model, st) {
      var p := model(st.messages).value;
      TerminalEndsExactly(rt, p, world(st.messages + [AssistantTurn(p)]));
    }
  }

  // ---------------------------------------------------------------- whole runs

  lemma {:induction false} EndsFrom(model: Model, rt: Runtime, world: World, limit: nat, st: LoopState)
    requires st.steps <= limit
    ensures var end, last := Continued(model, GateTools(rt, world), limit, st),
                             LastState(model, GateTools(rt, world), limit, st);
      && last.steps <= limit
      && (end.Ended? ==>
            var r := end.result;
            && (r.reason == MaxSteps <==> last.steps == limit)
            && (r.reason == RepeatedTool <==> last.steps < limit && Loops(model, last))
            && (r.reason == ToolExecutionFailed <==> last.steps < limit && LastCallFails(model, rt, world, last))
            && (r.completed <==> r.reason == ExecutorStopped)
            && r.steps == (if last.steps < limit then last.steps + 1 else limit)
            && (if last.steps < limit then
                  model(last.messages).Some? && Leaves(model, rt, world, last, r)
                else r.messages == last.messages && r.finalResponse.None? && r.path == last.path))
    decreases limit - st.steps
  {
    if st.steps < limit {
      match Advance(model, GateTools(rt, world), st)
      case Next(next) => EndsFrom(model, rt, world, limit, next);
      case Stop(end) =>
        if end.Ended? {
          IterationEnds(model, rt, world, st);
          IterationLeaves(model, rt, world, st);
        }
    }
  }

  lemma FailingCallsEnd(model: Model, rt: Runtime, world: World, maxSteps: nat, initial: seq<Message>)
    ensures var last := LastOf(model, rt, world, maxSteps, initial);
      last.steps < Limit(maxSteps) && LastCallFails(model, rt, world, last)
      ==> Run(model, GateTools(rt, world), maxSteps, initial).Ended?
  {
    RunsCrashExactly(model, rt, world, maxSteps, initial);
    var last := LastOf(model, rt, world, maxSteps, initial);
    if LastCallFails(model, rt, world, last) {
      var p := model(last.messages).value;
      var s := world(last.messages + [AssistantTurn(p)]);
      RefusesCancelled(rt, p, p.toolCall.value, s);
      RaisesExactly(rt, p, p.toolCall.value, s);
    }
  }

  /** Why a gated run that did not crash ended, for every model and any behaviour around its calls: for a third equal
      call, a backend failure or its step limit (eight at most) it failed; in any other case it completed. And what it
      leaves: the transcript and path of its last iteration. */
  lemma RunsEndExactly(model: Model, rt: Runtime, world: World, maxSteps: nat, initial: seq<Message>)
    ensures var end, last := Run(model, GateTools(rt, world), maxSteps, initial),
                             LastOf(model, rt, world, maxSteps, initial);
      var limit := if maxSteps < 8 then maxSteps else 8;
      end.Ended? ==>
        var r := end.result;
        && (r.reason == MaxSteps <==> last.steps == limit)
        && (r.reason == RepeatedTool <==> last.steps < limit && Loops(model, last))
        && (r.reason == ToolExecutionFailed <==> last.steps < limit && LastCallFails(model, rt, world, last))
        && (r.completed <==> r.reason == ExecutorStopped)
        && r.steps == (if last.steps < limit then last.steps + 1 else limit)
        && (if last.steps < limit then
              model(last.messages).Some? && Leaves(model, rt, world, last, r)
            else r.messages == last.messages && r.finalResponse.None? && r.path == last.path)
  {
    EndsFrom(model, rt, world, Limit(maxSteps), Start(initial));
  }

  /** A backend failure in the last iteration fails the run, and nothing else about the run matters. */
  lemma BackendFailuresFailTheRun(model: Model, rt: Runtime, world: World, maxSteps: nat, initial: seq<Message>)
    ensures var end, last := Run(model, GateTools(rt, world), maxSteps, initial),
                             LastOf(model, rt, world, maxSteps, initial);
      last.steps < Limit(maxSteps) && LastCallFails(model, rt, world, last) ==>
        end.Ended? && !end.result.completed && end.result.reason == ToolExecutionFailed
  {
    FailingCallsEnd(model, rt, world, maxSteps, initial);
    EndsFrom(model, rt, world, Limit(maxSteps), Start(initial));
  }

  // ---------------------------------------------------------------- the third call in a row

  /** Every call a run's model proposes, also the one that is not executed any more, up to Python's equality. */
  function Proposed(model: Model, tools: Tools, limit: nat, st: LoopState): seq<ToolCall>
    decreases limit - st.steps
  {
    if st.steps >= limit || model(st.messages).None? || model(st.messages).value.toolCall.None? then []
    else [CanonCall(model(st.messages).value.toolCall.value)] + match Advance(model, tools, st)
      case Stop(_) => []
      case Next(next) => Proposed(model, tools, limit, next)
  }

  predicate EndsInThree<T(==)>(xs: seq<T>) {
    |xs| >= 3 && xs[|xs| - 1] == xs[|xs| - 2] == xs[|xs| - 3]
  }

  /** Calls before the current row of equal ones change nothing about how the sequence ends. */
  lemma OnlyTheTailCounts(before: seq<ToolCall>, call: ToolCall, rest: seq<ToolCall>)
    requires before != [] ==> before[|before| - 1] != call
    ensures EndsInThree(before + ([call] + rest)) <==> EndsInThree([call] + rest)
  {
    var whole, short := before + ([call] + rest), [call] + rest;
    assert forall i :: |before| <= i < |whole| ==> whole[i] == short[i - |before|];
    if |short| < 3 && |whole| >= 3 {
      assert before != [] ==> whole[|before| - 1] != whole[|before|];
    }
  }

  lemma TailAfter(st: LoopState, call: ToolCall, rest: seq<ToolCall>)
    requires CountersFit(st)
    ensures var k := CanonCall(call);
      var after := if st.previous.Some? && SameCall(call, st.previous.value) then Tail(st) + [k] else [k];
      && |after| == Repeats(st, call)
      && (EndsInThree(Tail(st) + ([k] + rest)) <==> EndsInThree(after + rest))
  {
    var k := CanonCall(call);
    if st.previous.Some? && SameCall(call, st.previous.value) {
      assert Tail(st) + ([k] + rest) == Tail(st) + [k] + rest;
    } else {
      OnlyTheTailCounts(Tail(st), k, rest);
    }
  }

  lemma {:induction false} LoopsFrom(model: Model, tools: Tools, limit: nat, st: LoopState)
    requires CountersFit(st)
    ensures var end := Continued(model, tools, limit, st);
      (end.Ended? && end.result.reason == RepeatedTool) <==> EndsInThree(Tail(st) + Proposed(model, tools, limit, st))
    decreases limit - st.steps
  {
    if st.steps >= limit || model(st.messages).None? || model(st.messages).value.toolCall.None? {
      assert Tail(st) + [] == Tail(st);
    } else {
      var call := model(st.messages).value.toolCall.value;
      var k := CanonCall(call);
      match Advance(model, tools, st)
      case Stop(_) =>
        TailAfter(st, call, []);
        assert [k] + [] == [k];
        var after := if st.previous.Some? && SameCall(call, st.previous.value) then Tail(st) + [k] else [k];
        assert after + [] == after && forall i :: 0 <= i < |after| ==> after[i] == k;
      case Next(next) =>
        var rest := Proposed(model, tools, limit, next);
        LoopsFrom(model, tools, limit, next);
        TailAfter(st, call, rest);
        var after := if st.previous.Some? && SameCall(call, st.previous.value) then Tail(st) + [k] else [k];
        assert Tail(next) == after;
    }
  }

  /** Whatever the tools answer, a run is cut for repetition exactly when its last three proposed calls are equal. */
  lemma RepetitionIsCutExactly(model: Model, tools: Tools, maxSteps: nat, initial: seq<Message>)
    ensures var end := Run(model, tools, maxSteps, initial);
      var proposed := Proposed(model, tools, Limit(maxSteps), Start(initial));
      (end.Ended? && end.result.reason == RepeatedTool) <==> EndsInThree(proposed)
  {
    LoopsFrom(model, tools, Limit(maxSteps), Start(initial));
    var proposed := Proposed(model, tools, Limit(maxSteps), Start(initial));
    assert Tail(Start(initial)) + proposed == proposed;
  }

  // ---------------------------------------------------------------- closing proposals

  /** A run that ends with a closing proposal completes; its response is policy's reason, except that a run which
      already acted and has nothing left to do answers with the model's own words. */
  lemma ClosingProposalsEndExactly(model: Model, rt: Runtime, world: World, st: LoopState)
    requires model(st.messages).Some? && model(st.messages).value.toolCall.None?
    requires !world(st.messages + [AssistantTurn(model(st.messages).value)]).cancelled
    ensures var step := Advance(model, GateTools(rt, world), st);
      var p := model(st.messages).value;
      && step.Stop? && step.end.Ended? && step.end.result.completed
      && step.end.result.messages == st.messages + [AssistantTurn(p)]
      && |step.end.result.path| == |st.path| + 1 && step.end.result.path[..|st.path|] == st.path
      && step.end.result.path[|st.path|].step == st.steps + 1
      && var reason := step.end.result.path[|st.path|].evidence.reason;
      && BecauseTerminal(rt, p, reason)
      && step.end.result.finalResponse
         == Some(if reason == Policy.NoActionRequested && st.path != [] then p.rationale
                 else if reason == Policy.SafetyOrLegalRisk then "review_required"
                 else Policy.ReasonText(reason))
  {
    var p := model(st.messages).value;
    TerminalEndsExactly(rt, p, world(st.messages + [AssistantTurn(p)]));
  }
}
