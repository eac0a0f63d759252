/** The bounded agent loop (app/agent/loop.py) against an arbitrary model and arbitrary tools. */
module AgentLoop {
  import opened Values
  import opened Proposals
  import opened Gate
  import opened Transcript

  const MAX_STEPS: nat := 8
  const MAX_CONSECUTIVE_TOOL_CALLS: nat := 3

  /** Any model: its answer may depend on the whole transcript; None is an exception. */
  type Model = seq<Message> -> Option<Proposal>

  /** Any executor: its replies may depend on the whole transcript. */
  datatype Tools = Tools(
    execute: (seq<Message>, Proposal, ToolCall) -> Reply,
    evaluateTerminal: (seq<Message>, Proposal) -> Reply)

  datatype StopReason = RepeatedTool | MaxSteps | ExecutorStopped | ToolExecutionFailed

  function StopText(r: StopReason): string {
    match r
    case RepeatedTool => "repeated_tool"
    case MaxSteps => "max_steps"
    case ExecutorStopped => "executor_stopped"
    case ToolExecutionFailed => "tool_execution_failed"
  }

  datatype PathEntry = PathEntry(step: nat, evidence: StepEvidence)

  datatype RunResult = RunResult(
    completed: bool, reason: StopReason, messages: seq<Message>, steps: nat,
    finalResponse: Option<string>, path: seq<PathEntry>)

  datatype RunEnd = Crashed | Ended(result: RunResult)

  datatype LoopState = LoopState(
    messages: seq<Message>, steps: nat, path: seq<PathEntry>, previous: Option<ToolCall>, repeats: nat)

  datatype LoopStep = Next(state: LoopState) | Stop(end: RunEnd)

  function Start(initial: seq<Message>): LoopState { LoopState(initial, 0, [], None, 0) }

  function Recorded(path: seq<PathEntry>, step: nat, x: Execution): seq<PathEntry> {
    if x.evidence.Some? then path + [PathEntry(step, x.evidence.value)] else path
  }

  function TerminalEnd(st: LoopState, p: Proposal, x: Execution): RunEnd {
    var path := Recorded(st.path, st.steps + 1, x);
    var response :=
      if x.finalResponse == Some("no_action_requested") && |path| > 1 then Some(p.rationale) else x.finalResponse;
    Ended(RunResult(!x.disposition.Stopped?, if x.disposition.Stopped? then ToolExecutionFailed else ExecutorStopped,
                    st.messages + [AssistantTurn(p)], st.steps + 1, response, path))
  }

  /** The repetition counter after one more call. */
  function Repeats(st: LoopState, call: ToolCall): nat {
    if st.previous.Some? && SameCall(call, st.previous.value) then st.repeats + 1 else 1
  }

  function AfterCall(st: LoopState, p: Proposal, call: ToolCall, x: Execution): LoopStep {
    var path := Recorded(st.path, st.steps + 1, x);
    var messages := st.messages + [AssistantTurn(p)] + [ToolTurn(call, x.data)];
    match x.disposition
    case Stopped => Stop(Ended(RunResult(false, ToolExecutionFailed, messages, st.steps + 1, x.finalResponse, path)))
    case Completed => Stop(Ended(RunResult(true, ExecutorStopped, messages, st.steps + 1, x.finalResponse, path)))
    case Continue =>
      Next(LoopState(messages, st.steps + 1, path,
                     if st.previous.Some? && SameCall(call, st.previous.value) then st.previous else Some(call),
                     Repeats(st, call)))
  }

  /** One iteration of the loop body. */
  function Advance(model: Model, tools: Tools, st: LoopState): (r: LoopStep)
    ensures r.Next? ==> r.state.steps == st.steps + 1
  {
    var answer := model(st.messages);
    if answer.None? then Stop(Crashed)
    else
      var p := answer.value;
      var messages := st.messages + [AssistantTurn(p)];
      if p.toolCall.None? then
        match tools.evaluateTerminal(messages, p)
        case Raised => Stop(Crashed)
        case Replied(x) => Stop(TerminalEnd(st, p, x))
      else
        var call := p.toolCall.value;
        if Repeats(st, call) == MAX_CONSECUTIVE_TOOL_CALLS then
          Stop(Ended(RunResult(false, RepeatedTool, messages, st.steps + 1, None, st.path)))
        else
          match tools.execute(messages, p, call)
          case Raised => Stop(Crashed)
          case Replied(x) => AfterCall(st, p, call, x)
  }

  function Exhausted(st: LoopState): RunEnd {
    Ended(RunResult(false, MaxSteps, st.messages, st.steps, None, st.path))
  }

  function Continued(model: Model, tools: Tools, limit: nat, st: LoopState): RunEnd
    decreases limit - st.steps
  {
    if st.steps >= limit then Exhausted(st)
    else match Advance(model, tools, st)
      case Stop(end) => end
      case Next(next) => Continued(model, tools, limit, next)
  }

  function Limit(maxSteps: nat): nat { if maxSteps < MAX_STEPS then maxSteps else MAX_STEPS }

  function Run(model: Model, tools: Tools, maxSteps: nat, initial: seq<Message>): RunEnd {
    Continued(model, tools, Limit(maxSteps), Start(initial))
  }

  /** The source's loop over its five mutable locals. */
  method RunLoop(model: Model, tools: Tools, maxSteps: nat, initial: seq<Message>) returns (end: RunEnd)
    requires maxSteps > 0
    ensures end == Run(model, tools, maxSteps, initial)
  {
    var limit := if maxSteps < MAX_STEPS then maxSteps else MAX_STEPS;
    var messages := initial;
    var steps := 0;
    var executionPath: seq<PathEntry> := [];
    var previousToolCall: Option<ToolCall> := None;
    var consecutiveToolCalls := 0;
    while steps < limit
      invariant steps <= limit
      invariant Run(model, tools, maxSteps, initial)
        == Continued(model, tools, limit,
                     LoopState(messages, steps, executionPath, previousToolCall, consecutiveToolCalls))
    {
      ghost var before := LoopState(messages, steps, executionPath, previousToolCall, consecutiveToolCalls);
      var answer := model(messages);
      if answer.None? {
        return Crashed;
      }
      var proposal := answer.value;
      steps := steps + 1;
      messages := messages + [AssistantTurn(proposal)];
      if proposal.toolCall.None? {
        var reply := tools.evaluateTerminal(messages, proposal);
        if reply.Raised? {
          return Crashed;
        }
        var execution := reply.execution;
        if execution.evidence.Some? {
          executionPath := executionPath + [PathEntry(steps, execution.evidence.value)];
        }
        var response := execution.finalResponse;
        if response == Some("no_action_requested") && |executionPath| > 1 {
          response := Some(proposal.rationale);
        }
        return Ended(RunResult(
          execution.disposition != Stopped,
          if execution.disposition == Stopped then ToolExecutionFailed else ExecutorStopped,
          messages, steps, response, executionPath));
      }
      var call := proposal.toolCall.value;
      if previousToolCall.Some? && SameCall(call, previousToolCall.value) {
        consecutiveToolCalls := consecutiveToolCalls + 1;
      } else {
        previousToolCall := Some(call);
        consecutiveToolCalls := 1;
      }
      if consecutiveToolCalls == MAX_CONSECUTIVE_TOOL_CALLS {
        return Ended(RunResult(false, RepeatedTool, messages, steps, None, executionPath));
      }
      var reply := tools.execute(messages, proposal, call);
      if reply.Raised? {
        return Crashed;
      }
      var execution := reply.execution;
      if execution.evidence.Some? {
        executionPath := executionPath + [PathEntry(steps, execution.evidence.value)];
      }
      messages := messages + [ToolTurn(call, execution.data)];
      if execution.disposition == Stopped {
        return Ended(RunResult(false, ToolExecutionFailed, messages, steps, execution.finalResponse, executionPath));
      }
      if execution.disposition == Completed {
        return Ended(RunResult(true, ExecutorStopped, messages, steps, execution.finalResponse, executionPath));
      }
      assert Advance(model, tools, before)
        == Next(LoopState(messages, steps, executionPath, previousToolCall, consecutiveToolCalls));
    }
    end := Ended(RunResult(false, MaxSteps, messages, steps, None, executionPath));
  }
}
