/** What a gate call asks of the port, and how it ends, told from the runtime, the proposal, the call and the port's
    reply alone (app/tools/executor.py). */
module GateEnds {
  import opened Values
  import opened Profiles
  import opened Proposals
  import opened Policy
  import opened Commands
  import opened Gate

  /** The call names valid arguments of its action. */
  ghost predicate Meant(rt: Runtime, call: ToolCall) { exists a :: Says(rt.rules, call.name, call.arguments, a) }

  lemma MeantExactly(rt: Runtime, call: ToolCall)
    requires ActionNamed(call.name).Some?
    ensures var parsed := ParseArgs(rt.rules, ActionNamed(call.name).value, call.arguments);
      && (parsed.Parsed? <==> Meant(rt, call))
      && (parsed.Parsed? ==> Says(rt.rules, call.name, call.arguments, parsed.result))
  {
    var action := ActionNamed(call.name).value;
    var parsed := ParseArgs(rt.rules, action, call.arguments);
    if parsed.Parsed? {
      ParsesExactly(rt.rules, action, call.arguments, parsed.result);
    }
    forall a | Says(rt.rules, call.name, call.arguments, a) ensures parsed.Parsed? {
      ParsesExactly(rt.rules, action, call.arguments, a);
    }
  }

  lemma PolicyAllows(rt: Runtime, p: Proposal, call: ToolCall)
    ensures ActionPolicy(rt, p, call).decision == Allow <==> Because(rt, p, call.name, ActionAllowed)
    ensures ActionPolicy(rt, p, call).decision == NeedsApproval
       <==> Because(rt, p, call.name, SafetyOrLegalRisk) || Because(rt, p, call.name, ApprovalRequired)
  {
    ReasonsExactly(rt, p, call, ActionAllowed);
    ReasonsExactly(rt, p, call, SafetyOrLegalRisk);
    ReasonsExactly(rt, p, call, ApprovalRequired);
    ReasonsExactly(rt, p, call, NoActionRequested);
  }

  /** A handler runs exactly when neither check saw a cancellation, policy's answer is that the action is allowed, and
      the call says valid arguments; it gets just these, and the fields the server accepted. */
  lemma HandlerRunsExactly(rt: Runtime, p: Proposal, call: ToolCall, s: Surroundings)
    ensures var use := Execute(rt, p, call, s).use;
      && (use.RanHandler?
          <==> !s.cancelled && !s.cancelledLate && Because(rt, p, call.name, ActionAllowed) && Meant(rt, call))
      && (use.RanHandler? ==>
            Says(rt.rules, call.name, call.arguments, use.args) && use.fields == Accepted(rt, p).values)
  {
    HandlersNeedParsedArguments(rt, p, call, s);
    PolicyAllows(rt, p, call);
    if ActionNamed(call.name).Some? {
      MeantExactly(rt, call);
    }
  }

  /** A human is asked exactly when neither check saw a cancellation, policy wants one, and the call says valid
      arguments: for version 1 of just this command, on the fields the server accepted, for policy's own reason. */
  lemma HumansAreAskedExactly(rt: Runtime, p: Proposal, call: ToolCall, s: Surroundings)
    ensures var use := Execute(rt, p, call, s).use;
      && (use.AskedApproval?
          <==> && !s.cancelled && !s.cancelledLate && Meant(rt, call)
               && (Because(rt, p, call.name, SafetyOrLegalRisk) || Because(rt, p, call.name, ApprovalRequired)))
      && (use.AskedApproval? ==>
            && use.command.version == 1 && Says(rt.rules, call.name, call.arguments, use.command.args)
            && use.command.knownFields == Accepted(rt, p).values && Because(rt, p, call.name, use.reason))
  {
    PolicyAllows(rt, p, call);
    ReasonsExactly(rt, p, call, ActionPolicy(rt, p, call).reason);
    if ActionPolicy(rt, p, call).decision == NeedsApproval {
      AllowedActionsAreRegistered(rt, p, call);
    }
    if ActionNamed(call.name).Some? {
      MeantExactly(rt, call);
    }
  }

  // ---------------------------------------------------------------- how a call ends

  /** The handler has no source to build its case from, so it never reaches the port. */
  predicate NoSource(rt: Runtime, a: Args) { a.CreateCaseArgs? && rt.source.None? }

  /** The port raised something the handler does not expect: a miss counts as expected only where one can occur. */
  predicate PortBroke(rt: Runtime, a: Args, reply: PortReply) {
    !NoSource(rt, a) && (reply.Failed? || (reply.NoCase? && !a.UpdateCaseArgs? && !a.ReplyDraftArgs?))
  }

  /** The code of a handler that stopped for a reason of its own. */
  function MissCode(rt: Runtime, a: Args, reply: PortReply): string {
    if NoSource(rt, a) then "trusted_source_unavailable"
    else if reply.CustomerMissing? then "customer_not_found"
    else "case_not_found"
  }

  lemma HandlersReply(rt: Runtime, p: Proposal, call: ToolCall, s: Surroundings)
    requires Execute(rt, p, call, s).use.RanHandler?
    ensures var c, action, o := Execute(rt, p, call, s), ActionNamed(call.name), ActionPolicy(rt, p, call);
      && action == Some(ArgsAction(c.use.args))
      && c.reply == match HandlerResult(rt, c.use.args, s.reply)
         case Value(ref) =>
           Evidenced(Result(ref), Continue, None, action, o, true, CommitsSideEffect(action.value))
         case Halt(code) => Evidenced(Code(code), Completed, Some(code), action, o, true, false)
         case Broken =>
           Evidenced(Code("tool_execution_failed"), Stopped, Some("tool_execution_failed"), action, o, true, false)
  {
  }

  /** The end of a call whose handler ran: the run goes on exactly when the port returned a reference, a miss completes
      it with the miss's code, and a port that raised stops it as a backend failure. */
  lemma HandlersEndExactly(rt: Runtime, p: Proposal, call: ToolCall, s: Surroundings)
    requires Execute(rt, p, call, s).use.RanHandler?
    ensures var c := Execute(rt, p, call, s);
      && c.reply.Replied? && c.reply.execution.evidence.Some?
      && var x, a, e := c.reply.execution, c.use.args, c.reply.execution.evidence.value;
      && (x.disposition.Continue? <==> s.reply.Returned? && !NoSource(rt, a))
      && (x.disposition.Stopped? <==> PortBroke(rt, a, s.reply))
      && (x.disposition.Continue? ==>
            && x.data == Result(s.reply.ref) && x.finalResponse.None? && e.toolOutcome == Some(Executed)
            && (e.sideEffect <==> call.name != "find_customer"))
      && (x.disposition.Stopped? ==>
            && x.data == Code("tool_execution_failed") && x.finalResponse == Some("tool_execution_failed")
            && e.toolOutcome == Some(BackendFailure) && !e.sideEffect)
      && (x.disposition.Completed? ==>
            && x.data == Code(MissCode(rt, a, s.reply)) && x.finalResponse == Some(MissCode(rt, a, s.reply))
            && e.toolOutcome == Some(if NoSource(rt, a) then Executed else NotFound) && !e.sideEffect)
  {
    HandlersReply(rt, p, call, s);
  }

  /** The end of a call that never got to its handler: a refusal or invalid arguments complete the run, and so does a
      granted request; only a cancellation just before the handler of an allowed call stops it. */
  lemma OtherCallsEndExactly(rt: Runtime, p: Proposal, call: ToolCall, s: Surroundings)
    requires Execute(rt, p, call, s).reply.Replied? && !Execute(rt, p, call, s).use.RanHandler?
    ensures var c := Execute(rt, p, call, s);
      && c.reply.execution.evidence.Some?
      && var x, e, o := c.reply.execution, c.reply.execution.evidence.value, ActionPolicy(rt, p, call);
      && !x.disposition.Continue? && !e.sideEffect
      && (x.disposition.Stopped? <==> s.cancelledLate && Because(rt, p, call.name, ActionAllowed) && Meant(rt, call))
      && (if x.disposition.Stopped? then
            && x.data == Code("tool_execution_failed") && x.finalResponse == Some("tool_execution_failed")
            && e.toolOutcome == Some(BackendFailure)
          else if c.use.AskedApproval? then
            && s.reply.Returned? && x.data == ApprovalData(o, s.reply.ref)
            && x.finalResponse == Some("approval_requested") && e.toolOutcome.None?
          else if o.decision == Deny then
            x.data == PolicyData(o) && x.finalResponse == Some(ReasonText(o.reason)) && e.toolOutcome.None?
          else
            && !Meant(rt, call)
            && x.data == Code("tool_arguments_invalid") && x.finalResponse == Some("tool_arguments_invalid")
            && e.toolOutcome == Some(InvalidArguments))
  {
    PolicyAllows(rt, p, call);
    if ActionPolicy(rt, p, call).decision != Deny {
      AllowedActionsAreRegistered(rt, p, call);
    }
    if ActionNamed(call.name).Some? {
      MeantExactly(rt, call);
    }
  }

  /** Every reply names the action by its own name if the registry knows it, and carries policy's whole answer. */
  lemma EvidenceExactly(rt: Runtime, p: Proposal, call: ToolCall, s: Surroundings)
    requires Execute(rt, p, call, s).reply.Replied?
    ensures var e := Execute(rt, p, call, s).reply.execution.evidence;
      && e.Some? && (e.value.actionKnown <==> ActionNamed(call.name).Some?)
      && e.value.actionKey == (if e.value.actionKnown then Some(call.name) else None)
      && Because(rt, p, call.name, e.value.reason)
      && Follows(rt, p, Outcome(e.value.decision, e.value.status, e.value.reason, e.value.missing))
  {
    EvidenceIsPolicy(rt, p, call, s);
    ReasonsExactly(rt, p, call, ActionPolicy(rt, p, call).reason);
  }

  lemma EvidenceIsPolicy(rt: Runtime, p: Proposal, call: ToolCall, s: Surroundings)
    requires Execute(rt, p, call, s).reply.Replied?
    ensures var e := Execute(rt, p, call, s).reply.execution.evidence;
      && e.Some? && e.value.actionKnown == ActionNamed(call.name).Some?
      && e.value.actionKey == (if e.value.actionKnown then Some(call.name) else None)
      && Outcome(e.value.decision, e.value.status, e.value.reason, e.value.missing) == ActionPolicy(rt, p, call)
  {
  }

  /** A closing proposal is only ever judged: it completes the run with policy's reason, or raises when cancelled. */
  lemma TerminalEndsExactly(rt: Runtime, p: Proposal, s: Surroundings)
    ensures Gate.EvaluateTerminal(rt, p, s).Raised? <==> s.cancelled
    ensures Gate.EvaluateTerminal(rt, p, s).Replied? ==>
      var x := Gate.EvaluateTerminal(rt, p, s).execution;
      && x.disposition.Completed? && x.evidence.Some?
      && var e := x.evidence.value;
      && BecauseTerminal(rt, p, e.reason) && Follows(rt, p, Outcome(e.decision, e.status, e.reason, e.missing))
      && e.actionKey.None? && !e.actionKnown && e.toolOutcome.None? && !e.sideEffect
      && x.finalResponse
         == Some(if e.reason == SafetyOrLegalRisk then "review_required" else ReasonText(e.reason))
  {
    TerminalReasonsExactly(rt, p, TerminalPolicy(rt, p).reason);
  }
}
