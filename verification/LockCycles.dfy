/** Two histories of lock steps that end in a wait cycle: the property that no waits ever close is false of the
    code, and `LockOrder.WaitCyclesNeedStrandedTools` says what every such history contains. */
module LockCycles {
  import opened Values
  import Durable
  import opened LockOrder

  lemma Extended(s: State, steps: seq<Step>, step: Step)
    requires Enabled(Run(s, steps), step)
    ensures Run(s, steps + [step]) == Apply(Run(s, steps), step)
  {
    assert (steps + [step])[..|steps|] == steps;
  }

  const J: Id := 0

  /** One running job, no transaction. */
  const BEFORE := State({J}, {}, map[])

  /** The tool and the parking transaction of the job start: each holds its first lock. */
  function Started(e: Target): seq<Step> {
    [] + [Begin(1, JobFirst(J))] + [Ask(1, JobRow(J))] + [Grant(1)]
    + [Begin(2, Tool(J, e))] + [Ask(2, Effect(e))] + [Grant(2)]
  }

  function StartedState(e: Target): State {
    State({J}, {}, map[1 := Tx(JobFirst(J), {JobRow(J)}, None), 2 := Tx(Tool(J, e), {Effect(e)}, None)])
  }

  lemma JobStarts()
    ensures Run(BEFORE, [] + [Begin(1, JobFirst(J))] + [Ask(1, JobRow(J))] + [Grant(1)])
      == State({J}, {}, map[1 := Tx(JobFirst(J), {JobRow(J)}, None)])
  {
    var h: seq<Step> := [];
    Extended(BEFORE, h, Begin(1, JobFirst(J)));
    Extended(BEFORE, h + [Begin(1, JobFirst(J))], Ask(1, JobRow(J)));
    Extended(BEFORE, h + [Begin(1, JobFirst(J))] + [Ask(1, JobRow(J))], Grant(1));
    assert {} + {JobRow(J)} == {JobRow(J)};
  }

  lemma Starts(e: Target)
    requires Own(J, e)
    ensures Run(BEFORE, Started(e)) == StartedState(e)
  {
    JobStarts();
    var h: seq<Step> := [] + [Begin(1, JobFirst(J))] + [Ask(1, JobRow(J))] + [Grant(1)];
    Extended(BEFORE, h, Begin(2, Tool(J, e)));
    Extended(BEFORE, h + [Begin(2, Tool(J, e))], Ask(2, Effect(e)));
    Extended(BEFORE, h + [Begin(2, Tool(J, e))] + [Ask(2, Effect(e))], Grant(2));
    assert {} + {Effect(e)} == {Effect(e)};
  }

  /** Then the job is parked and published, while the tool may or may not be queued on it. */
  lemma Parks(s: State, h: seq<Step>, e: Target, wants: Option<Lock>)
    requires Run(s, h)
      == State({J}, {}, map[1 := Tx(JobFirst(J), {JobRow(J)}, None), 2 := Tx(Tool(J, e), {Effect(e)}, wants)])
    ensures Run(s, h + [Ask(1, ApprovalRow(J))] + [Grant(1)] + [Commit(1, {}, {J})])
      == State({}, {J}, map[2 := Tx(Tool(J, e), {Effect(e)}, wants)])
  {
    Extended(s, h, Ask(1, ApprovalRow(J)));
    var h1 := h + [Ask(1, ApprovalRow(J))];
    Extended(s, h1, Grant(1));
    var h2 := h1 + [Grant(1)];
    Extended(s, h2, Commit(1, {}, {J}));
  }

  function Deciding(tool: Tx, holds: set<Lock>): State {
    State({}, {J}, map[2 := tool, 3 := Tx(Decide(J), holds, None)])
  }

  lemma Asks(s: State, h: seq<Step>, tool: Tx, holds: set<Lock>, l: Lock)
    requires Run(s, h) == Deciding(tool, holds) && l !in holds
    requires MayAsk(Deciding(tool, holds), Tx(Decide(J), holds, None), l)
    ensures Run(s, h + [Ask(3, l)]) == State({}, {J}, map[2 := tool, 3 := Tx(Decide(J), holds, Some(l))])
  {
    Extended(s, h, Ask(3, l));
  }

  lemma Gets(s: State, h: seq<Step>, tool: Tx, holds: set<Lock>, l: Lock)
    requires Run(s, h) == State({}, {J}, map[2 := tool, 3 := Tx(Decide(J), holds, Some(l))])
    requires l !in holds && l !in tool.holds
    ensures Run(s, h + [Grant(3)]) == Deciding(tool, holds + {l})
  {
    Extended(s, h, Grant(3));
  }

  /** A decision takes the published approval and the job. */
  lemma Decides(s: State, h: seq<Step>, tool: Tx)
    requires Run(s, h) == State({}, {J}, map[2 := tool]) && JobRow(J) !in tool.holds && ApprovalRow(J) !in tool.holds
    ensures Run(s, h + [Begin(3, Decide(J))] + [Ask(3, ApprovalRow(J))] + [Grant(3)] + [Ask(3, JobRow(J))] + [Grant(3)])
      == Deciding(tool, {ApprovalRow(J), JobRow(J)})
  {
    Extended(s, h, Begin(3, Decide(J)));
    var h1 := h + [Begin(3, Decide(J))];
    assert Run(s, h1) == Deciding(tool, {});
    Asks(s, h1, tool, {}, ApprovalRow(J));
    var h2 := h1 + [Ask(3, ApprovalRow(J))];
    Gets(s, h2, tool, {}, ApprovalRow(J));
    assert {} + {ApprovalRow(J)} == {ApprovalRow(J)};
    var h3 := h2 + [Grant(3)];
    Asks(s, h3, tool, {ApprovalRow(J)}, JobRow(J));
    Gets(s, h3 + [Ask(3, JobRow(J))], tool, {ApprovalRow(J)}, JobRow(J));
    assert {ApprovalRow(J)} + {JobRow(J)} == {ApprovalRow(J), JobRow(J)};
  }

  /** The fence of a create_case tool queues on the running job; parking overtakes it, and a decision that executes
      create_case takes the job and asks for the record the tool holds. */
  function Overtaken(): seq<Step> {
    Started(Idempotency(J)) + [Ask(2, JobRow(J))]
    + [Ask(1, ApprovalRow(J))] + [Grant(1)] + [Commit(1, {}, {J})]
    + [Begin(3, Decide(J))] + [Ask(3, ApprovalRow(J))] + [Grant(3)] + [Ask(3, JobRow(J))] + [Grant(3)]
    + [Ask(3, Effect(Idempotency(J)))]
  }

  lemma OvertakenFencesDeadlock()
    ensures Cycle(Run(BEFORE, Overtaken()), [2, 3, 2])
  {
    var e := Idempotency(J);
    Starts(e);
    Extended(BEFORE, Started(e), Ask(2, JobRow(J)));
    var h1 := Started(e) + [Ask(2, JobRow(J))];
    Parks(BEFORE, h1, e, Some(JobRow(J)));
    var h2 := h1 + [Ask(1, ApprovalRow(J))] + [Grant(1)] + [Commit(1, {}, {J})];
    Decides(BEFORE, h2, Tx(Tool(J, e), {Effect(e)}, Some(JobRow(J))));
    var h3 := h2 + [Begin(3, Decide(J))] + [Ask(3, ApprovalRow(J))] + [Grant(3)] + [Ask(3, JobRow(J))] + [Grant(3)];
    Extended(BEFORE, h3, Ask(3, Effect(e)));
    var end := Run(BEFORE, Overtaken());
    assert WaitsFor(end, 2, 3) && WaitsFor(end, 3, 2);
  }

  /** A tool of a stale thread inserts an artifact of the parked job; the reference to the job row waits behind the
      decision, which wants the same artifact key. No fence is involved. */
  function LateArtifact(): seq<Step> {
    Started(Artifact(J, Durable.ReviewFlag))
    + [Ask(1, ApprovalRow(J))] + [Grant(1)] + [Commit(1, {}, {J})]
    + [Begin(3, Decide(J))] + [Ask(3, ApprovalRow(J))] + [Grant(3)] + [Ask(3, JobRow(J))] + [Grant(3)]
    + [Ask(2, JobRow(J))] + [Ask(3, Effect(Artifact(J, Durable.ReviewFlag)))]
  }

  lemma LateArtifactsDeadlock()
    ensures Cycle(Run(BEFORE, LateArtifact()), [2, 3, 2])
  {
    var e := Artifact(J, Durable.ReviewFlag);
    Starts(e);
    Parks(BEFORE, Started(e), e, None);
    var h2 := Started(e) + [Ask(1, ApprovalRow(J))] + [Grant(1)] + [Commit(1, {}, {J})];
    Decides(BEFORE, h2, Tx(Tool(J, e), {Effect(e)}, None));
    var h3 := h2 + [Begin(3, Decide(J))] + [Ask(3, ApprovalRow(J))] + [Grant(3)] + [Ask(3, JobRow(J))] + [Grant(3)];
    Extended(BEFORE, h3, Ask(2, JobRow(J)));
    var h4 := h3 + [Ask(2, JobRow(J))];
    Extended(BEFORE, h4, Ask(3, Effect(e)));
    var end := Run(BEFORE, LateArtifact());
    assert WaitsFor(end, 2, 3) && WaitsFor(end, 3, 2);
  }
}
