/** Where every committed effect comes from: a handler the gate allowed, or an operator's approval
    (app/tools/executor.py, app/tools/postgres.py). */
module DirectEffects {
  import opened Values
  import opened Profiles
  import opened Proposals
  import opened Commands
  import opened Durable
  import opened Machine
  import opened Invariants
  import opened Fencing
  import opened Reachability
  import AgentLoop
  import Decisions
  import Gate
  import GateEnds
  import Policy
  import Provenance
  import RunProperties
  import Transcript

  /** One handler run of a gated run: the proposal and call behind it, its arguments and the fields it was given. */
  datatype Handling = Handling(proposal: Proposal, call: ToolCall, args: Args, fields: map<string, Value>)

  function HandledNow(model: AgentLoop.Model, rt: Runtime, world: RunProperties.World, st: AgentLoop.LoopState)
    : seq<Handling>
  {
    var c := RunProperties.Consulted(model, rt, world, st);
    if c.Some? && c.value.use.RanHandler? then
      var p := model(st.messages).value;
      [Handling(p, p.toolCall.value, c.value.use.args, c.value.use.fields)]
    else []
  }

  /** All handler runs, in order. */
  function Handlings(model: AgentLoop.Model, rt: Runtime, world: RunProperties.World, limit: nat,
                     st: AgentLoop.LoopState): seq<Handling>
    decreases limit - st.steps
  {
    if st.steps >= limit then []
    else HandledNow(model, rt, world, st) + match AgentLoop.Advance(model, RunProperties.GateTools(rt, world), st)
      case Stop(_) => []
      case Next(next) => Handlings(model, rt, world, limit, next)
  }

  function HandlingsOf(g: Provenance.GatedRun): seq<Handling> {
    Handlings(g.model, g.rt, g.world, AgentLoop.Limit(g.maxSteps), AgentLoop.Start(g.initial))
  }

  /** Policy allows the action outright, the call says these arguments, and the fields are those the server accepted. */
  predicate Allowed(rt: Runtime, h: Handling) {
    && Gate.Because(rt, h.proposal, h.call.name, Policy.ActionAllowed)
    && Says(rt.rules, h.call.name, h.call.arguments, h.args)
    && h.fields == Accepted(rt, h.proposal).values
  }

  lemma HandledIsAllowed(
      model: AgentLoop.Model, rt: Runtime, world: RunProperties.World, st: AgentLoop.LoopState, h: Handling)
    requires h in HandledNow(model, rt, world, st)
    ensures Allowed(rt, h)
  {
    GateEnds.HandlerRunsExactly(rt, h.proposal, h.call, world(st.messages + [Transcript.AssistantTurn(h.proposal)]));
  }

  lemma {:induction false} HandlingsAreAllowed(
      model: AgentLoop.Model, rt: Runtime, world: RunProperties.World, limit: nat, st: AgentLoop.LoopState, h: Handling)
    requires h in Handlings(model, rt, world, limit, st)
    ensures Allowed(rt, h)
    decreases limit - st.steps
  {
    if h in HandledNow(model, rt, world, st) {
      HandledIsAllowed(model, rt, world, st, h);
    } else {
      HandlingsAreAllowed(
        model, rt, world, limit, AgentLoop.Advance(model, RunProperties.GateTools(rt, world), st).state, h);
    }
  }

  // ---------------------------------------------------------------- what a handler asks the port to commit

  /** The contact a draft is addressed to: an accepted text, and only where the profile declares an e-mail field. */
  function Recipient(rt: Runtime, fields: map<string, Value>): Option<string> {
    if "contact" in rt.profile.fields && rt.profile.fields["contact"].kind == Email then TextOf(fields, "contact")
    else None
  }

  /** The transaction is the one this handler run asks for; a draft's body may go on after the rationale. */
  predicate Carries(rt: Runtime, h: Handling, tx: ToolTx) {
    match tx
    case CreateCaseTx(_, _, fields) => h.args.CreateCaseArgs? && rt.source.Some? && fields == h.fields
    case UpdateCaseTx(id, changes) => h.args == UpdateCaseArgs(id) && changes == h.fields
    case ArtifactTx(ReplyDraft, _, payload) =>
      && h.args.ReplyDraftArgs? && payload.Draft?
      && payload.recipient == Recipient(rt, h.fields)
      && payload.subject == (if rt.source.Some? then rt.source.value.subject else "Intake reply draft")
      && h.proposal.rationale <= payload.body
    case ArtifactTx(ReviewFlag, _, payload) =>
      h.args.ReviewArgs? && payload == Flag(Or(OrEmpty(h.args.note), h.proposal.rationale))
  }

  /** Every tool transaction is one that a handler of its attempt's run asks for. */
  ghost predicate Handled(history: seq<Step>, runs: Provenance.Runs) {
    forall i | 0 <= i < |history| :: history[i].At? ==> HandledEvent(history[i].job, history[i].event, runs)
  }

  ghost predicate HandledEvent(j: Id, e: Event, runs: Provenance.Runs) {
    e.Tool? ==> exists h <- HandlingsOf(runs(j, e.k)) :: Carries(runs(j, e.k).rt, h, e.tx)
  }

  /** What a committed transaction leaves in the tables; tables it does not name stay as they are. */
  ghost predicate Written(j: Id, tx: ToolTx, before: Store, after: Store) {
    match tx
    case CreateCaseTx(id, known, fields) =>
      && known && before.rows.caseId.None? && id !in before.cases && after.rows.caseId == Some(id)
      && after.cases == before.cases[id := Case(before.rows.job.tenant, Some(j), fields, [WasCreated])]
      && after.rows.artifacts == before.rows.artifacts
      && after.rows.effects == before.rows.effects + [CaseCreated(id)]
    case UpdateCaseTx(id, changes) =>
      && id in before.cases && before.cases[id].tenant == before.rows.job.tenant
      && after.cases == before.cases[id
           := before.cases[id].(fields := before.cases[id].fields + changes,
                                events := before.cases[id].events + [WereUpdated(changes.Keys)])]
      && after.rows.caseId == before.rows.caseId && after.rows.artifacts == before.rows.artifacts
      && after.rows.effects == before.rows.effects + [FieldsUpdated(id)]
    case ArtifactTx(kind, id, payload) =>
      && after.cases == before.cases && after.rows.caseId == before.rows.caseId
      && (if kind in before.rows.artifacts then
            after.rows.artifacts == before.rows.artifacts && after.rows.effects == before.rows.effects
          else
            && after.rows.artifacts == before.rows.artifacts[kind := Artifact(id, payload)]
            && after.rows.effects == before.rows.effects + [ArtifactCreated(kind, id)])
  }

  /** A transaction that can be written at all: its case is there, or may be made. */
  predicate Writable(s: Store, tx: ToolTx) {
    match tx
    case CreateCaseTx(id, known, _) => s.rows.caseId.None? && known && id !in s.cases
    case UpdateCaseTx(id, _) => id in s.cases && s.cases[id].tenant == s.rows.job.tenant
    case ArtifactTx(_, _, _) => true
  }

  /** A tool transaction commits exactly when it is writable and its attempt holds the job; then it writes what it says
      and marks the job. */
  lemma ToolWrites(s: Store, j: Id, tenant: Id, k: nat, tx: ToolTx, now: Time)
    ensures var after := RunTool(s, j, tenant, k, tx, now);
      && (after.Some? <==> Writable(s, tx) && Owned(s.rows.job, tenant, k))
      && (after.Some? ==>
            && Written(j, tx, s, after.value) && after.value.rows.approval == s.rows.approval
            && after.value.rows.job == s.rows.job.(marker := Some(now)))
  {
  }

  /** A tool step takes effect exactly when its attempt built a runtime, holds the job, and its case is there or may be
      made; then it writes what it says, marks the job, and changes nothing else. */
  lemma ToolStepsExactly(cfg: Config, w: World, j: Id, k: nat, tx: ToolTx, now: Time)
    requires j in w.jobs
    ensures var before, world := w.jobs[j], Apply(cfg, w, At(j, Tool(k, tx, now)));
      && j in world.jobs
      && var after := world.jobs[j];
      if && k in before.attempts && before.attempts[k].thread != Building && before.attempts[k].thread != NoRuntime
         && before.rows.job.status == Running && before.rows.job.attempt == k
         && Writable(Store(before.rows, w.cases), tx) then
        && after.attempts == before.attempts
        && Written(j, tx, Store(before.rows, w.cases), Store(after.rows, world.cases))
        && after.rows.job == before.rows.job.(marker := Some(now)) && after.rows.approval == before.rows.approval
      else after == before && world.cases == w.cases
  {
    var s := w.jobs[j];
    ToolWrites(Store(s.rows, w.cases), j, s.rows.job.tenant, k, tx, now);
  }

  lemma HandledToolWasAllowed(j: Id, e: Event, runs: Provenance.Runs)
    ensures e.Tool? && HandledEvent(j, e, runs) ==>
      exists h <- HandlingsOf(runs(j, e.k)) :: Carries(runs(j, e.k).rt, h, e.tx) && Allowed(runs(j, e.k).rt, h)
  {
    if e.Tool? && HandledEvent(j, e, runs) {
      var g := runs(j, e.k);
      var h :| h in HandlingsOf(g) && Carries(g.rt, h, e.tx);
      HandlingsAreAllowed(g.model, g.rt, g.world, AgentLoop.Limit(g.maxSteps), AgentLoop.Start(g.initial), h);
    }
  }

  /** What a handler run leaves in the tables, from its call and the fields it was given: a case with these fields,
      these fields merged into the named case, a draft to the accepted e-mail contact about the request, or a flag with
      the call's note. A draft or flag the job has already stays. */
  ghost predicate Wrote(rt: Runtime, h: Handling, j: Id, before: Store, after: Store) {
    match h.args
    case FindCustomerArgs(_, _) => false
    case CreateCaseArgs(_) =>
      && rt.source.Some? && before.rows.caseId.None? && after.rows.caseId.Some?
      && after.rows.caseId.value !in before.cases
      && after.cases == before.cases[after.rows.caseId.value
           := Case(before.rows.job.tenant, Some(j), h.fields, [WasCreated])]
      && after.rows.artifacts == before.rows.artifacts
    case UpdateCaseArgs(id) =>
      && id in before.cases && before.cases[id].tenant == before.rows.job.tenant
      && after.cases == before.cases[id
           := before.cases[id].(fields := before.cases[id].fields + h.fields,
                                events := before.cases[id].events + [WereUpdated(h.fields.Keys)])]
      && after.rows.caseId == before.rows.caseId && after.rows.artifacts == before.rows.artifacts
    case ReplyDraftArgs(_) =>
      && OnlyArtifact(ReplyDraft, before, after)
      && (ReplyDraft !in before.rows.artifacts ==>
            var d := after.rows.artifacts[ReplyDraft].payload;
            && d.Draft? && h.proposal.rationale <= d.body
            && d.subject == (if rt.source.Some? then rt.source.value.subject else "Intake reply draft")
            && (forall to :: d.recipient == Some(to)
                  <==> && "contact" in rt.profile.fields && rt.profile.fields["contact"].kind == Email
                       && "contact" in h.fields && h.fields["contact"] == One(Str(to))))
    case ReviewArgs(note) =>
      && OnlyArtifact(ReviewFlag, before, after)
      && (ReviewFlag !in before.rows.artifacts ==>
            after.rows.artifacts[ReviewFlag].payload
            == Flag(if note.Some? && note.value != "" then note.value else h.proposal.rationale))
  }

  ghost predicate OnlyArtifact(kind: ArtifactKind, before: Store, after: Store) {
    && after.cases == before.cases && after.rows.caseId == before.rows.caseId && kind in after.rows.artifacts
    && after.rows.artifacts
       == if kind in before.rows.artifacts then before.rows.artifacts
          else before.rows.artifacts[kind := after.rows.artifacts[kind]]
  }

  lemma CarriedIsWrote(rt: Runtime, h: Handling, j: Id, tx: ToolTx, before: Store, after: Store)
    requires Carries(rt, h, tx) && Written(j, tx, before, after)
    ensures Wrote(rt, h, j, before, after)
  {
  }

  /** A tool step that changes any row wrote what an allowed handler run of its own attempt asked for. */
  lemma CommittedToolsWereAllowed(cfg: Config, j: Id, s: Slot, cases: Cases, e: Event, runs: Provenance.Runs)
    requires e.Tool? && HandledEvent(j, e, runs) && Happen(cfg, j, s, cases, e) != (s, cases)
    ensures var (after, afterCases) := Happen(cfg, j, s, cases, e);
      && Owned(s.rows.job, s.rows.job.tenant, e.k)
      && after.rows.job == s.rows.job.(marker := Some(e.now)) && after.rows.approval == s.rows.approval
      && exists h <- HandlingsOf(runs(j, e.k)) ::
           Allowed(runs(j, e.k).rt, h)
           && Wrote(runs(j, e.k).rt, h, j, Store(s.rows, cases), Store(after.rows, afterCases))
  {
    HandledToolWasAllowed(j, e, runs);
    ToolWrites(Store(s.rows, cases), j, s.rows.job.tenant, e.k, e.tx, e.now);
    var (after, afterCases) := Happen(cfg, j, s, cases, e);
    var rt := runs(j, e.k).rt;
    var h :| h in HandlingsOf(runs(j, e.k)) && Carries(rt, h, e.tx) && Allowed(rt, h);
    CarriedIsWrote(rt, h, j, e.tx, Store(s.rows, cases), Store(after.rows, afterCases));
  }

  // ---------------------------------------------------------------- every effect of every history

  predicate Makes(tx: ToolTx, effect: Effect) {
    match tx
    case CreateCaseTx(id, _, _) => effect == CaseCreated(id)
    case UpdateCaseTx(id, _) => effect == FieldsUpdated(id)
    case ArtifactTx(kind, id, _) => effect == ArtifactCreated(kind, id)
  }

  /** The step that committed the effect: a tool transaction of an allowed handler, or an approval. */
  ghost predicate Accounts(step: Step, j: Id, runs: Provenance.Runs, effect: Effect) {
    && step.At? && step.job == j
    && var e := step.event;
       || (e.Verdict? && e.approve)
       || (e.Tool? && Makes(e.tx, effect)
           && exists h <- HandlingsOf(runs(j, e.k)) :: Carries(runs(j, e.k).rt, h, e.tx) && Allowed(runs(j, e.k).rt, h))
  }

  lemma ToolEffects(s: Store, j: Id, tenant: Id, k: nat, tx: ToolTx, now: Time, effect: Effect)
    requires RunTool(s, j, tenant, k, tx, now).Some? && effect in RunTool(s, j, tenant, k, tx, now).value.rows.effects
    ensures effect in s.rows.effects || Makes(tx, effect)
  {
  }

  lemma WorkersKeepEffects(cfg: Config, s: Slot, e: Event)
    ensures SlotEvent(cfg, s, e).rows.effects == s.rows.effects
  {
    if e.Commit? && e.k in s.attempts && s.attempts[e.k].control.Resolved? {
      var after := CommitRows(s.rows, s.rows.job.tenant, e.k, s.attempts[e.k].control.intent, e.now, e.availableAt);
      assert after.Some? ==> after.value.effects == s.rows.effects;
    }
  }

  lemma RefusalsKeepEffects(cfg: Config, j: Id, s: Slot, cases: Cases, e: Event)
    requires e.Verdict? && !e.approve
    ensures Happen(cfg, j, s, cases, e).0.rows.effects == s.rows.effects
  {
    if s.rows.approval.Some? && s.rows.approval.value.status == Pending {
      Decisions.LateOrRejectedExecutesNothing(cfg, j, s, cases, e);
    } else {
      NothingPending(cfg.rules, Store(s.rows, cases), j, e.tenant, e.actor, e.approve, e.now, e.lookups);
    }
  }

  lemma ToolAccounts(cfg: Config, j: Id, s: Slot, cases: Cases, e: Event, runs: Provenance.Runs, effect: Effect)
    requires e.Tool?
    ensures HandledEvent(j, e, runs) && effect in Happen(cfg, j, s, cases, e).0.rows.effects ==>
      effect in s.rows.effects || Accounts(At(j, e), j, runs, effect)
  {
    HandledToolWasAllowed(j, e, runs);
    if RunTool(Store(s.rows, cases), j, s.rows.job.tenant, e.k, e.tx, e.now).Some?
       && effect in RunTool(Store(s.rows, cases), j, s.rows.job.tenant, e.k, e.tx, e.now).value.rows.effects {
      ToolEffects(Store(s.rows, cases), j, s.rows.job.tenant, e.k, e.tx, e.now, effect);
    }
  }

  lemma EventAccounts(cfg: Config, j: Id, s: Slot, cases: Cases, e: Event, runs: Provenance.Runs, effect: Effect)
    ensures HandledEvent(j, e, runs) && effect in Happen(cfg, j, s, cases, e).0.rows.effects ==>
      effect in s.rows.effects || Accounts(At(j, e), j, runs, effect)
  {
    if e.Tool? {
      ToolAccounts(cfg, j, s, cases, e, runs, effect);
    } else if e.Verdict? {
      if !e.approve {
        RefusalsKeepEffects(cfg, j, s, cases, e);
      }
    } else {
      WorkersKeepEffects(cfg, s, e);
    }
  }

  lemma StepAccounts(cfg: Config, w: World, step: Step, j: Id, runs: Provenance.Runs, effect: Effect)
    requires j in w.jobs && effect in StepOn(cfg, w, step, j).rows.effects
    requires step.At? ==> HandledEvent(step.job, step.event, runs)
    ensures effect in w.jobs[j].rows.effects || Accounts(step, j, runs, effect)
  {
    if step.At? && step.job == j {
      EventAccounts(cfg, j, w.jobs[j], w.cases, step.event, runs, effect);
    }
  }

  /** Over every history whose tool transactions are handler runs of gated runs: every effect a job shows was committed
      by an operator's approval or by a handler run that policy allowed, on the fields the server accepted. */
  lemma {:induction false} EffectsAreAccounted(
      cfg: Config, w: World, history: seq<Step>, runs: Provenance.Runs, j: Id, effect: Effect)
    requires Fresh(w) && Handled(history, runs) && j in Run(cfg, w, history).jobs
    requires effect in Run(cfg, w, history).jobs[j].rows.effects
    ensures exists i | 0 <= i < |history| :: Accounts(history[i], j, runs, effect)
  {
    var n := |history| - 1;
    var before := Run(cfg, w, history[..n]);
    if j in before.jobs {
      StepAccounts(cfg, before, history[n], j, runs, effect);
      if effect in before.jobs[j].rows.effects {
        assert Handled(history[..n], runs);
        EffectsAreAccounted(cfg, w, history[..n], runs, j, effect);
        var i :| 0 <= i < n && Accounts(history[..n][i], j, runs, effect);
        assert Accounts(history[i], j, runs, effect);
      }
    }
  }
}
