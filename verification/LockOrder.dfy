/** Row locks as explicit steps: who locks what in which order, and why no wait cycle can form
    (app/domain/approval_repository.py, app/domain/job_repository.py, app/tools/postgres.py). */
module LockOrder {
  import opened Values
  import Durable
  import Machine
  import Invariants
  import Reachability
  import Decisions

  /** What a transaction locks to write its effect: the job's idempotency record, a case row, or the unique key of
      one of the job's artifacts. */
  datatype Target = Idempotency(job: Id) | CaseRow(id: Id) | Artifact(job: Id, kind: Durable.ArtifactKind)

  datatype Lock = JobRow(job: Id) | ApprovalRow(of: Id) | Effect(target: Target)

  /** The transactions by the order in which they lock. */
  datatype Kind =
    | JobFirst(job: Id)              // create_for_running_job, record_awaiting_approval_result, _mark_terminal
    | JobOnly(job: Id)               // claim_next, renew_lease, schedule_retry
    | RecoverMany                    // recover_expired_leases: unlocked jobs, then their staged approvals
    | Decide(job: Id)                // decide: published approval, job, then what its command writes
    | ExpireMany                     // expire_due: unlocked published approvals, then their jobs
    | Tool(job: Id, target: Target)  // a tool transaction: its effect, then its job's row
    | EnqueueOne(job: Id)            // a repeated request: the idempotency record

  datatype Tx = Tx(kind: Kind, holds: set<Lock>, wants: Option<Lock>)

  /** Committed facts: which jobs are running, which approvals are published. */
  datatype State = State(running: set<Id>, published: set<Id>, txs: map<nat, Tx>)

  predicate Held(s: State, l: Lock) { exists t <- s.txs :: l in s.txs[t].holds }

  /** Records and artifact keys belong to their job; case rows belong to the tenant. */
  predicate Own(j: Id, e: Target) { e.CaseRow? || e.job == j }

  /** A decision's command locks the record, then a case row (also through the approval's reference to it), then
      an artifact key. */
  function Order(e: Target): nat {
    match e
    case Idempotency(_) => 0
    case CaseRow(_) => 1
    case Artifact(_, _) => 2
  }

  predicate After(holds: set<Lock>, e: Target) {
    forall l <- holds :: l.Effect? ==> Order(l.target) < Order(e)
  }

  /** Blocking requests, in each kind's order. The fence of a tool asks for a running job; inserting an artifact
      also locks the job row it refers to, whatever its status. */
  predicate MayAsk(s: State, tx: Tx, l: Lock) {
    match tx.kind
    case JobFirst(j) =>
      || (tx.holds == {} && l == JobRow(j))
      || (tx.holds == {JobRow(j)} && l == ApprovalRow(j) && j in s.running)
    case JobOnly(j) => tx.holds == {} && l == JobRow(j)
    case RecoverMany => l.ApprovalRow? && JobRow(l.of) in tx.holds && l.of in s.running
    case Decide(j) =>
      || (tx.holds == {} && l == ApprovalRow(j) && j in s.published)
      || (tx.holds == {ApprovalRow(j)} && l == JobRow(j))
      || ({ApprovalRow(j), JobRow(j)} <= tx.holds && l.Effect? && Own(j, l.target) && After(tx.holds, l.target))
    case ExpireMany => l.JobRow? && ApprovalRow(l.job) in tx.holds
    case Tool(j, e) =>
      || (tx.holds == {} && l == Effect(e) && Own(j, e))
      || (tx.holds == {Effect(e)} && l == JobRow(j) && (e.Artifact? || j in s.running))
    case EnqueueOne(j) => tx.holds == {} && l == Effect(Idempotency(j))
  }

  /** Requests that skip locked rows. */
  predicate MayTake(s: State, tx: Tx, l: Lock) {
    match tx.kind
    case RecoverMany => l.JobRow? && l.job in s.running
    case ExpireMany => l.ApprovalRow? && l.of in s.published
    case _ => false
  }

  /** When its lock is free at last, a fence finds its row only if the committed job is still running. */
  predicate Matches(s: State, tx: Tx, l: Lock) {
    tx.kind.Tool? && !tx.kind.target.Artifact? && l.JobRow? ==> l.job in s.running
  }

  datatype Step =
    | Begin(tx: nat, kind: Kind)
    | Ask(tx: nat, lock: Lock)
    | Take(tx: nat, lock: Lock)
    | Grant(tx: nat)
    | Commit(tx: nat, running: set<Id>, published: set<Id>)
    | Abort(tx: nat)

  /** A commit changes only jobs it has locked, never unpublishes, and keeps running and published apart. */
  ghost predicate MayCommit(s: State, tx: Tx, running: set<Id>, published: set<Id>) {
    && tx.wants.None?
    && (forall j: Id ::
          JobRow(j) !in tx.holds ==> (j in running <==> j in s.running) && (j in published <==> j in s.published))
    && s.published <= published && running !! published
  }

  ghost predicate Enabled(s: State, step: Step) {
    match step
    case Begin(t, _) => t !in s.txs
    case Ask(t, l) => t in s.txs && s.txs[t].wants.None? && l !in s.txs[t].holds && MayAsk(s, s.txs[t], l)
    case Take(t, l) => t in s.txs && s.txs[t].wants.None? && MayTake(s, s.txs[t], l) && !Held(s, l)
    case Grant(t) =>
      t in s.txs && s.txs[t].wants.Some? && !Held(s, s.txs[t].wants.value) && Matches(s, s.txs[t], s.txs[t].wants.value)
    case Commit(t, running, published) => t in s.txs && MayCommit(s, s.txs[t], running, published)
    case Abort(t) => t in s.txs
  }

  function Apply(s: State, step: Step): State
    requires step.Begin? || step.tx in s.txs
    requires step.Grant? ==> s.txs[step.tx].wants.Some?
  {
    match step
    case Begin(t, kind) => s.(txs := s.txs[t := Tx(kind, {}, None)])
    case Ask(t, l) => s.(txs := s.txs[t := s.txs[t].(wants := Some(l))])
    case Take(t, l) => s.(txs := s.txs[t := s.txs[t].(holds := s.txs[t].holds + {l})])
    case Grant(t) =>
      var tx := s.txs[t];
      s.(txs := s.txs[t := tx.(holds := tx.holds + {tx.wants.value}, wants := None)])
    case Commit(t, running, published) => State(running, published, s.txs - {t})
    case Abort(t) => s.(txs := s.txs - {t})
  }

  ghost function Run(s: State, steps: seq<Step>): State {
    if steps == [] then s
    else
      var before := Run(s, steps[..|steps| - 1]);
      if Enabled(before, steps[|steps| - 1]) then Apply(before, steps[|steps| - 1]) else before
  }

  // ---------------------------------------------------------------- what each transaction holds

  function Reach(tx: Tx): set<Lock> { if tx.wants.Some? then tx.holds + {tx.wants.value} else tx.holds }

  ghost predicate Shape(s: State, tx: Tx) {
    match tx.kind
    case JobFirst(j) =>
      && Reach(tx) <= {JobRow(j), ApprovalRow(j)}
      && (ApprovalRow(j) in Reach(tx) ==> JobRow(j) in tx.holds && j in s.running)
    case JobOnly(j) => Reach(tx) <= {JobRow(j)}
    case RecoverMany =>
      && (forall l <- Reach(tx) :: !l.Effect?)
      && (forall j: Id :: ApprovalRow(j) in Reach(tx) ==> JobRow(j) in tx.holds && j in s.running)
      && (tx.wants.Some? ==> tx.wants.value.ApprovalRow?)
    case Decide(j) =>
      && (forall l <- Reach(tx) :: l == ApprovalRow(j) || l == JobRow(j) || (l.Effect? && Own(j, l.target)))
      && (ApprovalRow(j) in Reach(tx) ==> j in s.published)
      && (tx.wants.Some? && tx.wants.value.ApprovalRow? ==> tx.holds == {})
      && (JobRow(j) in Reach(tx) ==> ApprovalRow(j) in tx.holds)
      && (tx.wants.Some? && tx.wants.value.Effect? ==>
            {ApprovalRow(j), JobRow(j)} <= tx.holds && After(tx.holds, tx.wants.value.target))
      && ((exists l <- tx.holds :: l.Effect?) ==> {ApprovalRow(j), JobRow(j)} <= tx.holds)
    case ExpireMany =>
      && (forall l <- Reach(tx) :: !l.Effect?)
      && (forall j: Id :: ApprovalRow(j) in tx.holds ==> j in s.published)
      && (forall j: Id :: JobRow(j) in Reach(tx) ==> ApprovalRow(j) in tx.holds)
      && (tx.wants.Some? ==> tx.wants.value.JobRow?)
    case Tool(j, e) =>
      && Reach(tx) <= {Effect(e), JobRow(j)}
      && (tx.wants == Some(Effect(e)) ==> tx.holds == {})
      && (Effect(e) in Reach(tx) ==> Own(j, e))
      && (JobRow(j) in tx.holds ==> tx.wants.None?)
    case EnqueueOne(j) => Reach(tx) <= {Effect(Idempotency(j))}
  }

  ghost predicate Exclusive(s: State) {
    forall t <- s.txs, u <- s.txs, l: Lock :: l in s.txs[t].holds && l in s.txs[u].holds ==> t == u
  }

  ghost predicate TxOk(s: State, tx: Tx) { Shape(s, tx) && (tx.wants.Some? ==> tx.wants.value !in tx.holds) }

  ghost predicate Ok(s: State) {
    s.running !! s.published && (forall t <- s.txs :: TxOk(s, s.txs[t])) && Exclusive(s)
  }

  lemma AskKeeps(s: State, tx: Tx, l: Lock)
    requires TxOk(s, tx) && tx.wants.None? && MayAsk(s, tx, l) && l !in tx.holds
    ensures TxOk(s, tx.(wants := Some(l)))
  {
  }

  lemma TakeKeeps(s: State, tx: Tx, l: Lock)
    requires TxOk(s, tx) && tx.wants.None? && MayTake(s, tx, l)
    ensures TxOk(s, tx.(holds := tx.holds + {l}))
  {
  }

  lemma GrantKeeps(s: State, tx: Tx)
    requires TxOk(s, tx) && tx.wants.Some?
    ensures TxOk(s, tx.(holds := tx.holds + {tx.wants.value}, wants := None))
  {
    assert Reach(tx.(holds := tx.holds + {tx.wants.value}, wants := None)) == Reach(tx);
  }

  /** A transaction's shape survives the commit of another one: only unlocked jobs stop running. */
  lemma CommitKeeps(s: State, tx: Tx, running: set<Id>, published: set<Id>, txs: map<nat, Tx>)
    requires TxOk(s, tx) && s.published <= published
    requires forall j: Id :: JobRow(j) in tx.holds && j in s.running ==> j in running
    ensures TxOk(State(running, published, txs), tx)
  {
  }

  lemma LockGained(s: State, t: nat, tx: Tx, l: Lock)
    requires Exclusive(s) && t in s.txs && !Held(s, l) && tx.holds == s.txs[t].holds + {l}
    ensures Exclusive(s.(txs := s.txs[t := tx]))
  {
    assert forall u <- s.txs :: l !in s.txs[u].holds;
  }

  lemma ShapeIgnoresOthers(s: State, r: State, tx: Tx)
    requires TxOk(s, tx) && r.running == s.running && r.published == s.published
    ensures TxOk(r, tx)
  {
  }

  /** One transaction changes, the committed facts do not. */
  lemma OneTxKeeps(s: State, t: nat, tx: Tx)
    requires Ok(s) && TxOk(s, tx) && Exclusive(s.(txs := s.txs[t := tx]))
    ensures Ok(s.(txs := s.txs[t := tx]))
  {
    var r := s.(txs := s.txs[t := tx]);
    forall u <- r.txs
      ensures TxOk(r, r.txs[u])
    {
      ShapeIgnoresOthers(s, r, r.txs[u]);
    }
  }

  lemma CommitKeepsAll(s: State, t: nat, running: set<Id>, published: set<Id>)
    requires Ok(s) && t in s.txs && MayCommit(s, s.txs[t], running, published)
    ensures Ok(State(running, published, s.txs - {t}))
  {
    forall u <- s.txs - {t}
      ensures TxOk(State(running, published, s.txs - {t}), s.txs[u])
    {
      assert forall j: Id :: JobRow(j) in s.txs[u].holds ==> JobRow(j) !in s.txs[t].holds;
      CommitKeeps(s, s.txs[u], running, published, s.txs - {t});
    }
  }

  lemma AbortKeeps(s: State, t: nat)
    requires Ok(s)
    ensures Ok(s.(txs := s.txs - {t}))
  {
    forall u <- s.txs - {t}
      ensures TxOk(s.(txs := s.txs - {t}), s.txs[u])
    {
      ShapeIgnoresOthers(s, s.(txs := s.txs - {t}), s.txs[u]);
    }
  }

  lemma ApplyKeeps(s: State, step: Step)
    requires Ok(s) && Enabled(s, step)
    ensures Ok(Apply(s, step))
  {
    match step
    case Begin(t, kind) => OneTxKeeps(s, t, Tx(kind, {}, None));
    case Ask(t, l) =>
      AskKeeps(s, s.txs[t], l);
      OneTxKeeps(s, t, s.txs[t].(wants := Some(l)));
    case Take(t, l) =>
      TakeKeeps(s, s.txs[t], l);
      LockGained(s, t, s.txs[t].(holds := s.txs[t].holds + {l}), l);
      OneTxKeeps(s, t, s.txs[t].(holds := s.txs[t].holds + {l}));
    case Grant(t) =>
      var tx := s.txs[t].(holds := s.txs[t].holds + {s.txs[t].wants.value}, wants := None);
      GrantKeeps(s, s.txs[t]);
      LockGained(s, t, tx, s.txs[t].wants.value);
      OneTxKeeps(s, t, tx);
    case Commit(t, running, published) => CommitKeepsAll(s, t, running, published);
    case Abort(t) => AbortKeeps(s, t);
  }

  lemma {:induction false} RunsKeep(s: State, steps: seq<Step>)
    requires Ok(s)
    ensures Ok(Run(s, steps))
  {
    if steps != [] {
      RunsKeep(s, steps[..|steps| - 1]);
      var before := Run(s, steps[..|steps| - 1]);
      if Enabled(before, steps[|steps| - 1]) {
        ApplyKeeps(before, steps[|steps| - 1]);
      }
    }
  }

  // ---------------------------------------------------------------- waiting

  /** A request waits while another transaction holds its lock, whatever has been committed since. */
  ghost predicate WaitsFor(s: State, t: nat, u: nat) {
    && t in s.txs && u in s.txs && t != u
    && s.txs[t].wants.Some? && s.txs[t].wants.value in s.txs[u].holds
  }

  /** A tool queued on a job that is not running: its fence was overtaken, or it inserts an artifact too late. */
  ghost predicate Stranded(s: State, t: nat) {
    && t in s.txs && s.txs[t].kind.Tool?
    && s.txs[t].wants == Some(JobRow(s.txs[t].kind.job)) && s.txs[t].kind.job !in s.running
  }

  lemma ApprovalLocksTell(s: State, tx: Tx, j: Id)
    requires TxOk(s, tx) && ApprovalRow(j) in Reach(tx)
    ensures tx.kind.JobFirst? || tx.kind.RecoverMany? || tx.kind.Decide? || tx.kind.ExpireMany?
    ensures tx.kind.JobFirst? || tx.kind.RecoverMany? ==> j in s.running && JobRow(j) in tx.holds
    ensures tx.kind.Decide? || tx.kind.ExpireMany? ==> j in s.published
    ensures tx.wants == Some(ApprovalRow(j)) ==> !tx.kind.ExpireMany? && (tx.kind.Decide? ==> tx.holds == {})
  {
  }

  /** Job-first transactions ask for an approval row only while its job runs, so nobody else holds it. */
  lemma JobFirstNeverWaitsOnApproval(s: State, t: nat, u: nat)
    requires Ok(s) && WaitsFor(s, t, u) && s.txs[t].wants.value.ApprovalRow?
    ensures s.txs[t].kind.Decide? && s.txs[t].holds == {} && (s.txs[u].kind.Decide? || s.txs[u].kind.ExpireMany?)
  {
    var j := s.txs[t].wants.value.of;
    ApprovalLocksTell(s, s.txs[t], j);
    ApprovalLocksTell(s, s.txs[u], j);
  }

  ghost predicate Waits(s: State, t: nat) { exists u <- s.txs :: WaitsFor(s, t, u) }

  /** How far a transaction is from running freely. */
  ghost function Rank(s: State, t: nat): nat
    requires t in s.txs
  {
    if !Waits(s, t) then 0
    else if s.txs[t].holds == {} then 5
    else if s.txs[t].wants.value.Effect? then 4 - Order(s.txs[t].wants.value.target)
    else 1
  }

  predicate WritesJobOnly(k: Kind) { k.JobFirst? || k.RecoverMany? || k.JobOnly? || k.Tool? }

  /** Whoever holds a job row without a published approval waits for nothing. */
  lemma JobHoldersAreFree(s: State, u: nat, j: Id)
    requires Ok(s) && u in s.txs && WritesJobOnly(s.txs[u].kind) && JobRow(j) in s.txs[u].holds
    ensures !Waits(s, u)
  {
    forall v <- s.txs
      ensures !WaitsFor(s, u, v)
    {
      if WaitsFor(s, u, v) && s.txs[u].wants.value.ApprovalRow? {
        JobFirstNeverWaitsOnApproval(s, u, v);
      }
    }
  }

  /** The other holders of a job row hold its published approval. */
  lemma JobHolders(s: State, u: nat, j: Id)
    requires Ok(s) && u in s.txs && JobRow(j) in s.txs[u].holds
    ensures WritesJobOnly(s.txs[u].kind)
      || ((s.txs[u].kind == Decide(j) || s.txs[u].kind.ExpireMany?)
          && ApprovalRow(j) in s.txs[u].holds && j in s.published)
  {
    assert JobRow(j) in Reach(s.txs[u]);
    if ApprovalRow(j) in s.txs[u].holds {
      ApprovalLocksTell(s, s.txs[u], j);
    }
  }

  lemma JobWaitersBeatNobody(s: State, t: nat, u: nat)
    requires Ok(s) && WaitsFor(s, t, u) && !Stranded(s, t) && s.txs[t].holds != {} && s.txs[t].wants.value.JobRow?
    ensures Rank(s, u) == 0
  {
    var j := s.txs[t].wants.value.job;
    assert JobRow(j) in Reach(s.txs[t]);
    JobHolders(s, u, j);
    if WritesJobOnly(s.txs[u].kind) {
      JobHoldersAreFree(s, u, j);
    } else {
      QueuedBehindApproval(s, t);
      assert false;
    }
  }

  /** Waiting for a job while holding something, unless stranded: over its approval, or for a running job. */
  lemma QueuedBehindApproval(s: State, t: nat)
    requires Ok(s) && t in s.txs && s.txs[t].holds != {} && s.txs[t].wants.Some? && s.txs[t].wants.value.JobRow?
    requires !Stranded(s, t)
    ensures var j := s.txs[t].wants.value.job; j in s.running || ApprovalRow(j) in s.txs[t].holds
  {
  }

  /** The holder of a wanted effect waits, if at all, for a job row or for a later effect. */
  lemma EffectHoldersRank(s: State, u: nat, e: Target)
    requires Ok(s) && u in s.txs && Effect(e) in s.txs[u].holds
    ensures Rank(s, u) < 4 - Order(e)
  {
    assert Effect(e) in Reach(s.txs[u]);
    if s.txs[u].wants.Some? {
      assert s.txs[u].wants.value in Reach(s.txs[u]);
    }
  }

  lemma HoldersRank(s: State, u: nat)
    requires Ok(s) && u in s.txs && s.txs[u].holds != {}
    ensures Rank(s, u) <= 4
  {
  }

  /** Every wait but that of a stranded tool goes to a transaction of strictly smaller rank. */
  lemma WaitsGoDown(s: State, t: nat, u: nat)
    requires Ok(s) && WaitsFor(s, t, u) && !Stranded(s, t)
    ensures Rank(s, u) < Rank(s, t) <= 5
  {
    assert s.txs[u].holds != {} && Waits(s, t);
    if s.txs[t].holds == {} {
      HoldersRank(s, u);
    } else if s.txs[t].wants.value.Effect? {
      EffectHoldersRank(s, u, s.txs[t].wants.value.target);
    } else if s.txs[t].wants.value.JobRow? {
      JobWaitersBeatNobody(s, t, u);
    } else {
      JobFirstNeverWaitsOnApproval(s, t, u);
    }
  }

  ghost predicate WaitPath(s: State, path: seq<nat>) {
    |path| >= 2 && forall i | 0 <= i < |path| - 1 :: WaitsFor(s, path[i], path[i + 1])
  }

  ghost predicate Cycle(s: State, path: seq<nat>) { WaitPath(s, path) && path[0] == path[|path| - 1] }

  ghost predicate NoneStranded(s: State, path: seq<nat>) {
    forall i | 0 <= i < |path| - 1 :: !Stranded(s, path[i])
  }

  lemma {:induction false} PathsGoDown(s: State, path: seq<nat>)
    requires Ok(s) && WaitPath(s, path) && NoneStranded(s, path)
    ensures path[0] in s.txs && path[|path| - 1] in s.txs
    ensures Rank(s, path[|path| - 1]) + |path| - 1 <= Rank(s, path[0]) <= 5
    decreases |path|
  {
    var n := |path| - 1;
    assert WaitsFor(s, path[n - 1], path[n]) && !Stranded(s, path[n - 1]);
    WaitsGoDown(s, path[n - 1], path[n]);
    if n >= 2 {
      PathsGoDown(s, path[..n]);
    }
  }

  /** Who a stranded tool waits for, if that one waits for a waiting one in turn: a decision on the tool's own,
      published job that wants an effect. */
  lemma StrandedBehindDecision(s: State, t: nat, u: nat, v: nat, x: nat)
    requires Ok(s) && Stranded(s, t) && WaitsFor(s, t, u) && WaitsFor(s, u, v) && WaitsFor(s, v, x)
    ensures s.txs[u].kind == Decide(s.txs[t].kind.job) && s.txs[t].kind.job in s.published
    ensures s.txs[u].wants.value.Effect?
  {
    var j := s.txs[t].kind.job;
    JobHolders(s, u, j);
    assert Waits(s, u) && Waits(s, v);
    if WritesJobOnly(s.txs[u].kind) {
      JobHoldersAreFree(s, u, j);
    } else if s.txs[u].wants.value.JobRow? {
      JobWaitersBeatNobody(s, u, v);
    } else if s.txs[u].wants.value.ApprovalRow? {
      JobFirstNeverWaitsOnApproval(s, u, v);
    }
  }

  /** One turn of a cycle, from any of its members on. */
  lemma CycleGoesOn(s: State, path: seq<nat>, i: nat) returns (u: nat, v: nat, x: nat)
    requires Cycle(s, path) && i < |path| - 1
    ensures u == path[i + 1] && WaitsFor(s, path[i], u) && WaitsFor(s, u, v) && WaitsFor(s, v, x)
  {
    var n := |path| - 1;
    var a := if i + 1 < n then i + 1 else 0;
    var b := if a + 1 < n then a + 1 else 0;
    u, v, x := path[i + 1], path[a + 1], path[b + 1];
    assert path[a] == u && path[b] == v;
    assert WaitsFor(s, path[i], path[i + 1]) && WaitsFor(s, path[a], path[a + 1]) && WaitsFor(s, path[b], path[b + 1]);
  }

  /** Over every interleaving of decisions, expiries, recoveries, workers, tools and enqueues: without a stranded
      tool no chain of waits has more than six members and none closes. A chain that closes contains a stranded
      tool, and every stranded tool in it waits for a decision on its own published job that wants an effect. */
  lemma WaitCyclesNeedStrandedTools(running: set<Id>, published: set<Id>, steps: seq<Step>, path: seq<nat>)
    requires running !! published
    requires WaitPath(Run(State(running, published, map[]), steps), path)
    ensures var s := Run(State(running, published, map[]), steps);
      && (NoneStranded(s, path) ==> path[0] != path[|path| - 1] && |path| <= 6)
      && (Cycle(s, path) ==> exists i | 0 <= i < |path| - 1 :: Stranded(s, path[i]))
      && (Cycle(s, path) ==>
            forall i | 0 <= i < |path| - 1 :: Stranded(s, path[i]) ==> StrandedOnDecision(s, path[i], path[i + 1]))
  {
    var s := Run(State(running, published, map[]), steps);
    RunsKeep(State(running, published, map[]), steps);
    if NoneStranded(s, path) {
      PathsGoDown(s, path);
    }
    if Cycle(s, path) {
      forall i | 0 <= i < |path| - 1 && Stranded(s, path[i])
        ensures StrandedOnDecision(s, path[i], path[i + 1])
      {
        var u, v, x := CycleGoesOn(s, path, i);
        StrandedBehindDecision(s, path[i], u, v, x);
      }
    }
  }

  ghost predicate StrandedOnDecision(s: State, t: nat, u: nat) {
    && t in s.txs && u in s.txs && s.txs[t].kind.Tool?
    && s.txs[u].kind == Decide(s.txs[t].kind.job) && s.txs[t].kind.job in s.published
    && s.txs[u].wants.Some? && s.txs[u].wants.value.Effect?
  }

  /** A decision that asks for the record or an artifact key of its own job closes a cycle exactly when the holder is
      already queued on that job: the one check that tells before the request. */
  lemma OwnEffectsDeadlockExactly(s: State, u: nat, e: Target, t: nat)
    requires Ok(s) && !e.CaseRow? && Enabled(s, Ask(u, Effect(e))) && s.txs[u].kind.Decide?
    requires t in s.txs && t != u && Effect(e) in s.txs[t].holds
    ensures var after := Apply(s, Ask(u, Effect(e)));
      (exists path :: Cycle(after, path) && path[0] == u) <==> s.txs[t].wants == Some(JobRow(s.txs[u].kind.job))
  {
    var after := Apply(s, Ask(u, Effect(e)));
    ApplyKeeps(s, Ask(u, Effect(e)));
    var j := s.txs[u].kind.job;
    if s.txs[t].wants == Some(JobRow(j)) {
      assert WaitsFor(after, u, t) && WaitsFor(after, t, u);
      assert Cycle(after, [u, t, u]);
    }
    forall path | Cycle(after, path) && path[0] == u
      ensures s.txs[t].wants == Some(JobRow(j))
    {
      var v, x, _ := CycleGoesOn(after, path, 0);
      assert Effect(e) in after.txs[v].holds && Effect(e) in after.txs[t].holds;
      assert v == t && WaitsFor(after, t, x);
      OwnEffectHolders(s, t, j, e);
    }
  }

  lemma OwnEffectHolders(s: State, t: nat, j: Id, e: Target)
    requires Ok(s) && t in s.txs && Effect(e) in s.txs[t].holds && !e.CaseRow? && e.job == j
    ensures s.txs[t].kind.Decide? || s.txs[t].wants.None? || s.txs[t].wants == Some(JobRow(j))
  {
    assert Effect(e) in Reach(s.txs[t]);
    if s.txs[t].wants.Some? {
      assert s.txs[t].wants.value in Reach(s.txs[t]);
    }
  }

  lemma CycleElsewhere(s: State, after: State, t: nat, path: seq<nat>)
    requires Cycle(after, path) && t !in path
    requires forall u <- after.txs :: u != t ==> u in s.txs && s.txs[u] == after.txs[u]
    ensures Cycle(s, path)
  {
    forall i | 0 <= i < |path| - 1
      ensures WaitsFor(s, path[i], path[i + 1])
    {
      assert WaitsFor(after, path[i], path[i + 1]) && path[i] in path && path[i + 1] in path;
    }
  }

  /** Where the newly waiting transaction stands in the cycle, with its neighbours. */
  lemma OnCycle(s: State, path: seq<nat>, t: nat) returns (before: nat, u: nat, v: nat)
    requires Cycle(s, path) && t in path
    ensures WaitsFor(s, before, t) && WaitsFor(s, t, u) && WaitsFor(s, u, v)
  {
    var n := |path| - 1;
    var k :| 0 <= k <= n && path[k] == t;
    var i := if k == n then 0 else k;
    var p := if i == 0 then n - 1 else i - 1;
    assert path[i] == t && path[p + 1] == t;
    var x;
    u, v, x := CycleGoesOn(s, path, i);
    before := path[p];
    assert WaitsFor(s, path[p], path[p + 1]);
  }

  predicate ClosingRequest(s: State, step: Step) {
    && step.Ask? && step.tx in s.txs
    && var kind := s.txs[step.tx].kind;
       || (kind.Decide? && step.lock.Effect?)
       || (kind.Tool? && kind.target.Artifact? && step.lock == JobRow(kind.job) && kind.job !in s.running)
  }

  lemma AskedOnCycle(s: State, step: Step, before: nat, u: nat, v: nat)
    requires Ok(s) && Enabled(s, step) && step.Ask?
    requires var after := Apply(s, step);
      WaitsFor(after, before, step.tx) && WaitsFor(after, step.tx, u) && WaitsFor(after, u, v)
    ensures ClosingRequest(s, step)
  {
    var after := Apply(s, step);
    ApplyKeeps(s, step);
    assert Waits(after, u);
    if step.lock.JobRow? && !Stranded(after, step.tx) {
      JobWaitersBeatNobody(after, step.tx, u);
    } else if step.lock.ApprovalRow? {
      JobFirstNeverWaitsOnApproval(after, step.tx, u);
    }
  }

  /** Only two requests ever close a cycle: a decision that asks for an effect, and a tool that inserts an artifact of
      a job that is not running. Everything else, the fences included, leaves waits free of cycles. */
  lemma OnlyTheseRequestsCloseCycles(s: State, step: Step)
    requires Ok(s) && Enabled(s, step)
    requires !exists path :: Cycle(s, path)
    requires exists path :: Cycle(Apply(s, step), path)
    ensures ClosingRequest(s, step)
  {
    var after := Apply(s, step);
    var path :| Cycle(after, path);
    if step.tx !in path {
      CycleElsewhere(s, after, step.tx, path);
    } else {
      var before, u, v := OnCycle(after, path, step.tx);
      assert step.Ask?;
      AskedOnCycle(s, step, before, u, v);
    }
  }

  // ---------------------------------------------------------------- the committed facts are the machine's

  function RunningJobs(w: Machine.World): set<Id> {
    set j | j in w.jobs && w.jobs[j].rows.job.status == Durable.Running
  }

  function PublishedJobs(w: Machine.World): set<Id> {
    set j | j in w.jobs && w.jobs[j].rows.approval.Some?
            && Durable.Published(w.jobs[j].rows.approval.value, w.jobs[j].rows.job)
  }

  /** What `MayCommit` takes for granted of a commit is what every step of the machine does. */
  lemma MachineCommitsAreAllowed(cfg: Machine.Config, w: Machine.World, history: seq<Machine.Step>, step: Machine.Step)
    requires Reachability.Fresh(w)
    ensures var at := Machine.Run(cfg, w, history);
      var after := Machine.Apply(cfg, at, step);
      && RunningJobs(at) !! PublishedJobs(at) && RunningJobs(after) !! PublishedJobs(after)
      && PublishedJobs(at) <= PublishedJobs(after)
  {
    Reachability.ReachableOk(cfg, w, history);
    var at := Machine.Run(cfg, w, history);
    Reachability.ApplyKeeps(cfg, at, step);
    forall j <- PublishedJobs(at)
      ensures j in PublishedJobs(Machine.Apply(cfg, at, step))
    {
      Decisions.CommandKeptByStep(cfg, at, step, j, at.jobs[j].rows.approval.value.command);
    }
  }
}
