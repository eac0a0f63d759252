/** Exactly which lock requests close a wait cycle. */
module LockExact {
  import opened Values
  import opened LockOrder

  /** One hop of a chain: a stranded tool waits for the decision on its job, a decision for its effect's holder. */
  ghost predicate Hop(s: State, a: nat, b: nat) {
    && a in s.txs && b in s.txs
    && (|| (Stranded(s, a) && s.txs[b].kind == Decide(s.txs[a].kind.job) && s.txs[a].wants.value in s.txs[b].holds)
        || (s.txs[a].kind.Decide? && s.txs[a].wants.Some? && s.txs[a].wants.value.Effect?
            && s.txs[a].wants.value in s.txs[b].holds))
  }

  /** An alternating chain of stranded tools and decisions that ends in a tool queued on job j. */
  ghost predicate ChainTo(s: State, hops: seq<nat>, j: Id) {
    && hops != [] && hops[0] in s.txs
    && (forall i | 0 <= i < |hops| - 1 :: Hop(s, hops[i], hops[i + 1]))
    && var last := hops[|hops| - 1];
    && last in s.txs && s.txs[last].kind.Tool? && s.txs[last].wants == Some(JobRow(j))
  }

  /** What can be seen before a request that closes a cycle: for its own job's record or artifact, that the holder is
      queued on the job; for a case row, that a chain from the holder ends in a tool queued on the job; for the job row
      of an artifact, that the decision that holds it wants that artifact. */
  ghost predicate Closes(s: State, step: Step) {
    && step.Ask? && step.tx in s.txs
    && var kind, l := s.txs[step.tx].kind, step.lock;
       || (kind.Decide? && l.Effect? && !l.target.CaseRow?
           && exists t <- s.txs :: t != step.tx && l in s.txs[t].holds && s.txs[t].wants == Some(JobRow(kind.job)))
       || (kind.Decide? && l.Effect? && l.target.CaseRow?
           && exists hops :: ChainTo(s, hops, kind.job) && l in s.txs[hops[0]].holds)
       || (kind.Tool? && l == JobRow(kind.job)
           && exists u <- s.txs :: u != step.tx && l in s.txs[u].holds && s.txs[u].wants == Some(Effect(kind.target)))
  }

  // ---------------------------------------------------------------- reading cycles

  /** A cycle may be read from any of its members. */
  lemma Rotated(s: State, path: seq<nat>, t: nat) returns (turned: seq<nat>)
    requires Cycle(s, path) && t in path
    ensures Cycle(s, turned) && turned[0] == t
  {
    var n := |path| - 1;
    var k :| 0 <= k <= n && path[k] == t;
    turned := path[k..] + path[1..k + 1];
    forall i | 0 <= i < |turned| - 1
      ensures WaitsFor(s, turned[i], turned[i + 1])
    {
      if i < n - k {
        assert WaitsFor(s, path[k + i], path[k + i + 1]);
      } else {
        assert WaitsFor(s, path[i - (n - k)], path[i - (n - k) + 1]);
      }
    }
  }

  lemma FirstReturn(path: seq<nat>) returns (m: nat)
    requires |path| >= 2 && path[0] == path[|path| - 1]
    ensures 1 <= m < |path| && path[m] == path[0] && forall i | 1 <= i < m :: path[i] != path[0]
  {
    m := 1;
    while path[m] != path[0]
      invariant 1 <= m < |path| && forall i | 1 <= i < m :: path[i] != path[0]
      decreases |path| - m
    {
      m := m + 1;
    }
  }

  /** In a cycle every wait is such a hop. */
  lemma CyclesHop(s: State, before: nat, a: nat, b: nat, v: nat, x: nat)
    requires Ok(s)
    ensures WaitsFor(s, before, a) && WaitsFor(s, a, b) && WaitsFor(s, b, v) && WaitsFor(s, v, x) ==> Hop(s, a, b)
  {
    if WaitsFor(s, before, a) && WaitsFor(s, a, b) && WaitsFor(s, b, v) && WaitsFor(s, v, x) {
      assert Waits(s, b) && s.txs[a].holds != {};
      if Stranded(s, a) {
        StrandedBehindDecision(s, a, b, v, x);
      } else if s.txs[a].wants.value.JobRow? {
        JobWaitersBeatNobody(s, a, b);
      } else if s.txs[a].wants.value.ApprovalRow? {
        JobFirstNeverWaitsOnApproval(s, a, b);
      } else {
        EffectWaitersDecide(s, a, s.txs[a].wants.value.target);
      }
    }
  }

  lemma EffectWaitersDecide(s: State, a: nat, e: Target)
    requires Ok(s) && a in s.txs && s.txs[a].holds != {} && s.txs[a].wants == Some(Effect(e))
    ensures s.txs[a].kind.Decide? && Own(s.txs[a].kind.job, e)
    ensures ApprovalRow(s.txs[a].kind.job) in s.txs[a].holds
  {
    assert Effect(e) in Reach(s.txs[a]);
    assert TxOk(s, s.txs[a]);
  }

  // ---------------------------------------------------------------- case rows

  lemma HeldBeforeCase(s: State, u: nat, c: Id, e: Target)
    requires Ok(s) && u in s.txs && s.txs[u].kind.Decide? && s.txs[u].wants == Some(Effect(CaseRow(c)))
    requires Effect(e) in s.txs[u].holds
    ensures e == Idempotency(s.txs[u].kind.job) && ApprovalRow(s.txs[u].kind.job) in s.txs[u].holds
  {
    assert Effect(e) in Reach(s.txs[u]) && After(s.txs[u].holds, CaseRow(c));
  }

  /** A request for a job row, by someone who holds something: a tool's, or over the job's approval. */
  lemma JobWaiters(s: State, a: nat, j: Id)
    requires Ok(s) && a in s.txs && s.txs[a].holds != {} && s.txs[a].wants == Some(JobRow(j))
    ensures (s.txs[a].kind.Tool? && s.txs[a].kind.job == j) || ApprovalRow(j) in s.txs[a].holds
  {
    assert JobRow(j) in Reach(s.txs[a]);
  }

  /** While a decision asks for a case row, only tools queued on its job wait for it and are waited for. */
  lemma OnlyToolsWaitForAsker(s: State, u: nat, c: Id, before: nat, a: nat)
    requires Ok(s) && u in s.txs && s.txs[u].kind.Decide? && s.txs[u].wants == Some(Effect(CaseRow(c)))
    requires WaitsFor(s, before, a) && WaitsFor(s, a, u)
    ensures s.txs[a].kind.Tool? && s.txs[a].wants == Some(JobRow(s.txs[u].kind.job))
  {
    var l := s.txs[a].wants.value;
    assert l in Reach(s.txs[u]) && s.txs[a].holds != {};
    if l.ApprovalRow? {
      JobFirstNeverWaitsOnApproval(s, a, u);
    } else if l.JobRow? {
      JobHolders(s, u, l.job);
      JobWaiters(s, a, l.job);
    } else {
      HeldBeforeCase(s, u, c, l.target);
      EffectWaitersDecide(s, a, l.target);
    }
  }

  lemma ChainFromCycle(s: State, u: nat, c: Id, path: seq<nat>) returns (hops: seq<nat>)
    requires Ok(s) && Enabled(s, Ask(u, Effect(CaseRow(c)))) && s.txs[u].kind.Decide?
    requires Cycle(Apply(s, Ask(u, Effect(CaseRow(c)))), path) && path[0] == u
    ensures ChainTo(s, hops, s.txs[u].kind.job) && Effect(CaseRow(c)) in s.txs[hops[0]].holds
  {
    var after := Apply(s, Ask(u, Effect(CaseRow(c))));
    ApplyKeeps(s, Ask(u, Effect(CaseRow(c))));
    var m := FirstReturn(path);
    assert WaitsFor(after, path[0], path[1]);
    hops := path[1..m];
    forall i | 0 <= i < |hops| - 1
      ensures Hop(s, hops[i], hops[i + 1])
    {
      var b, v, x := CycleGoesOn(after, path, i + 1);
      assert WaitsFor(after, path[i], path[i + 1]);
      CyclesHop(after, path[i], path[i + 1], b, v, x);
      assert hops[i] == path[i + 1] && hops[i + 1] == path[i + 2] && path[i + 1] != u && path[i + 2] != u;
    }
    assert WaitsFor(after, path[m - 2], path[m - 1]) && WaitsFor(after, path[m - 1], path[m]);
    OnlyToolsWaitForAsker(after, u, c, path[m - 2], path[m - 1]);
    assert hops[|hops| - 1] == path[m - 1] && path[m - 1] != u;
  }

  lemma HopsWait(s: State, after: State, a: nat, b: nat)
    requires Ok(s) && Hop(s, a, b)
    requires a in after.txs && b in after.txs && after.txs[a] == s.txs[a] && after.txs[b].holds == s.txs[b].holds
    ensures WaitsFor(after, a, b)
  {
    assert TxOk(s, s.txs[a]);
  }

  lemma ChainWaits(s: State, u: nat, c: Id, hops: seq<nat>)
    requires Ok(s) && Enabled(s, Ask(u, Effect(CaseRow(c)))) && s.txs[u].kind.Decide?
    requires ChainTo(s, hops, s.txs[u].kind.job) && Effect(CaseRow(c)) in s.txs[hops[0]].holds
    ensures var after := Apply(s, Ask(u, Effect(CaseRow(c))));
      && (forall i | 0 <= i < |hops| - 1 :: WaitsFor(after, hops[i], hops[i + 1]))
      && WaitsFor(after, hops[|hops| - 1], u) && WaitsFor(after, u, hops[0])
  {
    var after := Apply(s, Ask(u, Effect(CaseRow(c))));
    forall i | 0 <= i < |hops| - 1
      ensures WaitsFor(after, hops[i], hops[i + 1])
    {
      assert Hop(s, hops[i], hops[i + 1]);
      HopsWait(s, after, hops[i], hops[i + 1]);
    }
    DecisionHoldsJob(s, u, CaseRow(c));
  }

  lemma CycleFromChain(s: State, u: nat, c: Id, hops: seq<nat>) returns (path: seq<nat>)
    requires Ok(s) && Enabled(s, Ask(u, Effect(CaseRow(c)))) && s.txs[u].kind.Decide?
    requires ChainTo(s, hops, s.txs[u].kind.job) && Effect(CaseRow(c)) in s.txs[hops[0]].holds
    ensures Cycle(Apply(s, Ask(u, Effect(CaseRow(c)))), path) && path[0] == u
  {
    var after := Apply(s, Ask(u, Effect(CaseRow(c))));
    var n := |hops|;
    path := [u] + hops + [u];
    ChainWaits(s, u, c, hops);
    forall i | 0 <= i < |path| - 1
      ensures WaitsFor(after, path[i], path[i + 1])
    {
      assert i == 0 || i == n || (path[i] == hops[i - 1] && path[i + 1] == hops[i]);
    }
  }

  lemma DecisionHoldsJob(s: State, u: nat, e: Target)
    requires Ok(s) && Enabled(s, Ask(u, Effect(e))) && s.txs[u].kind.Decide?
    ensures JobRow(s.txs[u].kind.job) in s.txs[u].holds
  {
  }

  /** A decision's request for a case row closes a cycle exactly when the chain of stranded tools and decisions from
      the holder of that row ends in a tool queued on the decision's own job. */
  lemma CaseRowsDeadlockExactly(s: State, u: nat, c: Id)
    requires Ok(s) && Enabled(s, Ask(u, Effect(CaseRow(c)))) && s.txs[u].kind.Decide?
    ensures (exists path :: Cycle(Apply(s, Ask(u, Effect(CaseRow(c)))), path) && path[0] == u)
      <==> (exists hops :: ChainTo(s, hops, s.txs[u].kind.job) && Effect(CaseRow(c)) in s.txs[hops[0]].holds)
  {
    forall path | Cycle(Apply(s, Ask(u, Effect(CaseRow(c)))), path) && path[0] == u
      ensures exists hops :: ChainTo(s, hops, s.txs[u].kind.job) && Effect(CaseRow(c)) in s.txs[hops[0]].holds
    {
      var hops := ChainFromCycle(s, u, c, path);
    }
    forall hops | ChainTo(s, hops, s.txs[u].kind.job) && Effect(CaseRow(c)) in s.txs[hops[0]].holds
      ensures exists path :: Cycle(Apply(s, Ask(u, Effect(CaseRow(c)))), path) && path[0] == u
    {
      var path := CycleFromChain(s, u, c, hops);
    }
  }

  // ---------------------------------------------------------------- artifact inserts

  /** Who waits for the row or key a tool holds, and is itself waited for: only the decision on the tool's job, for the
      artifact it wants too. */
  lemma OnlyDecisionWaitsForInsert(s: State, t: nat, before: nat, a: nat)
    requires Ok(s) && t in s.txs && s.txs[t].kind.Tool? && !s.txs[t].kind.target.CaseRow?
    requires s.txs[t].holds == {Effect(s.txs[t].kind.target)}
    requires WaitsFor(s, before, a) && WaitsFor(s, a, t)
    ensures s.txs[a].kind == Decide(s.txs[t].kind.job) && s.txs[a].wants == Some(Effect(s.txs[t].kind.target))
    ensures JobRow(s.txs[t].kind.job) in s.txs[a].holds
  {
    assert s.txs[a].holds != {} && Effect(s.txs[t].kind.target) in Reach(s.txs[t]);
    EffectWaitersDecide(s, a, s.txs[t].kind.target);
    assert TxOk(s, s.txs[a]);
  }

  /** A tool that holds an artifact key and asks for its job's row closes a cycle exactly when the holder of that row
      wants the same key. */
  lemma InsertsDeadlockExactly(s: State, t: nat, u: nat)
    requires Ok(s) && t in s.txs && s.txs[t].kind.Tool? && s.txs[t].kind.target.Artifact?
    requires Enabled(s, Ask(t, JobRow(s.txs[t].kind.job)))
    requires u in s.txs && u != t && JobRow(s.txs[t].kind.job) in s.txs[u].holds
    ensures (exists path :: Cycle(Apply(s, Ask(t, JobRow(s.txs[t].kind.job))), path) && path[0] == t)
      <==> s.txs[u].wants == Some(Effect(s.txs[t].kind.target))
  {
    var step := Ask(t, JobRow(s.txs[t].kind.job));
    var after := Apply(s, step);
    ApplyKeeps(s, step);
    if s.txs[u].wants == Some(Effect(s.txs[t].kind.target)) {
      assert WaitsFor(after, t, u) && WaitsFor(after, u, t);
      assert Cycle(after, [t, u, t]);
    }
    forall path | Cycle(after, path) && path[0] == t
      ensures s.txs[u].wants == Some(Effect(s.txs[t].kind.target))
    {
      InsertCycle(after, t, u, path);
    }
  }

  lemma InsertCycle(s: State, t: nat, u: nat, path: seq<nat>)
    requires Ok(s) && t in s.txs && s.txs[t].kind.Tool? && !s.txs[t].kind.target.CaseRow?
    requires s.txs[t].holds == {Effect(s.txs[t].kind.target)}
    requires u in s.txs && JobRow(s.txs[t].kind.job) in s.txs[u].holds
    requires Cycle(s, path) && path[0] == t
    ensures s.txs[u].wants == Some(Effect(s.txs[t].kind.target))
  {
    var n := |path| - 1;
    assert WaitsFor(s, path[n - 1], path[n]) && WaitsFor(s, path[0], path[1]);
    assert n >= 2;
    assert WaitsFor(s, path[n - 2], path[n - 1]);
    OnlyDecisionWaitsForInsert(s, t, path[n - 2], path[n - 1]);
  }

  // ---------------------------------------------------------------- every request

  lemma ClosingIsSeen(s: State, step: Step, path: seq<nat>)
    requires Ok(s) && Enabled(s, step) && ClosingRequest(s, step)
    requires Cycle(Apply(s, step), path) && path[0] == step.tx
    ensures Closes(s, step)
  {
    var after := Apply(s, step);
    var holder := path[1];
    assert WaitsFor(after, path[0], path[1]);
    if s.txs[step.tx].kind.Tool? {
      InsertsDeadlockExactly(s, step.tx, holder);
    } else if step.lock.target.CaseRow? {
      var hops := ChainFromCycle(s, step.tx, step.lock.target.id, path);
    } else {
      OwnEffectsDeadlockExactly(s, step.tx, step.lock.target, holder);
    }
  }

  lemma SeenCloses(s: State, step: Step) returns (path: seq<nat>)
    requires Ok(s) && Enabled(s, step) && Closes(s, step)
    ensures Cycle(Apply(s, step), path)
  {
    var after := Apply(s, step);
    var kind, l := s.txs[step.tx].kind, step.lock;
    if kind.Tool? {
      var u :| u in s.txs && u != step.tx && l in s.txs[u].holds && s.txs[u].wants == Some(Effect(kind.target));
      ToolHoldsTarget(s, step);
      assert WaitsFor(after, step.tx, u) && WaitsFor(after, u, step.tx);
      path := [step.tx, u, step.tx];
    } else if l.target.CaseRow? {
      var hops :| ChainTo(s, hops, kind.job) && l in s.txs[hops[0]].holds;
      path := CycleFromChain(s, step.tx, l.target.id, hops);
    } else {
      var t :| t in s.txs && t != step.tx && l in s.txs[t].holds && s.txs[t].wants == Some(JobRow(kind.job));
      OwnEffectsDeadlockExactly(s, step.tx, l.target, t);
      path :| Cycle(after, path) && path[0] == step.tx;
    }
  }

  lemma ToolHoldsTarget(s: State, step: Step)
    requires Enabled(s, step) && step.Ask? && s.txs[step.tx].kind.Tool? && step.lock.JobRow?
    ensures Effect(s.txs[step.tx].kind.target) in s.txs[step.tx].holds
  {
  }

  ghost predicate HasCycle(s: State) { exists path :: Cycle(s, path) }

  /** Over every interleaving, the step that first closes a wait cycle is recognised exactly by what `Closes` can see
      before it. */
  lemma CyclesCloseExactly(running: set<Id>, published: set<Id>, steps: seq<Step>, step: Step)
    requires running !! published
    requires var s := Run(State(running, published, map[]), steps); !HasCycle(s) && Enabled(s, step)
    ensures var s := Run(State(running, published, map[]), steps);
      HasCycle(Apply(s, step)) <==> Closes(s, step)
  {
    var s := Run(State(running, published, map[]), steps);
    RunsKeep(State(running, published, map[]), steps);
    if HasCycle(Apply(s, step)) {
      OnlyTheseRequestsCloseCycles(s, step);
      var path :| Cycle(Apply(s, step), path);
      if step.tx !in path {
        CycleElsewhere(s, Apply(s, step), step.tx, path);
      } else {
        var turned := Rotated(Apply(s, step), path, step.tx);
        ClosingIsSeen(s, step, turned);
      }
    }
    if Closes(s, step) {
      var path := SeenCloses(s, step);
    }
  }
}
