/** Insert-or-reuse under a unique constraint: look, insert under a savepoint, re-read on a violation. Any number
    of transactions interleave step by step; uncommitted inserts reserve their key and may be aborted.
    Used by enqueue (app/domain/intake.py) and by artifacts (app/domain/artifact_repository.py). */
module InsertRace {
  import opened Values

  /** Where one call stands. Documents probe in a transaction of their own before they look. */
  datatype Phase<V> =
    | Probing | Looking | Missing | Holding | Violated
    | Done(row: V, created: bool) | Raised | Aborted

  datatype Call<K, V> = Call(key: K, value: V, phase: Phase<V>)

  /** History: one entry for each answered call, at the step that settled its answer. */
  datatype Entry<K, V> = Entry(call: nat, key: K, value: V, row: V, created: bool)

  datatype State<K(==), V> = State(calls: map<nat, Call<K, V>>, rows: map<K, V>, log: seq<Entry<K, V>>)

  datatype Step<K, V> = Arrive(call: nat, key: K, value: V, probes: bool) | Proceed(call: nat) | Abort(call: nat)

  function Enter<K(==), V>(s: State<K, V>, i: nat, phase: Phase<V>): State<K, V>
    requires i in s.calls
  {
    s.(calls := s.calls[i := s.calls[i].(phase := phase)])
  }

  function Answer<K(==), V>(s: State<K, V>, i: nat, row: V, created: bool): State<K, V>
    requires i in s.calls
  {
    var c := s.calls[i];
    Enter(s, i, Done(row, created)).(log := s.log + [Entry(i, c.key, c.value, row, created)])
  }

  /** A read returns the committed row, if any. */
  function Read<K(==), V>(s: State<K, V>, i: nat, otherwise: Phase<V>): State<K, V>
    requires i in s.calls
  {
    var key := s.calls[i].key;
    if key in s.rows then Answer(s, i, s.rows[key], false) else Enter(s, i, otherwise)
  }

  predicate Reserved<K(==), V>(s: State<K, V>, key: K) {
    exists i <- s.calls :: s.calls[i].key == key && s.calls[i].phase.Holding?
  }

  /** An insert violates a committed key, waits behind an uncommitted one, and otherwise reserves its key. */
  function Insert<K(==), V>(s: State<K, V>, i: nat): State<K, V>
    requires i in s.calls
  {
    var key := s.calls[i].key;
    if key in s.rows then Enter(s, i, Violated)
    else if Reserved(s, key) then s
    else Enter(s, i, Holding)
  }

  function Commit<K(==), V>(s: State<K, V>, i: nat): State<K, V>
    requires i in s.calls
  {
    var c := s.calls[i];
    Answer(s, i, c.value, true).(rows := s.rows[c.key := c.value])
  }

  function Apply<K(==), V>(s: State<K, V>, step: Step<K, V>): State<K, V> {
    match step
    case Arrive(i, key, value, probes) =>
      if i in s.calls then s else s.(calls := s.calls[i := Call(key, value, if probes then Probing else Looking)])
    case Abort(i) =>
      if i !in s.calls || s.calls[i].phase.Done? || s.calls[i].phase.Raised? then s else Enter(s, i, Aborted)
    case Proceed(i) =>
      if i !in s.calls then s
      else match s.calls[i].phase
        case Probing => Read(s, i, Looking)
        case Looking => Read(s, i, Missing)
        case Missing => Insert(s, i)
        case Holding => Commit(s, i)
        case Violated => Read(s, i, Raised)
        case _ => s
  }

  function Run<K(==), V>(s: State<K, V>, steps: seq<Step<K, V>>): State<K, V> {
    if steps == [] then s else Apply(Run(s, steps[..|steps| - 1]), steps[|steps| - 1])
  }

  // ---------------------------------------------------------------- the sequential specification

  /** Put-if-absent on one key. */
  function Put<K(==), V>(rows: map<K, V>, key: K, value: V): map<K, V> {
    if key in rows then rows else rows[key := value]
  }

  function PutResult<K(==), V>(rows: map<K, V>, key: K, value: V): (V, bool) {
    if key in rows then (rows[key], false) else (value, true)
  }

  function Replay<K(==), V>(rows: map<K, V>, log: seq<Entry<K, V>>): map<K, V> {
    if log == [] then rows
    else
      var last := log[|log| - 1];
      Put(Replay(rows, log[..|log| - 1]), last.key, last.value)
  }

  /** Every answer is the one the sequential map gives when the calls run one after the other in log order. */
  ghost predicate Sequential<K(!new), V(!new)>(rows: map<K, V>, log: seq<Entry<K, V>>) {
    log == [] ||
    (var last := log[|log| - 1];
     && (last.row, last.created) == PutResult(Replay(rows, log[..|log| - 1]), last.key, last.value)
     && Sequential(rows, log[..|log| - 1]))
  }

  ghost predicate EntryOf<K, V>(s: State<K, V>, e: Entry<K, V>) {
    e.call in s.calls && s.calls[e.call] == Call(e.key, e.value, Done(e.row, e.created))
  }

  ghost predicate Logged<K, V>(s: State<K, V>) {
    && (forall e <- s.log :: EntryOf(s, e))
    && (forall i <- s.calls :: s.calls[i].phase.Done? ==>
          Entry(i, s.calls[i].key, s.calls[i].value, s.calls[i].phase.row, s.calls[i].phase.created) in s.log)
    && (forall a, b :: 0 <= a < b < |s.log| ==> s.log[a].call != s.log[b].call)
  }

  /** Each phase is true to the committed rows. */
  ghost predicate Honest<K, V>(s: State<K, V>) {
    && (forall i <- s.calls :: s.calls[i].phase.Holding? ==> s.calls[i].key !in s.rows)
    && (forall i <- s.calls :: s.calls[i].phase.Violated? ==> s.calls[i].key in s.rows)
    && (forall i <- s.calls :: !s.calls[i].phase.Raised?)
    && (forall i <- s.calls, j <- s.calls ::
          (s.calls[i].phase.Holding? && s.calls[j].phase.Holding? && s.calls[i].key == s.calls[j].key) ==> i == j)
  }

  ghost predicate Ok<K(!new), V(!new)>(initial: map<K, V>, s: State<K, V>) {
    Honest(s) && Logged(s) && Sequential(initial, s.log) && s.rows == Replay(initial, s.log)
  }

  lemma EnterKeeps<K(!new), V(!new)>(initial: map<K, V>, s: State<K, V>, i: nat, phase: Phase<V>)
    requires Ok(initial, s) && i in s.calls && !s.calls[i].phase.Done? && !phase.Done? && !phase.Raised?
    requires phase.Violated? ==> s.calls[i].key in s.rows
    requires phase.Holding? ==> s.calls[i].key !in s.rows && !Reserved(s, s.calls[i].key)
    ensures Ok(initial, Enter(s, i, phase))
  {
  }

  lemma AnswerKeepsLog<K(!new), V(!new)>(s: State<K, V>, i: nat, row: V, created: bool)
    requires Logged(s) && i in s.calls && !s.calls[i].phase.Done?
    ensures Logged(Answer(s, i, row, created))
  {
    assert forall e <- s.log :: EntryOf(s, e) && e.call != i;
  }

  lemma AnswerIsSequential<K(!new), V(!new)>(initial: map<K, V>, s: State<K, V>, i: nat, row: V, created: bool)
    requires Sequential(initial, s.log) && i in s.calls
    requires (row, created) == PutResult(Replay(initial, s.log), s.calls[i].key, s.calls[i].value)
    ensures Sequential(initial, Answer(s, i, row, created).log)
    ensures Replay(initial, Answer(s, i, row, created).log)
      == Put(Replay(initial, s.log), s.calls[i].key, s.calls[i].value)
  {
    var after := Answer(s, i, row, created);
    assert after.log[..|after.log| - 1] == s.log;
  }

  lemma ReadKeeps<K(!new), V(!new)>(initial: map<K, V>, s: State<K, V>, i: nat, otherwise: Phase<V>)
    requires Ok(initial, s) && i in s.calls && !s.calls[i].phase.Done?
    requires s.calls[i].key in s.rows || otherwise.Looking? || otherwise.Missing?
    ensures Ok(initial, Read(s, i, otherwise))
  {
    var key := s.calls[i].key;
    if key in s.rows {
      AnswerKeepsLog(s, i, s.rows[key], false);
      AnswerIsSequential(initial, s, i, s.rows[key], false);
    } else {
      EnterKeeps(initial, s, i, otherwise);
    }
  }

  lemma CommitIsHonest<K(!new), V(!new)>(s: State<K, V>, i: nat)
    requires Honest(s) && i in s.calls && s.calls[i].phase.Holding?
    ensures Honest(Commit(s, i))
  {
  }

  lemma CommitLog<K(!new), V(!new)>(s: State<K, V>, i: nat)
    requires i in s.calls && Logged(Answer(s, i, s.calls[i].value, true))
    ensures Logged(Commit(s, i))
  {
    var answered := Answer(s, i, s.calls[i].value, true);
    assert forall e <- answered.log :: EntryOf(answered, e);
  }

  lemma CommitKeeps<K(!new), V(!new)>(initial: map<K, V>, s: State<K, V>, i: nat)
    requires Ok(initial, s) && i in s.calls && s.calls[i].phase.Holding?
    ensures Ok(initial, Commit(s, i))
  {
    AnswerKeepsLog(s, i, s.calls[i].value, true);
    AnswerIsSequential(initial, s, i, s.calls[i].value, true);
    CommitLog(s, i);
    CommitIsHonest(s, i);
  }

  lemma ApplyKeeps<K(!new), V(!new)>(initial: map<K, V>, s: State<K, V>, step: Step<K, V>)
    requires Ok(initial, s)
    ensures Ok(initial, Apply(s, step))
  {
    match step
    case Arrive(i, key, value, probes) =>
      if i !in s.calls {
        assert forall e <- s.log :: EntryOf(s, e) && e.call != i;
      }
    case Abort(i) =>
      if i in s.calls && !s.calls[i].phase.Done? {
        EnterKeeps(initial, s, i, Aborted);
      }
    case Proceed(i) =>
      if i in s.calls {
        match s.calls[i].phase
        case Probing => ReadKeeps(initial, s, i, Looking);
        case Looking => ReadKeeps(initial, s, i, Missing);
        case Missing =>
          if s.calls[i].key in s.rows {
            EnterKeeps(initial, s, i, Violated);
          } else if !Reserved(s, s.calls[i].key) {
            EnterKeeps(initial, s, i, Holding);
          }
        case Holding => CommitKeeps(initial, s, i);
        case Violated => ReadKeeps(initial, s, i, Raised);
        case _ =>
      }
  }

  /** A step of one call moves that call only, and writes a row only when it commits an insert. */
  lemma OneCallMoves<K, V>(s: State<K, V>, i: nat)
    requires i in s.calls
    ensures var after := Apply(s, Proceed(i));
      && i in after.calls
      && after.calls == s.calls[i := s.calls[i].(phase := after.calls[i].phase)]
      && (s.calls[i].phase.Done? ==> after == s)
      && (!s.calls[i].phase.Holding? ==> after.rows == s.rows)
  {
  }

  function Quiescent<K(==), V>(rows: map<K, V>): State<K, V> { State(map[], rows, []) }

  /** Every interleaving linearizes: the answers are those of a sequential put-if-absent map in log order, the
      committed rows are that map, every answered call is in the log once, and no call ever raises because its
      violating row is missing. */
  lemma {:induction false} RacesLinearize<K(!new), V(!new)>(initial: map<K, V>, steps: seq<Step<K, V>>)
    ensures var end := Run(Quiescent(initial), steps);
      && Sequential(initial, end.log) && end.rows == Replay(initial, end.log)
      && Logged(end)
      && (forall i <- end.calls :: !end.calls[i].phase.Raised?)
    ensures Ok(initial, Run(Quiescent(initial), steps))
  {
    if steps != [] {
      RacesLinearize(initial, steps[..|steps| - 1]);
      ApplyKeeps(initial, Run(Quiescent(initial), steps[..|steps| - 1]), steps[|steps| - 1]);
    }
  }

  // ---------------------------------------------------------------- consequences

  lemma {:induction false} ReplayOnlyAdds<K(!new), V(!new)>(rows: map<K, V>, log: seq<Entry<K, V>>, n: nat)
    requires n <= |log|
    ensures forall k <- Replay(rows, log[..n]) ::
      k in Replay(rows, log) && Replay(rows, log)[k] == Replay(rows, log[..n])[k]
    decreases |log| - n
  {
    if n == |log| {
      assert log[..n] == log;
    } else {
      assert log[..n + 1][..n] == log[..n];
      ReplayOnlyAdds(rows, log, n + 1);
    }
  }

  lemma {:induction false} SequentialAt<K(!new), V(!new)>(rows: map<K, V>, log: seq<Entry<K, V>>, n: nat)
    requires Sequential(rows, log) && n < |log|
    ensures (log[n].row, log[n].created) == PutResult(Replay(rows, log[..n]), log[n].key, log[n].value)
    ensures log[n].key in Replay(rows, log) && Replay(rows, log)[log[n].key] == log[n].row
    decreases |log|
  {
    var m := |log| - 1;
    if n < m {
      SequentialAt(rows, log[..m], n);
      assert log[..m][..n] == log[..n];
      ReplayOnlyAdds(rows, log, m);
    }
  }

  /** After one answer for a key, no later answer creates it. */
  lemma LaterAnswersReuse<K(!new), V(!new)>(rows: map<K, V>, log: seq<Entry<K, V>>, a: nat, b: nat)
    requires Sequential(rows, log) && a < b < |log| && log[a].key == log[b].key
    ensures !log[b].created
  {
    SequentialAt(rows, log, b);
    ReplayOnlyAdds(rows, log[..b], a + 1);
    assert log[..b][..a + 1] == log[..a + 1] && log[..a + 1][..a] == log[..a];
  }

  /** Where an answered call stands in the log, and what its answer is worth. */
  lemma AnswerFacts<K(!new), V(!new)>(initial: map<K, V>, s: State<K, V>, i: nat) returns (a: nat)
    requires Ok(initial, s) && i in s.calls && s.calls[i].phase.Done?
    ensures var c := s.calls[i];
      && a < |s.log| && s.log[a] == Entry(i, c.key, c.value, c.phase.row, c.phase.created)
      && c.key in s.rows && s.rows[c.key] == c.phase.row
      && (c.phase.created ==> c.phase.row == c.value && c.key !in initial)
  {
    var c := s.calls[i];
    a :| 0 <= a < |s.log| && s.log[a] == Entry(i, c.key, c.value, c.phase.row, c.phase.created);
    SequentialAt(initial, s.log, a);
    ReplayOnlyAdds(initial, s.log[..a], 0);
    assert s.log[..a][..0] == [];
  }

  lemma AnswersAgreeIn<K(!new), V(!new)>(initial: map<K, V>, s: State<K, V>, i: nat, j: nat)
    requires Ok(initial, s) && i in s.calls && j in s.calls && s.calls[i].key == s.calls[j].key
    requires s.calls[i].phase.Done? && s.calls[j].phase.Done?
    ensures s.calls[i].phase.row == s.calls[j].phase.row
    ensures s.calls[i].phase.created && s.calls[j].phase.created ==> i == j
  {
    var a := AnswerFacts(initial, s, i);
    var b := AnswerFacts(initial, s, j);
    if a < b {
      LaterAnswersReuse(initial, s.log, a, b);
    } else if b < a {
      LaterAnswersReuse(initial, s.log, b, a);
    }
  }

  /** All answers for one key name the same row, and at most one of them created it: none when it was there before. */
  lemma AnswersAgree<K(!new), V(!new)>(initial: map<K, V>, steps: seq<Step<K, V>>, i: nat, j: nat)
    requires var end := Run(Quiescent(initial), steps);
      && i in end.calls && j in end.calls && end.calls[i].key == end.calls[j].key
      && end.calls[i].phase.Done? && end.calls[j].phase.Done?
    ensures var end := Run(Quiescent(initial), steps);
      var a, b := end.calls[i], end.calls[j];
      && a.key in end.rows && a.phase.row == b.phase.row == end.rows[a.key]
      && (a.phase.created && b.phase.created ==> i == j)
      && (a.phase.created ==> a.phase.row == a.value && a.key !in initial)
  {
    RacesLinearize(initial, steps);
    var end := Run(Quiescent(initial), steps);
    var _ := AnswerFacts(initial, end, i);
    AnswersAgreeIn(initial, end, i, j);
  }

  // ---------------------------------------------------------------- calls get their answers

  function Again<K(==), V>(s: State<K, V>, i: nat, n: nat): State<K, V> {
    if n == 0 then s else Apply(Again(s, i, n - 1), Proceed(i))
  }

  /** A call that looks while nobody else holds its key is answered within three of its own steps, as put-if-absent
      says: waiting is only ever for an uncommitted rival. */
  lemma UncontendedCallsAnswer<K, V>(s: State<K, V>, i: nat)
    requires i in s.calls && s.calls[i].phase.Looking? && !Reserved(s, s.calls[i].key)
    ensures var c, end := s.calls[i], Again(s, i, 3);
      var (row, created) := PutResult(s.rows, c.key, c.value);
      && end.calls == s.calls[i := c.(phase := Done(row, created))] && end.rows == Put(s.rows, c.key, c.value)
  {
    var key := s.calls[i].key;
    var s1 := Apply(s, Proceed(i));
    var s2 := Apply(s1, Proceed(i));
    var s3 := Apply(s2, Proceed(i));
    assert Again(s, i, 0) == s;
    assert Again(s, i, 1) == s1;
    assert Again(s, i, 2) == s2;
    assert Again(s, i, 3) == s3;
    if key !in s.rows {
      assert !Reserved(s1, key);
      assert s2.calls[i].phase.Holding?;
    }
  }

  /** A call that aborts after its insert gives its key back and leaves the rows alone. */
  lemma AbortsRelease<K, V>(s: State<K, V>, i: nat)
    requires Honest(s) && i in s.calls && s.calls[i].phase.Holding?
    ensures var end := Apply(s, Abort(i));
      !Reserved(end, s.calls[i].key) && end.rows == s.rows && end.calls == s.calls[i := s.calls[i].(phase := Aborted)]
  {
    var end := Apply(s, Abort(i));
    forall j <- end.calls ensures !(end.calls[j].key == s.calls[i].key && end.calls[j].phase.Holding?) {
      assert j != i ==> end.calls[j] == s.calls[j];
    }
  }

  /** A call that violated a committed key is answered with that row by its next step. */
  lemma ViolatorsAnswer<K, V>(s: State<K, V>, i: nat)
    requires i in s.calls && s.calls[i].phase.Violated? && s.calls[i].key in s.rows
    ensures var end := Apply(s, Proceed(i));
      end.rows == s.rows && end.calls == s.calls[i := s.calls[i].(phase := Done(s.rows[s.calls[i].key], false))]
  {
  }

  // ---------------------------------------------------------------- one call, in place

  /** The rows another transaction may commit between this call's look and its insert. */
  function Raced<K(==), V>(rows: map<K, V>, key: K, rival: Option<V>): map<K, V> {
    if rival.Some? then Put(rows, key, rival.value) else rows
  }

  /** A table with a unique key, as one transaction uses it. */
  class UniqueTable<K(==), V> {
    var rows: map<K, V>

    constructor ()
      ensures rows == map[]
    {
      rows := map[];
    }

    /** `create_for_job`: look; insert under a savepoint; on a violation roll the savepoint back and read the
        winner. `rival` is what a racing transaction commits in between. */
    method GetOrInsert(key: K, value: V, rival: Option<V>) returns (row: V, created: bool)
      modifies this
      ensures rows == Put(Raced(old(rows), key, rival), key, value)
      ensures (row, created) == PutResult(Raced(old(rows), key, rival), key, value)
    {
      if key in rows {
        return rows[key], false;
      }
      if rival.Some? {
        rows := rows[key := rival.value];
      }
      var violated := key in rows;
      if violated {
        return rows[key], false;
      }
      rows := rows[key := value];
      return value, true;
    }
  }
}
