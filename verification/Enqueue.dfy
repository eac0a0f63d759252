/** Idempotent enqueue of bodies and documents (app/domain/intake.py, app/domain/job_repository.py). */
module Enqueue {
  import opened Values
  import R = InsertRace

  // ---------------------------------------------------------------- request identity

  /** What a request hash covers: a document counts by its media type and raw payload. */
  datatype Envelope = Envelope(
    channel: string, sender: Option<string>, subject: string, body: string, document: Option<RawDocument>)

  datatype RawDocument = RawDocument(mediaType: string, text: string, content: Option<string>)

  function Payload(d: RawDocument): string {
    if d.mediaType == "text/plain" then d.text else if d.content.Some? then d.content.value else ""
  }

  /** The canonical JSON object; SHA-256 over its sorted encoding is taken as injective. */
  function Canonical(e: Envelope): map<string, Json> {
    var base := map["body" := JStr(e.body), "channel" := JStr(e.channel), "subject" := JStr(e.subject)];
    var sent := if e.sender.Some? then base["sender" := JStr(e.sender.value)] else base;
    if e.document.Some? then
      sent["document" := JObj(map["media_type" := JStr(e.document.value.mediaType),
                                  "payload_sha256" := JStr(Payload(e.document.value))])]
    else sent
  }

  predicate SameRequest(a: Envelope, b: Envelope) {
    && a.channel == b.channel && a.sender == b.sender && a.subject == b.subject && a.body == b.body
    && (a.document.Some? <==> b.document.Some?)
    && (a.document.Some? ==>
          && a.document.value.mediaType == b.document.value.mediaType
          && SameContent(a.document.value, b.document.value))
  }

  /** Plain documents are the same by their text, others by their raw content; none counts as empty. */
  predicate SameContent(a: RawDocument, b: RawDocument) {
    if a.mediaType == "text/plain" then a.text == b.text
    else a.content == b.content || {a.content, b.content} == {None, Some("")}
  }

  /** Two requests hash alike exactly when they are the same request; a body never hashes like a document. */
  lemma HashIdentifiesRequest(a: Envelope, b: Envelope)
    ensures Canonical(a) == Canonical(b) <==> SameRequest(a, b)
  {
    var x, y := Canonical(a), Canonical(b);
    assert ("sender" in x <==> a.sender.Some?) && ("sender" in y <==> b.sender.Some?);
    assert ("document" in x <==> a.document.Some?) && ("document" in y <==> b.document.Some?);
    assert x["body"] == JStr(a.body) && x["channel"] == JStr(a.channel) && x["subject"] == JStr(a.subject);
    assert y["body"] == JStr(b.body) && y["channel"] == JStr(b.channel) && y["subject"] == JStr(b.subject);
    if x == y && a.document.Some? {
      assert x["document"].members["media_type"] == y["document"].members["media_type"];
      assert x["document"].members["payload_sha256"] == y["document"].members["payload_sha256"];
    }
  }

  // ---------------------------------------------------------------- keys

  const MAX_KEY := 255

  function StripLeft(space: char -> bool, s: string): string {
    if s != "" && space(s[0]) then StripLeft(space, s[1..]) else s
  }

  function StripRight(space: char -> bool, s: string): string {
    if s != "" && space(s[|s| - 1]) then StripRight(space, s[..|s| - 1]) else s
  }

  function Strip(space: char -> bool, s: string): string { StripRight(space, StripLeft(space, s)) }

  /** `_validate_idempotency_key`; None is the raised error. */
  function ValidKey(space: char -> bool, raw: string): Option<string> {
    var key := Strip(space, raw);
    if key == "" || |key| > MAX_KEY then None else Some(key)
  }

  predicate Trimmed(space: char -> bool, s: string) {
    s == "" || (!space(s[0]) && !space(s[|s| - 1]))
  }

  lemma {:induction false} StripLeftTrims(space: char -> bool, s: string)
    ensures var t := StripLeft(space, s); t == "" || !space(t[0])
  {
    if s != "" && space(s[0]) {
      StripLeftTrims(space, s[1..]);
    }
  }

  lemma {:induction false} StripRightTrims(space: char -> bool, s: string)
    requires s == "" || !space(s[0])
    ensures Trimmed(space, StripRight(space, s))
  {
    if s != "" && space(s[|s| - 1]) {
      assert |s| > 1;
      StripRightTrims(space, s[..|s| - 1]);
    }
  }

  lemma {:induction false} TrimmedStays(space: char -> bool, s: string)
    requires Trimmed(space, s)
    ensures Strip(space, s) == s
  {
  }

  /** All of its characters are white space. */
  predicate AllSpace(space: char -> bool, s: string) { forall c <- s :: space(c) }

  lemma {:induction false} StripLeftExactly(space: char -> bool, s: string) returns (before: string)
    ensures s == before + StripLeft(space, s) && AllSpace(space, before)
  {
    before := "";
    if s != "" && space(s[0]) {
      before := StripLeftExactly(space, s[1..]);
      before := [s[0]] + before;
    }
  }

  lemma {:induction false} StripRightExactly(space: char -> bool, s: string) returns (after: string)
    ensures s == StripRight(space, s) + after && AllSpace(space, after)
  {
    after := "";
    if s != "" && space(s[|s| - 1]) {
      after := StripRightExactly(space, s[..|s| - 1]);
      after := after + [s[|s| - 1]];
    }
  }

  /** A trimmed text between white space. */
  predicate Wraps(space: char -> bool, raw: string, before: string, key: string, after: string) {
    raw == before + key + after && AllSpace(space, before) && AllSpace(space, after) && Trimmed(space, key)
  }

  lemma {:induction false} WrappedIsStripped(space: char -> bool, raw: string, before: string, key: string,
                                             after: string)
    requires Wraps(space, raw, before, key, after)
    ensures Strip(space, raw) == key
    decreases |before| + |after|
  {
    if before != "" {
      assert raw[0] == before[0] && raw[1..] == before[1..] + key + after;
      WrappedIsStripped(space, raw[1..], before[1..], key, after);
    } else if after != "" {
      if key == "" {
        assert raw == after;
        assert raw[0] == after[0] && raw[1..] == "" + key + after[1..];
        WrappedIsStripped(space, raw[1..], "", key, after[1..]);
      } else {
        var n := |raw| - 1;
        assert raw[0] == key[0] && raw[n] == after[|after| - 1] && raw[..n] == "" + key + after[..|after| - 1];
        WrappedIsStripped(space, raw[..n], "", key, after[..|after| - 1]);
        assert StripLeft(space, raw) == raw && StripLeft(space, raw[..n]) == raw[..n];
      }
    } else {
      assert raw == key;
      TrimmedStays(space, key);
    }
  }

  /** A raw key is accepted exactly when it is a trimmed text of 1 to 255 characters, perhaps between white space, and
      it is accepted as that text. */
  lemma KeysExactly(space: char -> bool, raw: string, key: string)
    ensures ValidKey(space, raw) == Some(key)
       <==> && 0 < |key| <= 255
            && exists before, after :: Wraps(space, raw, before, key, after)
  {
    StripLeftTrims(space, raw);
    StripRightTrims(space, StripLeft(space, raw));
    var before := StripLeftExactly(space, raw);
    var after := StripRightExactly(space, StripLeft(space, raw));
    assert Wraps(space, raw, before, Strip(space, raw), after);
    forall b, a | Wraps(space, raw, b, key, a) ensures Strip(space, raw) == key {
      WrappedIsStripped(space, raw, b, key, a);
    }
  }

  /** The document path validates its key twice; the second validation changes nothing. */
  lemma KeysAreCanonical(space: char -> bool, raw: string)
    ensures ValidKey(space, raw).Some? ==>
      var key := ValidKey(space, raw).value;
      Trimmed(space, key) && 0 < |key| <= MAX_KEY && ValidKey(space, key) == Some(key)
  {
    StripLeftTrims(space, raw);
    StripRightTrims(space, StripLeft(space, raw));
    if ValidKey(space, raw).Some? {
      TrimmedStays(space, Strip(space, raw));
    }
  }

  // ---------------------------------------------------------------- the service over its tables

  datatype Key = Key(tenant: Id, key: string)

  datatype Record = Record(hash: map<string, Json>, job: Id, trace: Id)

  datatype Made = Made(tenant: Id, trace: Id)

  datatype Request = Request(tenant: Id, rawKey: string, envelope: Envelope, job: Id, trace: Id)

  datatype System = System(race: R.State<Key, Record>, jobs: map<Id, Made>)

  /** A call may abort at any point before its answer: a document that fails to normalize, a missing profile,
      a database error. */
  datatype Step = Submit(call: nat, request: Request) | Proceed(call: nat) | Abort(call: nat)

  /** Job identifiers are never reused. */
  predicate FreshJob(s: System, job: Id) {
    job !in s.jobs && forall i <- s.race.calls :: s.race.calls[i].value.job != job
  }

  function RaceStep(space: char -> bool, s: System, step: Step): Option<R.Step<Key, Record>> {
    match step
    case Submit(i, r) =>
      var key := ValidKey(space, r.rawKey);
      if key.None? || i in s.race.calls || !FreshJob(s, r.job) then None
      else Some(R.Arrive(i, Key(r.tenant, key.value), Record(Canonical(r.envelope), r.job, r.trace),
                         r.envelope.document.Some?))
    case Proceed(i) => Some(R.Step.Proceed(i))
    case Abort(i) => Some(R.Step.Abort(i))
  }

  /** The job row is inserted in the savepoint of its idempotency record, so both commit or neither does. */
  function Apply(space: char -> bool, s: System, step: Step): System {
    var race := RaceStep(space, s, step);
    if race.None? then s
    else
      System(R.Apply(s.race, race.value),
             if step.Proceed? && step.call in s.race.calls && s.race.calls[step.call].phase.Holding? then
               var c := s.race.calls[step.call];
               s.jobs[c.value.job := Made(c.key.tenant, c.value.trace)]
             else s.jobs)
  }

  function Run(space: char -> bool, steps: seq<Step>): System {
    if steps == [] then System(R.Quiescent(map[]), map[])
    else Apply(space, Run(space, steps[..|steps| - 1]), steps[|steps| - 1])
  }

  datatype Reply = Unanswered | Created(job: Id, trace: Id) | Reused(job: Id, trace: Id) | Conflict

  /** `_existing_result`, or the fresh result of the creator. */
  function ReplyFor(row: Record, created: bool, hash: map<string, Json>): Reply {
    if created then Created(row.job, row.trace)
    else if row.hash == hash then Reused(row.job, row.trace)
    else Conflict
  }

  function ReplyOf(c: R.Call<Key, Record>): Reply {
    match c.phase
    case Done(row, created) => ReplyFor(row, created, c.value.hash)
    case _ => Unanswered
  }

  // ---------------------------------------------------------------- invariants

  /** Jobs and records are in bijection. */
  ghost predicate Matched(rows: map<Key, Record>, jobs: map<Id, Made>) {
    && (forall k <- rows :: rows[k].job in jobs && jobs[rows[k].job] == Made(k.tenant, rows[k].trace))
    && (forall j <- jobs :: exists k <- rows :: rows[k].job == j)
    && (forall k <- rows, m <- rows :: rows[k].job == rows[m].job ==> k == m)
  }

  type Calls = map<nat, R.Call<Key, Record>>

  /** Every call brings a job identifier of its own, which exists only once that call created its job. */
  ghost predicate OwnJobs(calls: Calls, jobs: map<Id, Made>) {
    && (forall i <- calls, j <- calls :: calls[i].value.job == calls[j].value.job ==> i == j)
    && (forall i <- calls :: calls[i].value.job in jobs ==> calls[i].phase.Done? && calls[i].phase.created)
  }

  ghost predicate SystemOk(s: System) {
    R.Ok(map[], s.race) && Matched(s.race.rows, s.jobs) && OwnJobs(s.race.calls, s.jobs)
  }

  lemma PairAdded(rows: map<Key, Record>, jobs: map<Id, Made>, key: Key, record: Record)
    requires Matched(rows, jobs) && key !in rows && record.job !in jobs
    ensures Matched(rows[key := record], jobs[record.job := Made(key.tenant, record.trace)])
  {
    var after := rows[key := record];
    var made := jobs[record.job := Made(key.tenant, record.trace)];
    forall j <- made
      ensures exists k <- after :: after[k].job == j
    {
      if j == record.job {
        assert after[key].job == j;
      } else {
        var k :| k in rows && rows[k].job == j;
        assert after[k].job == j;
      }
    }
  }

  lemma CallMoves(calls: Calls, jobs: map<Id, Made>, i: nat, phase: R.Phase<Record>)
    requires OwnJobs(calls, jobs) && i in calls && !calls[i].phase.Done?
    ensures OwnJobs(calls[i := calls[i].(phase := phase)], jobs)
  {
  }

  lemma CallCreates(calls: Calls, jobs: map<Id, Made>, i: nat, made: Made)
    requires OwnJobs(calls, jobs) && i in calls
    ensures OwnJobs(calls[i := calls[i].(phase := R.Done(calls[i].value, true))], jobs[calls[i].value.job := made])
  {
  }

  lemma CallArrives(calls: Calls, jobs: map<Id, Made>, i: nat, call: R.Call<Key, Record>)
    requires OwnJobs(calls, jobs) && i !in calls && call.value.job !in jobs
    requires forall j <- calls :: calls[j].value.job != call.value.job
    ensures OwnJobs(calls[i := call], jobs)
  {
  }

  lemma CommitMatches(space: char -> bool, s: System, step: Step)
    requires SystemOk(s) && step.Proceed? && step.call in s.race.calls && s.race.calls[step.call].phase.Holding?
    ensures var after := Apply(space, s, step);
      Matched(after.race.rows, after.jobs) && OwnJobs(after.race.calls, after.jobs)
  {
    var c := s.race.calls[step.call];
    PairAdded(s.race.rows, s.jobs, c.key, c.value);
    CallCreates(s.race.calls, s.jobs, step.call, Made(c.key.tenant, c.value.trace));
  }

  /** Any other step leaves rows and jobs alone. */
  lemma OthersMatch(space: char -> bool, s: System, step: Step)
    requires SystemOk(s)
    requires !(step.Proceed? && step.call in s.race.calls && s.race.calls[step.call].phase.Holding?)
    ensures var after := Apply(space, s, step);
      after.race.rows == s.race.rows && after.jobs == s.jobs && OwnJobs(after.race.calls, after.jobs)
  {
    var after := Apply(space, s, step);
    match step
    case Submit(i, r) =>
      if RaceStep(space, s, step).Some? {
        CallArrives(s.race.calls, s.jobs, i, after.race.calls[i]);
      }
    case Proceed(i) =>
      if i in s.race.calls {
        R.OneCallMoves(s.race, i);
        if !s.race.calls[i].phase.Done? {
          CallMoves(s.race.calls, s.jobs, i, after.race.calls[i].phase);
        }
      }
    case Abort(i) =>
      if i in s.race.calls && !s.race.calls[i].phase.Done? {
        CallMoves(s.race.calls, s.jobs, i, R.Aborted);
      }
  }

  lemma {:induction false} EnqueueIsOk(space: char -> bool, steps: seq<Step>)
    ensures SystemOk(Run(space, steps))
  {
    if steps != [] {
      var s, step := Run(space, steps[..|steps| - 1]), steps[|steps| - 1];
      EnqueueIsOk(space, steps[..|steps| - 1]);
      if RaceStep(space, s, step).Some? {
        R.ApplyKeeps(map[], s.race, RaceStep(space, s, step).value);
      }
      if step.Proceed? && step.call in s.race.calls && s.race.calls[step.call].phase.Holding? {
        CommitMatches(space, s, step);
      } else {
        OthersMatch(space, s, step);
      }
    }
  }

  /** For every interleaving of body and document enqueues: jobs are in bijection with idempotency records, so a
      reused record always has its job and trace, and no call fails for a missing row. */
  lemma JobsMatchRecords(space: char -> bool, steps: seq<Step>)
    ensures var s := Run(space, steps);
      && (forall k <- s.race.rows :: s.race.rows[k].job in s.jobs
            && s.jobs[s.race.rows[k].job] == Made(k.tenant, s.race.rows[k].trace))
      && (forall j <- s.jobs :: exists k <- s.race.rows :: s.race.rows[k].job == j)
      && (forall k <- s.race.rows, m <- s.race.rows :: s.race.rows[k].job == s.race.rows[m].job ==> k == m)
      && (forall i <- s.race.calls :: !s.race.calls[i].phase.Raised?)
  {
    EnqueueIsOk(space, steps);
  }

  /** Any two answered calls of one tenant and stripped key: one record, made by at most one of them, and each
      call learns that record's job and trace when its request is the same, a conflict when it differs. */
  lemma OneJobPerKey(space: char -> bool, steps: seq<Step>, i: nat, j: nat)
    requires var s := Run(space, steps);
      && i in s.race.calls && j in s.race.calls && s.race.calls[i].key == s.race.calls[j].key
      && s.race.calls[i].phase.Done? && s.race.calls[j].phase.Done?
    ensures var s := Run(space, steps);
      var a, b, key := ReplyOf(s.race.calls[i]), ReplyOf(s.race.calls[j]), s.race.calls[i].key;
      && key in s.race.rows
      && (a.Created? && b.Created? ==> i == j)
      && (a.Created? <==> s.race.calls[i].phase.created)
      && (a == Conflict <==> s.race.rows[key].hash != s.race.calls[i].value.hash)
      && (!a.Conflict? ==> a.job == s.race.rows[key].job && a.trace == s.race.rows[key].trace)
      && (!a.Conflict? && !b.Conflict? ==> a.job == b.job && a.trace == b.trace)
  {
    EnqueueIsOk(space, steps);
    var race := Run(space, steps).race;
    var x := R.AnswerFacts(map[], race, i);
    var y := R.AnswerFacts(map[], race, j);
    if x < y {
      R.LaterAnswersReuse(map[], race.log, x, y);
    } else if y < x {
      R.LaterAnswersReuse(map[], race.log, y, x);
    }
  }

  /** The answers are those of a sequential put-if-absent map, whatever the interleaving. */
  lemma EnqueueLinearizes(space: char -> bool, steps: seq<Step>)
    ensures var race := Run(space, steps).race;
      && R.Sequential(map[], race.log) && race.rows == R.Replay(map[], race.log) && R.Logged(race)
  {
    EnqueueIsOk(space, steps);
  }

  /** A conflict or a reuse commits nothing: only the step that answers "created" changes rows or jobs. */
  lemma OnlyCreationWrites(space: char -> bool, s: System, step: Step)
    requires Apply(space, s, step).race.rows != s.race.rows || Apply(space, s, step).jobs != s.jobs
    ensures step.Proceed? && step.call in s.race.calls && s.race.calls[step.call].phase.Holding?
    ensures ReplyOf(Apply(space, s, step).race.calls[step.call]).Created?
  {
  }

  /** What a submitted request becomes: refused without a trace for a bad key, else a call for its tenant and trimmed
      key that carries its canonical form and its own job; a document probes before it is prepared. */
  lemma SubmissionsExactly(space: char -> bool, s: System, i: nat, r: Request)
    requires i !in s.race.calls && FreshJob(s, r.job)
    ensures var after := Apply(space, s, Submit(i, r));
      && after.jobs == s.jobs && after.race.rows == s.race.rows && after.race.log == s.race.log
      && (i in after.race.calls <==> ValidKey(space, r.rawKey).Some?)
      && (i !in after.race.calls ==> after == s)
      && (i in after.race.calls ==>
            var c := after.race.calls[i];
            && c.key == Key(r.tenant, ValidKey(space, r.rawKey).value)
            && c.value == Record(Canonical(r.envelope), r.job, r.trace)
            && c.phase == (if r.envelope.document.Some? then R.Probing else R.Looking)
            && after.race.calls == s.race.calls[i := c])
  {
  }

  // ---------------------------------------------------------------- one enqueue, in place

  class IntakeTables {
    var records: map<Key, Record>
    var jobs: map<Id, Made>

    constructor ()
      ensures records == map[] && jobs == map[]
    {
      records, jobs := map[], map[];
    }

    /** The tables' own consistency. */
    ghost predicate Valid()
      reads this
    {
      Matched(records, jobs)
    }

    /** What a racing request commits while this one is between its look and its insert. */
    method CommitRival(key: Key, rival: Record)
      requires Valid() && key !in records && rival.job !in jobs
      modifies this
      ensures Valid() && records == old(records)[key := rival]
      ensures jobs == old(jobs)[rival.job := Made(key.tenant, rival.trace)]
    {
      PairAdded(records, jobs, key, rival);
      records := records[key := rival];
      jobs := jobs[rival.job := Made(key.tenant, rival.trace)];
    }

    /** `_enqueue`: validate the key; look; create job and record under one savepoint; on a violation undo both and
        answer from the winner. None is the raised key error. */
    method EnqueueOne(space: char -> bool, r: Request, rival: Option<Record>) returns (reply: Option<Reply>)
      requires Valid() && r.job !in jobs
      requires rival.Some? ==> rival.value.job !in jobs && rival.value.job != r.job
      modifies this
      ensures Valid()
      ensures var key := ValidKey(space, r.rawKey);
        if key.None? then reply.None? && records == old(records) && jobs == old(jobs)
        else
          var at, mine := Key(r.tenant, key.value), Record(Canonical(r.envelope), r.job, r.trace);
          var before := R.Raced(old(records), at, rival);
          var (row, created) := R.PutResult(before, at, mine);
          records == R.Put(before, at, mine) && reply == Some(ReplyFor(row, created, mine.hash))
      ensures r.job in jobs <==> reply.Some? && reply.value.Created?
    {
      var key := ValidKey(space, r.rawKey);
      if key.None? {
        return None;
      }
      var at, mine := Key(r.tenant, key.value), Record(Canonical(r.envelope), r.job, r.trace);
      if at in records {
        return Some(ReplyFor(records[at], false, mine.hash));
      }
      if rival.Some? {
        CommitRival(at, rival.value);
      }
      var savepoint := jobs;
      jobs := jobs[r.job := Made(r.tenant, r.trace)];
      if at in records {
        jobs := savepoint;
        return Some(ReplyFor(records[at], false, mine.hash));
      }
      PairAdded(records, savepoint, at, mine);
      records := records[at := mine];
      reply := Some(Created(r.job, r.trace));
    }
  }
}
