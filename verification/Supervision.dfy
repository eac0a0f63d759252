/** The supervisor of concurrent workers: slots, holders and tenant exclusion (app/workers/agent_worker.py). */
module Supervision {
  import opened Values
  import D = Durable

  /** The task whose claim the supervisor is waiting for, and the tenants excluded when it was created. */
  datatype Starting = Starting(task: nat, excluded: set<Id>)

  datatype View = View(tasks: set<nat>, holders: map<nat, seq<Id>>, active: set<Id>, starting: Option<Starting>)

  datatype Event =
    | Start(task: nat)
    | Claim(tenant: Id)
    | Reap(task: nat)
    | CancelAll(late: Option<Id>)

  const IDLE := View({}, map[], {}, None)

  function Claimed(v: View, tenant: Id): View
    requires v.starting.Some?
  {
    var task := v.starting.value.task;
    v.(holders := v.holders[task := (if task in v.holders then v.holders[task] else []) + [tenant]],
       active := v.active + {tenant}, starting := None)
  }

  function Discarded(active: set<Id>, holder: seq<Id>): set<Id> { active - (set t | t in holder) }

  function DiscardedAll(active: set<Id>, holders: map<nat, seq<Id>>): set<Id> {
    active - (set task, t | task in holders && t in holders[task] :: t)
  }

  function Cancelled(v: View): View { View({}, map[], DiscardedAll(v.active, v.holders), None) }

  /** One step of `serve`; a task that is being cancelled may still finish its claim. */
  function Step(limit: nat, v: View, e: Event): View {
    match e
    case Start(task) =>
      if v.starting.Some? || |v.tasks| >= limit || task in v.tasks then v
      else v.(tasks := v.tasks + {task}, holders := v.holders[task := []], starting := Some(Starting(task, v.active)))
    case Claim(tenant) =>
      if v.starting.None? || tenant in v.starting.value.excluded then v else Claimed(v, tenant)
    case Reap(task) =>
      if task !in v.tasks || (v.starting.Some? && v.starting.value.task != task) then v
      else View(v.tasks - {task}, v.holders - {task},
                Discarded(v.active, if task in v.holders then v.holders[task] else []), None)
    case CancelAll(late) =>
      if late.Some? && v.starting.Some? && late.value !in v.starting.value.excluded
      then Cancelled(Claimed(v, late.value)) else Cancelled(v)
  }

  function Run(limit: nat, events: seq<Event>): View {
    if events == [] then IDLE else Step(limit, Run(limit, events[..|events| - 1]), events[|events| - 1])
  }

  /** Slots are bounded; each task holds at most one tenant, no two hold the same, and the active tenants are
      exactly those held. */
  ghost predicate Fair(limit: nat, v: View) {
    && |v.tasks| <= limit && v.holders.Keys == v.tasks
    && (forall t <- v.tasks :: |v.holders[t]| <= 1)
    && (forall t <- v.tasks, u <- v.tasks, x: Id :: x in v.holders[t] && x in v.holders[u] ==> t == u)
    && (forall x: Id :: x in v.active <==> exists t <- v.tasks :: x in v.holders[t])
    && (v.starting.Some? ==>
          && v.starting.value.task in v.tasks && v.holders[v.starting.value.task] == []
          && v.starting.value.excluded == v.active)
  }

  lemma StartKeeps(limit: nat, v: View, task: nat)
    requires Fair(limit, v)
    ensures Fair(limit, Step(limit, v, Start(task)))
  {
    if v.starting.None? && |v.tasks| < limit && task !in v.tasks {
      var after := Step(limit, v, Start(task));
      assert after.holders.Keys == after.tasks;
      forall x: Id
        ensures x in after.active <==> exists t <- after.tasks :: x in after.holders[t]
      {
        if x in v.active {
          var t :| t in v.tasks && x in v.holders[t];
          assert t in after.tasks && x in after.holders[t];
        }
      }
    }
  }

  lemma ClaimKeeps(limit: nat, v: View, tenant: Id)
    requires Fair(limit, v) && v.starting.Some? && tenant !in v.starting.value.excluded
    ensures Fair(limit, Claimed(v, tenant))
  {
    var task := v.starting.value.task;
    var after := Claimed(v, tenant);
    assert after.holders.Keys == after.tasks;
    assert after.holders[task] == [tenant];
    forall x: Id
      ensures x in after.active <==> exists t <- after.tasks :: x in after.holders[t]
    {
      if x == tenant {
        assert x in after.holders[task];
      } else if x in v.active {
        var t :| t in v.tasks && x in v.holders[t];
        assert t != task && x in after.holders[t];
      }
    }
  }

  lemma ReapKeeps(limit: nat, v: View, task: nat)
    requires Fair(limit, v)
    ensures Fair(limit, Step(limit, v, Reap(task)))
  {
    if task in v.tasks && (v.starting.Some? ==> v.starting.value.task == task) {
      var after := Step(limit, v, Reap(task));
      assert |after.tasks| == |v.tasks| - 1;
      forall x: Id
        ensures x in after.active <==> exists t <- after.tasks :: x in after.holders[t]
      {
        if x in after.active {
          var t :| t in v.tasks && x in v.holders[t];
          assert t in after.tasks && x in after.holders[t];
        }
      }
    }
  }

  lemma CancelEmpties(limit: nat, v: View)
    requires Fair(limit, v)
    ensures Cancelled(v) == IDLE
  {
  }

  /** Discarding every held tenant leaves no active one. */
  lemma NoneHeldNoneActive(limit: nat, v: View, active: set<Id>)
    requires Fair(limit, v) && active <= v.active
    requires forall task <- v.holders, x <- v.holders[task] :: x !in active
    ensures active == {}
  {
    assert forall x <- active :: x in v.active && exists t <- v.tasks :: x in v.holders[t];
    assert forall x: Id :: x !in active;
  }

  lemma StepKeeps(limit: nat, v: View, e: Event)
    requires Fair(limit, v)
    ensures Fair(limit, Step(limit, v, e))
    ensures e.CancelAll? ==> Step(limit, v, e) == IDLE
  {
    match e
    case Start(task) => StartKeeps(limit, v, task);
    case Claim(tenant) =>
      if v.starting.Some? && tenant !in v.starting.value.excluded {
        ClaimKeeps(limit, v, tenant);
      }
    case Reap(task) => ReapKeeps(limit, v, task);
    case CancelAll(late) =>
      CancelEmpties(limit, v);
      if late.Some? && v.starting.Some? && late.value !in v.starting.value.excluded {
        ClaimKeeps(limit, v, late.value);
        CancelEmpties(limit, Claimed(v, late.value));
      }
  }

  /** Over every run of the supervisor, and cancelling at any moment leaves nothing behind. */
  lemma {:induction false} SupervisionIsFair(limit: nat, events: seq<Event>, late: Option<Id>)
    ensures Fair(limit, Run(limit, events))
    ensures Step(limit, Run(limit, events), CancelAll(late)) == IDLE
  {
    if events != [] {
      SupervisionIsFair(limit, events[..|events| - 1], None);
      StepKeeps(limit, Run(limit, events[..|events| - 1]), events[|events| - 1]);
    }
    StepKeeps(limit, Run(limit, events), CancelAll(late));
  }

  /** The views of a supervisor that has only taken the steps of `serve`. */
  ghost predicate Reached(limit: nat, v: View) { exists events :: v == Run(limit, events) }

  lemma ReachedIsFair(limit: nat, v: View)
    requires Reached(limit, v)
    ensures Fair(limit, v)
  {
    var events :| v == Run(limit, events);
    SupervisionIsFair(limit, events, None);
  }

  lemma ReachedNext(limit: nat, v: View, e: Event)
    requires Reached(limit, v)
    ensures Reached(limit, Step(limit, v, e))
  {
    var events :| v == Run(limit, events);
    assert (events + [e])[..|events|] == events;
    assert Step(limit, v, e) == Run(limit, events + [e]);
  }

  /** The claim of the starting task always counts: a claimable job belongs to no active tenant, and its tenant
      becomes the only one that task holds. */
  lemma ClaimsAreFair(limit: nat, v: View, job: D.Job, now: Time)
    requires Reached(limit, v) && v.starting.Some? && D.Claimable(job, now, v.starting.value.excluded)
    ensures job.tenant !in v.active
    ensures var after := Step(limit, v, Claim(job.tenant));
      after.holders == v.holders[v.starting.value.task := [job.tenant]] && after.active == v.active + {job.tenant}
  {
    ReachedIsFair(limit, v);
    assert [] + [job.tenant] == [job.tenant];
  }

  // ---------------------------------------------------------------- the supervisor's mutable collections

  lemma OneTaskMore(holders: map<nat, seq<Id>>, task: nat, held: seq<Id>)
    requires task !in holders
    ensures holders[task := []][task := held] == holders[task := held]
    ensures holders[task := held] - {task} == holders
  {
  }

  class Supervisor {
    const limit: nat
    var tasks: set<nat>
    var holders: map<nat, seq<Id>>
    var active: set<Id>
    var starting: Option<Starting>

    constructor (limit: nat)
      ensures this.limit == limit && Value() == IDLE && Valid()
    {
      this.limit := limit;
      tasks, holders, active, starting := {}, map[], {}, None;
      new;
      assert Value() == Run(limit, []);
    }

    function Value(): View
      reads this
    {
      View(tasks, holders, active, starting)
    }

    /** The collections are those of some run, hence fair. */
    ghost predicate Valid()
      reads this
    {
      Reached(limit, Value())
    }

    /** A new slot: the task is told which tenants to leave alone. */
    method StartTask(task: nat)
      requires Valid() && starting.None? && |tasks| < limit && task !in tasks
      modifies this
      ensures Valid() && Value() == Step(limit, old(Value()), Start(task))
      ensures starting == Some(Starting(task, old(active))) && holders == old(holders)[task := []]
    {
      ReachedNext(limit, Value(), Start(task));
      tasks := tasks + {task};
      holders := holders[task := []];
      starting := Some(Starting(task, active));
    }

    /** `reserve`, called by the starting task with the tenant it claimed. */
    method Reserve(tenant: Id)
      requires Valid() && starting.Some? && tenant !in starting.value.excluded
      modifies this
      ensures Valid() && Value() == Step(limit, old(Value()), Claim(tenant))
      ensures holders == old(holders)[old(starting).value.task := [tenant]]
    {
      ReachedIsFair(limit, Value());
      ReachedNext(limit, Value(), Claim(tenant));
      assert [] + [tenant] == [tenant];
      active := active + {tenant};
      holders := holders[starting.value.task := holders[starting.value.task] + [tenant]];
      starting := None;
    }

    /** A finished task gives its tenant back. */
    method ReapTask(task: nat)
      requires Valid() && task in tasks && (starting.Some? ==> starting.value.task == task)
      modifies this
      ensures Valid() && Value() == Step(limit, old(Value()), Reap(task))
      ensures holders == old(holders) - {task} && tasks == old(tasks) - {task}
    {
      ReachedIsFair(limit, Value());
      ReachedNext(limit, Value(), Reap(task));
      tasks := tasks - {task};
      var holder := holders[task];
      holders := holders - {task};
      starting := None;
      for i := 0 to |holder|
        invariant tasks == old(tasks) - {task} && holders == old(holders) - {task} && starting.None?
        invariant active == Discarded(old(active), holder[..i])
      {
        assert holder[..i + 1] == holder[..i] + [holder[i]];
        active := active - {holder[i]};
      }
      assert holder[..|holder|] == holder;
    }

    /** `cancel_tasks` discards the held tenants one by one; that empties the active set because it held no others. */
    method CancelTasks()
      requires Valid()
      modifies this
      ensures Valid() && Value() == IDLE
    {
      ghost var before := Value();
      tasks := {};
      starting := None;
      var left := holders.Keys;
      while left != {}
        invariant left <= holders.Keys && holders == before.holders && active <= before.active
        invariant tasks == {} && starting.None?
        invariant forall task <- holders, x <- holders[task] :: task !in left ==> x !in active
        decreases |left|
      {
        var task :| task in left;
        active := active - (set x | x in holders[task]);
        left := left - {task};
      }
      ReachedIsFair(limit, before);
      NoneHeldNoneActive(limit, before, active);
      holders := map[];
      assert Value() == Run(limit, []);
    }

    /** One started task: create it, let it claim, and reap it unless it keeps working. */
    method RunSlot(task: nat, outcome: Outcome)
      requires Valid() && starting.None? && |tasks| < limit && task !in tasks && task !in holders
      modifies this
      ensures Valid() && starting.None?
      ensures tasks == old(tasks)
        + (if outcome.Works? && !outcome.done && outcome.tenant !in old(active) then {task} else {})
      ensures holders
        == if outcome.Works? && !outcome.done && outcome.tenant !in old(active)
           then old(holders)[task := [outcome.tenant]] else old(holders)
    {
      var keep := outcome.Works? && !outcome.done && outcome.tenant !in active;
      var claimed := ClaimOf(outcome);
      ghost var was := holders;
      StartTask(task);
      if claimed.Some? && claimed.value !in starting.value.excluded {
        Reserve(claimed.value);
      }
      OneTaskMore(was, task, holders[task]);
      if !keep {
        ReapTask(task);
      }
    }

    /** The inner loop of `serve`: start tasks until the slots are full or one finds no work. The outcomes are
        what the started tasks report; after a failure every task is cancelled. */
    method FillSlots(outcomes: seq<Outcome>, names: seq<nat>) returns (used: nat, failed: bool)
      requires Valid() && starting.None? && |names| == |outcomes|
      requires forall i | 0 <= i < |names| :: names[i] !in tasks && forall j | 0 <= j < i :: names[j] != names[i]
      modifies this
      ensures Valid() && starting.None? && used <= |outcomes|
      ensures failed ==> Value() == IDLE
      ensures !failed ==> used == |outcomes| || |tasks| >= limit || (used > 0 && outcomes[used - 1].NoWork?)
      ensures !failed ==> forall t <- old(holders) :: t in holders && holders[t] == old(holders)[t]
    {
      used, failed := 0, false;
      while |tasks| < limit && used < |outcomes|
        invariant Valid() && starting.None? && used <= |outcomes|
        invariant forall i | used <= i < |names| :: names[i] !in tasks
        invariant forall t <- old(holders) :: t in holders && holders[t] == old(holders)[t]
      {
        assert holders.Keys == tasks by {
          ReachedIsFair(limit, Value());
        }
        RunSlot(names[used], outcomes[used]);
        used := used + 1;
        if outcomes[used - 1].Breaks? {
          CancelTasks();
          failed := true;
          return;
        }
        if outcomes[used - 1].NoWork? {
          return;
        }
      }
    }
  }

  /** A started task claims a job and works on (or is done already), finds none, or raises, before or after its
      claim. */
  datatype Outcome = Works(tenant: Id, done: bool) | NoWork | Breaks(claimed: Option<Id>)

  function ClaimOf(o: Outcome): Option<Id> {
    match o
    case Works(tenant, _) => Some(tenant)
    case NoWork => None
    case Breaks(claimed) => claimed
  }
}
