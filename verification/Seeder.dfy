// The recurring seeder object of manager/recurring.py, proved to run the machine of Recurring.
module Seeders {
  import opened Basics
  import opened Text
  import opened TaskTable
  import opened Recurring
  import opened StateStores
  import opened Chains

  datatype Spec = Spec(id: string, enabled: bool)

  /** What one template calls for. */
  function Plan(q: State, t: string, now: real): seq<Step> {
    if NextAt(q.cursors, t) > now then []
    else if PreviousActive(q.tasks, q.cursors, t) then [Postpone(t, now)]
    else [Insert(t, now), Advance]
  }

  /** Where that leads. */
  function Visited(templates: map<string, Template>, q: State, t: string, now: real): State {
    if NextAt(q.cursors, t) > now then q
    else if PreviousActive(q.tasks, q.cursors, t) then Next(templates, q, Postpone(t, now))
    else Next(templates, Next(templates, q, Insert(t, now)), Advance)
  }

  datatype Round = Round(steps: seq<Step>, end: State)

  /** A tick visits the enabled templates in configuration order. */
  function RoundOf(templates: map<string, Template>, specs: seq<Spec>, q: State, now: real): Round {
    if specs == [] then Round([], q)
    else
      var before := RoundOf(templates, specs[..|specs| - 1], q, now);
      var spec := specs[|specs| - 1];
      if spec.enabled
      then Round(before.steps + Plan(before.end, spec.id, now), Visited(templates, before.end, spec.id, now))
      else before
  }

  // ----- what a tick does to each template -----

  ghost predicate EnabledIn(specs: seq<Spec>, t: string) { exists i | 0 <= i < |specs| :: specs[i].enabled && specs[i].id == t }

  /** Enabled, and its next due time has come. */
  ghost predicate Called(specs: seq<Spec>, q: State, t: string, now: real) {
    EnabledIn(specs, t) && (t in q.cursors ==> q.cursors[t].nextAt <= now) && (t !in q.cursors ==> now >= 0.0)
  }

  /** The task the cursor names, if any, is in the table. */
  predicate Traced(q: State, t: string) { t in q.cursors && q.cursors[t].taskId != "" ==> q.cursors[t].taskId in q.tasks }

  predicate Busy(q: State, t: string) {
    && t in q.cursors && q.cursors[t].taskId != "" && q.cursors[t].taskId in q.tasks
    && q.tasks[q.cursors[t].taskId].status in {Queued, Running}
  }

  function Number(q: State, t: string): nat { if t in q.cursors then q.cursors[t].sequence + 1 else 1 }

  /** While the previous task is unfinished, only the due time moves, by at most a minute. */
  predicate Delayed(template: Template, before: Cursor, after: Cursor, now: real) {
    && after.taskId == before.taskId && after.sequence == before.sequence
    && after.nextAt == now + if template.interval < 60.0 then template.interval else 60.0
  }

  /** Otherwise the next number gets its queued row, and the cursor names it and waits one interval. */
  predicate Renewed(template: Template, t: string, k: nat, q: State, end: State, now: real) {
    && t in end.cursors && end.cursors[t] == Cursor(TaskId(t, k), k, now + template.interval)
    && TaskId(t, k) in end.tasks
    && (TaskId(t, k) !in q.tasks ==>
          end.tasks[TaskId(t, k)] == Task(template.kind, template.objective, template.payload, Queued, now, 0, now))
  }

  predicate Settled(templates: map<string, Template>, q: State, end: State, t: string, now: real) {
    && t in templates
    && if Busy(q, t) then t in end.cursors && Delayed(templates[t], q.cursors[t], end.cursors[t], now)
       else Renewed(templates[t], t, Number(q, t), q, end, now)
  }

  predicate SameCursor(q: State, end: State, t: string) {
    (t in q.cursors <==> t in end.cursors) && (t in q.cursors ==> q.cursors[t] == end.cursors[t])
  }

  /** Rows are kept, and every new one is the next number of a called template. */
  ghost predicate OnlyAdds(specs: seq<Spec>, q: State, end: State, now: real) {
    && (forall id | id in q.tasks :: id in end.tasks && end.tasks[id] == q.tasks[id])
    && (forall id | id in end.tasks && id !in q.tasks ::
          exists t :: Called(specs, q, t, now) && !Busy(q, t) && id == TaskId(t, Number(q, t)))
  }

  ghost predicate Seeded(templates: map<string, Template>, specs: seq<Spec>, q: State, end: State, now: real) {
    && end.seeding == q.seeding && OnlyAdds(specs, q, end, now)
    && (forall t | !Called(specs, q, t, now) :: SameCursor(q, end, t))
    && (forall t | Called(specs, q, t, now) && Traced(q, t) :: Settled(templates, q, end, t, now))
    && (forall t | Called(specs, q, t, now) :: NextAt(end.cursors, t) > now)
  }

  lemma EnabledNext(specs: seq<Spec>, spec: Spec, t: string)
    ensures EnabledIn(specs + [spec], t) <==> EnabledIn(specs, t) || (spec.enabled && spec.id == t)
  {
    var all := specs + [spec];
    assert all[|specs|] == spec;
    if EnabledIn(specs, t) {
      var i :| 0 <= i < |specs| && specs[i].enabled && specs[i].id == t;
      assert all[i] == specs[i];
    }
  }

  /** Nothing changes when the last template listed is disabled or no longer due. */
  lemma SkipSeeds(templates: map<string, Template>, specs: seq<Spec>, q: State, mid: State, spec: Spec, now: real)
    requires Seeded(templates, specs, q, mid, now) && (spec.enabled ==> NextAt(mid.cursors, spec.id) > now)
    ensures Seeded(templates, specs + [spec], q, mid, now)
  {
    forall t ensures Called(specs + [spec], q, t, now) <==> Called(specs, q, t, now) {
      EnabledNext(specs, spec, t);
      assert SameCursor(q, mid, t) || Called(specs, q, t, now);
    }
  }

  lemma PutOff(templates: map<string, Template>, q: State, mid: State, t: string, now: real)
    requires q.seeding == None && mid.seeding == None && t in templates && templates[t].interval > 0.0
    requires SameCursor(q, mid, t) && NextAt(mid.cursors, t) <= now
    requires forall id | id in q.tasks :: id in mid.tasks && mid.tasks[id] == q.tasks[id]
    requires PreviousActive(mid.tasks, mid.cursors, t)
    ensures var end := Next(templates, mid, Postpone(t, now));
            && end.seeding == None && NextAt(end.cursors, t) > now && end.tasks == mid.tasks
            && (forall u | u != t :: SameCursor(mid, end, u))
            && (Traced(q, t) ==> Settled(templates, q, end, t, now))
  {
  }

  lemma SetUp(templates: map<string, Template>, q: State, mid: State, t: string, now: real)
    requires q.seeding == None && mid.seeding == None && t in templates && templates[t].interval > 0.0
    requires SameCursor(q, mid, t) && NextAt(mid.cursors, t) <= now
    requires forall id | id in q.tasks :: id in mid.tasks && mid.tasks[id] == q.tasks[id]
    requires !PreviousActive(mid.tasks, mid.cursors, t)
    requires TaskId(t, Number(q, t)) in mid.tasks ==> TaskId(t, Number(q, t)) in q.tasks
    ensures var end := Next(templates, Next(templates, mid, Insert(t, now)), Advance);
            && end.seeding == None && NextAt(end.cursors, t) > now
            && !Busy(q, t) && Renewed(templates[t], t, Number(q, t), q, end, now)
            && (forall id | id in mid.tasks :: id in end.tasks && end.tasks[id] == mid.tasks[id])
            && (forall id | id in end.tasks && id !in mid.tasks :: id == TaskId(t, Number(q, t)))
            && (forall u | u != t :: SameCursor(mid, end, u))
  {
    var id, k := TaskId(t, Number(q, t)), Number(q, t);
    assert NewId(mid.cursors, t) == id && SequenceOf(mid.cursors, t) + 1 == k;
    var added := Next(templates, mid, Insert(t, now));
    var row := Task(templates[t].kind, templates[t].objective, templates[t].payload, Queued, now, 0, now);
    assert added.tasks == if id in mid.tasks then mid.tasks else mid.tasks[id := row];
    assert added.seeding == Some(Seeding(t, k, now)) && added.cursors == mid.cursors;
    assert Next(templates, added, Advance) == State(added.tasks, mid.cursors[t := Cursor(id, k, now + templates[t].interval)], None);
  }

  /** The visit of a template that is still due. */
  lemma VisitSettles(templates: map<string, Template>, q: State, mid: State, t: string, now: real)
    requires q.seeding == None && mid.seeding == None && t in templates && templates[t].interval > 0.0
    requires SameCursor(q, mid, t) && NextAt(mid.cursors, t) <= now
    requires forall id | id in q.tasks :: id in mid.tasks && mid.tasks[id] == q.tasks[id]
    requires TaskId(t, Number(q, t)) in mid.tasks ==> TaskId(t, Number(q, t)) in q.tasks
    ensures var end := Visited(templates, mid, t, now);
            && end.seeding == None && NextAt(end.cursors, t) > now
            && (forall id | id in mid.tasks :: id in end.tasks && end.tasks[id] == mid.tasks[id])
            && (forall id | id in end.tasks && id !in mid.tasks :: id == TaskId(t, Number(q, t)) && !Busy(q, t))
            && (forall u | u != t :: SameCursor(mid, end, u))
            && (Traced(q, t) ==> Settled(templates, q, end, t, now))
  {
    if PreviousActive(mid.tasks, mid.cursors, t) {
      PutOff(templates, q, mid, t, now);
    } else {
      SetUp(templates, q, mid, t, now);
    }
  }

  /** A row at the next number of a template that has not been visited was there before. */
  lemma FreshNumber(specs: seq<Spec>, q: State, mid: State, t: string, now: real)
    requires OnlyAdds(specs, q, mid, now) && !Called(specs, q, t, now) && TaskId(t, Number(q, t)) in mid.tasks
    ensures TaskId(t, Number(q, t)) in q.tasks
  {
    var id := TaskId(t, Number(q, t));
    if id !in q.tasks {
      var u :| Called(specs, q, u, now) && !Busy(q, u) && id == TaskId(u, Number(q, u));
      TaskIdInjective(t, Number(q, t), u, Number(q, u));
    }
  }

  lemma VisitSeeds(templates: map<string, Template>, specs: seq<Spec>, q: State, mid: State, t: string, now: real)
    requires q.seeding == None && t in templates && templates[t].interval > 0.0
    requires Seeded(templates, specs, q, mid, now) && NextAt(mid.cursors, t) <= now
    ensures Seeded(templates, specs + [Spec(t, true)], q, Visited(templates, mid, t, now), now)
  {
    var all, end := specs + [Spec(t, true)], Visited(templates, mid, t, now);
    assert !Called(specs, q, t, now) && SameCursor(q, mid, t);
    if TaskId(t, Number(q, t)) in mid.tasks {
      FreshNumber(specs, q, mid, t, now);
    }
    VisitSettles(templates, q, mid, t, now);
    forall u ensures Called(all, q, u, now) <==> Called(specs, q, u, now) || u == t {
      EnabledNext(specs, Spec(t, true), u);
    }
    OthersSeeded(templates, specs, all, q, mid, end, t, now);
  }

  lemma OthersSeeded(templates: map<string, Template>, specs: seq<Spec>, all: seq<Spec>, q: State, mid: State, end: State,
                     t: string, now: real)
    requires Seeded(templates, specs, q, mid, now) && end.seeding == mid.seeding
    requires forall u :: Called(all, q, u, now) <==> Called(specs, q, u, now) || u == t
    requires !Called(specs, q, t, now) && NextAt(end.cursors, t) > now
    requires forall id | id in mid.tasks :: id in end.tasks && end.tasks[id] == mid.tasks[id]
    requires forall id | id in end.tasks && id !in mid.tasks :: id == TaskId(t, Number(q, t)) && !Busy(q, t)
    requires forall u | u != t :: SameCursor(mid, end, u)
    requires Traced(q, t) ==> Settled(templates, q, end, t, now)
    ensures Seeded(templates, all, q, end, now)
  {
    forall id | id in end.tasks && id !in q.tasks
      ensures exists u :: Called(all, q, u, now) && !Busy(q, u) && id == TaskId(u, Number(q, u))
    {
      if id in mid.tasks {
        var u :| Called(specs, q, u, now) && !Busy(q, u) && id == TaskId(u, Number(q, u));
        assert Called(all, q, u, now);
      } else {
        assert Called(all, q, t, now);
      }
    }
    forall u | Called(all, q, u, now) && Traced(q, u) ensures Settled(templates, q, end, u, now) {
      if u != t {
        assert Settled(templates, q, mid, u, now) && SameCursor(mid, end, u);
      }
    }
    forall u | !Called(all, q, u, now) ensures SameCursor(q, end, u) {
      assert SameCursor(q, mid, u) && SameCursor(mid, end, u);
    }
    forall u | Called(all, q, u, now) ensures NextAt(end.cursors, u) > now {
      if u != t {
        assert SameCursor(mid, end, u) && NextAt(mid.cursors, u) > now;
      }
    }
  }

  /**
   * A tick, template by template: one that is disabled or not due keeps its cursor and gets no row. A
   * called one whose last task is unfinished is put off; any other gets its next number.
   */
  lemma {:induction false} SeedsExactly(templates: map<string, Template>, specs: seq<Spec>, q: State, now: real)
    requires q.seeding == None && forall t | t in templates :: templates[t].interval > 0.0
    requires forall i | 0 <= i < |specs| :: specs[i].id in templates
    ensures Seeded(templates, specs, q, RoundOf(templates, specs, q, now).end, now)
    decreases |specs|
  {
    if specs != [] {
      var before, spec := specs[..|specs| - 1], specs[|specs| - 1];
      SeedsExactly(templates, before, q, now);
      assert specs == before + [spec];
      var mid := RoundOf(templates, before, q, now).end;
      if spec.enabled && NextAt(mid.cursors, spec.id) <= now {
        assert spec == Spec(spec.id, true);
        VisitSeeds(templates, before, q, mid, spec.id, now);
      } else {
        SkipSeeds(templates, before, q, mid, spec, now);
      }
    }
  }

  lemma PlanRuns(templates: map<string, Template>, q: State, t: string, now: real)
    requires q.seeding == None && t in templates
    ensures Runs(templates, q, Plan(q, t, now), Visited(templates, q, t, now))
  {
    if NextAt(q.cursors, t) <= now {
      if PreviousActive(q.tasks, q.cursors, t) {
        Extend(Allows(templates), Leads(templates), q, [], q, Postpone(t, now));
        assert [] + [Postpone(t, now)] == [Postpone(t, now)];
      } else {
        Extend(Allows(templates), Leads(templates), q, [], q, Insert(t, now));
        assert [] + [Insert(t, now)] == [Insert(t, now)];
        Extend(Allows(templates), Leads(templates), q, [Insert(t, now)], Next(templates, q, Insert(t, now)), Advance);
        assert [Insert(t, now)] + [Advance] == [Insert(t, now), Advance];
      }
    }
  }

  lemma VisitCases(templates: map<string, Template>, q: State, t: string, now: real)
    requires q.seeding == None && t in templates
    ensures var k := SequenceOf(q.cursors, t);
            Visited(templates, q, t, now) ==
            if NextAt(q.cursors, t) > now then q
            else if PreviousActive(q.tasks, q.cursors, t) then
              State(q.tasks, q.cursors[t := Cursor(q.cursors[t].taskId, k, now + RealMin(templates[t].interval, 60.0))], None)
            else
              State(Enqueue(q.tasks, TaskId(t, k + 1), templates[t].kind, templates[t].objective, templates[t].payload, now, now),
                    q.cursors[t := Cursor(TaskId(t, k + 1), k + 1, now + templates[t].interval)], None)
  {
  }

  lemma VisitMoves(templates: map<string, Template>, q: State, t: string, now: real)
    requires q.seeding == None && t in templates && templates[t].interval > 0.0
    ensures var end := Visited(templates, q, t, now);
            NextAt(end.cursors, t) > now && forall o | o != t :: NextAt(end.cursors, o) == NextAt(q.cursors, o)
  {
  }

  lemma NoneDue(templates: map<string, Template>, specs: seq<Spec>, q: State, now: real)
    requires q.seeding == None && forall t | t in templates :: templates[t].interval > 0.0
    requires forall i | 0 <= i < |specs| :: specs[i].id in templates
    ensures forall i | 0 <= i < |specs| && specs[i].enabled ::
              NextAt(RoundOf(templates, specs, q, now).end.cursors, specs[i].id) > now
  {
    var end := RoundOf(templates, specs, q, now).end;
    SeedsExactly(templates, specs, q, now);
    forall i | 0 <= i < |specs| && specs[i].enabled ensures NextAt(end.cursors, specs[i].id) > now {
      assert EnabledIn(specs, specs[i].id);
      assert Called(specs, q, specs[i].id, now) || SameCursor(q, end, specs[i].id);
    }
  }

  /** The visits to the first i templates. */
  ghost predicate Rounded(templates: map<string, Template>, specs: seq<Spec>, i: nat, q: State, steps: seq<Step>, end: State, now: real)
    requires i <= |specs|
  {
    RoundOf(templates, specs[..i], q, now) == Round(steps, end) && Runs(templates, q, steps, end)
  }

  lemma RoundedNext(templates: map<string, Template>, specs: seq<Spec>, i: nat, q: State, steps: seq<Step>, mid: State,
                    more: seq<Step>, end: State, now: real)
    requires i < |specs| && Rounded(templates, specs, i, q, steps, mid, now)
    requires if specs[i].enabled
             then more == Plan(mid, specs[i].id, now) && end == Visited(templates, mid, specs[i].id, now)
                  && Runs(templates, mid, more, end)
             else more == [] && end == mid
    ensures Rounded(templates, specs, i + 1, q, steps + more, end, now)
  {
    assert specs[..i + 1][..i] == specs[..i];
    if specs[i].enabled {
      Join(Allows(templates), Leads(templates), q, steps, mid, more, end);
    } else {
      assert steps + more == steps;
    }
  }

  class RecurringTaskSeeder {
    const scheduler: WorkScheduler
    const specs: seq<Spec>
    const templates: map<string, Template>

    ghost predicate Valid() {
      && (forall t | t in templates :: templates[t].interval > 0.0)
      && (forall i | 0 <= i < |specs| :: specs[i].id in templates)
    }

    constructor (scheduler: WorkScheduler, specs: seq<Spec>, templates: map<string, Template>)
      requires forall t | t in templates :: templates[t].interval > 0.0
      requires forall i | 0 <= i < |specs| :: specs[i].id in templates
      ensures Valid() && this.scheduler == scheduler && this.specs == specs && this.templates == templates
    {
      this.scheduler, this.specs, this.templates := scheduler, specs, templates;
    }

    ghost function View(): State
      reads scheduler.store
    {
      State(scheduler.store.tasks, scheduler.store.cursors, None)
    }

    method TickTemplate(t: string, now: real) returns (ghost steps: seq<Step>)
      requires Valid() && t in templates
      modifies scheduler.store
      ensures steps == Plan(old(View()), t, now) && View() == Visited(templates, old(View()), t, now)
      ensures Runs(templates, old(View()), steps, View())
      ensures NextAt(scheduler.store.cursors, t) > now
      ensures forall o | o != t :: NextAt(scheduler.store.cursors, o) == NextAt(old(scheduler.store.cursors), o)
    {
      ghost var q0 := View();
      steps := Plan(q0, t, now);
      Turn(t, now);
      PlanRuns(templates, q0, t, now);
      VisitMoves(templates, q0, t, now);
    }

    /** The body of the loop in `tick`. */
    method Turn(t: string, now: real)
      requires Valid() && t in templates
      modifies scheduler.store
      ensures View() == Visited(templates, old(View()), t, now)
    {
      VisitCases(templates, View(), t, now);
      var store := scheduler.store;
      var nextAt := if t in store.cursors then store.cursors[t].nextAt else 0.0;
      if nextAt > now {
        return;
      }
      var previous := if t in store.cursors then store.cursors[t].taskId else "";
      var sequence := if t in store.cursors then store.cursors[t].sequence else 0;
      var status := store.TaskStatus(previous);
      if previous != "" && status.Some? && Active(status.value) {
        store.SetCursor(t, Cursor(previous, sequence, now + RealMin(templates[t].interval, 60.0)));
        return;
      }
      sequence := sequence + 1;
      var id := TaskId(t, sequence);
      store.EnqueueTask(id, templates[t].kind, templates[t].objective, templates[t].payload, Some(now), now);
      store.SetCursor(t, Cursor(id, sequence, now + templates[t].interval));
    }

    /** `tick`: a visit to every enabled template; afterwards none of them is due, however many intervals had been missed. */
    method Tick(now: real) returns (ghost steps: seq<Step>)
      requires Valid()
      modifies scheduler.store
      ensures Runs(templates, old(View()), steps, View())
      ensures RoundOf(templates, specs, old(View()), now) == Round(steps, View())
      ensures forall i | 0 <= i < |specs| && specs[i].enabled :: NextAt(scheduler.store.cursors, specs[i].id) > now
    {
      ghost var q0 := View();
      steps := [];
      assert specs[..0] == [];
      for i := 0 to |specs|
        invariant Rounded(templates, specs, i, q0, steps, View(), now)
      {
        ghost var q1 := View();
        ghost var more := [];
        if specs[i].enabled {
          more := TickTemplate(specs[i].id, now);
        }
        RoundedNext(templates, specs, i, q0, steps, q1, more, View(), now);
        steps := steps + more;
      }
      assert specs[..|specs|] == specs;
      NoneDue(templates, specs, q0, now);
    }
  }
}
