// The durable queue and everything that writes to it, over many manager lives: the
// dispatcher, the agent coordinator, the recurring seeder, other submissions,
// crashes between any two store writes, and recovery at start-up.
module QueueSystem {
  import opened Basics
  import opened TaskTable
  import opened Chains
  import D = Dispatch
  import A = Agents
  import R = Recurring

  datatype Config = Config(dispatch: D.Config, templates: map<string, R.Template>) {
    ghost predicate Valid() {
      && dispatch.Valid() && dispatch.reserved == {A.REVIEW}
      && forall t | t in templates :: templates[t].interval > 0.0
    }
  }

  /** History kept for the statements only; no step depends on it. */
  datatype History = History(
    claims: nat,                     // items handed to the dispatcher
    interruptions: map<string, nat>, // requeues that were not the handler's doing
    created: map<string, real>,      // tick time at which the seeder created a row
    seedClock: real)                 // latest tick time of the seeder

  datatype System = System(
    up: bool, tasks: Tasks, disp: D.Mem, agents: A.Mem,
    cursors: R.Cursors, seeding: Option<R.Seeding>, history: History)

  datatype Step =
    | Disp(d: D.Step)
    | Agent(a: A.Step)
    | Seed(r: R.Step)
    | Submission(id: string, kind: string, objective: string, payload: Payload, at: real, now: real)
    | Crash
    | Boot(now: real)

  ghost predicate Enabled(cfg: Config, s: System, st: Step) {
    match st
    case Disp(d) => s.up && D.Enabled(cfg.dispatch, s.tasks, s.disp, d)
    case Agent(a) => s.up && A.Enabled(s.tasks, s.agents, a)
    case Seed(r) => s.up && R.Enabled(cfg.templates, s.tasks, s.cursors, s.seeding, r)
    case Submission(_, _, _, _, _, _) => s.up
    case Crash => s.up
    case Boot(_) => !s.up
  }

  function Times(m: map<string, nat>, id: string): nat { if id in m then m[id] else 0 }

  function Bump(m: map<string, nat>, ids: set<string>): map<string, nat> {
    map id | id in m.Keys + ids :: Times(m, id) + if id in ids then 1 else 0
  }

  function RunningRows(ts: Tasks): set<string> { set id | id in ts && ts[id].status == Running }

  /** Rows a step sends back to the queue without a handler having asked for it. */
  function Interrupts(cfg: Config, s: System, st: Step): set<string> {
    match st
    case Disp(d) =>
      if d.Defer? && s.disp.batch != [] then {s.disp.batch[0].id}
      else if d.Release? then {d.id}
      else {}
    case Agent(a) => if a.Release? && a.agent in s.agents.taskIds then {s.agents.taskIds[a.agent]} else {}
    case Boot(_) => RunningRows(s.tasks)
    case _ => {}
  }

  function HistoryAfter(cfg: Config, s: System, st: Step): History {
    var h := s.history.(interruptions := Bump(s.history.interruptions, Interrupts(cfg, s, st)));
    match st
    case Disp(d) => if d.ClaimStep? then h.(claims := h.claims + |d.ids|) else h
    case Seed(r) =>
      if r.Advance? then h
      else
        var id := R.NewId(s.cursors, r.template);
        h.(seedClock := r.now,
           created := if r.Insert? && id !in s.tasks then h.created[id := r.now] else h.created)
    case _ => h
  }

  function Next(cfg: Config, s: System, st: Step): System {
    var s' := s.(history := HistoryAfter(cfg, s, st));
    match st
    case Disp(d) =>
      s'.(tasks := D.Table(cfg.dispatch, s.tasks, s.disp, d), disp := D.Memory(cfg.dispatch, s.tasks, s.disp, d))
    case Agent(a) => s'.(tasks := A.Table(s.tasks, s.agents, a), agents := A.Memory(s.tasks, s.agents, a))
    case Seed(r) =>
      s'.(tasks := R.Table(cfg.templates, s.tasks, s.cursors, r),
          cursors := R.CursorsAfter(cfg.templates, s.cursors, s.seeding, r),
          seeding := R.Memory(s.cursors, s.seeding, r))
    case Submission(id, kind, objective, payload, at, now) =>
      s'.(tasks := Enqueue(s.tasks, id, kind, objective, payload, at, now))
    case Crash => s'.(up := false, disp := D.IDLE, agents := A.IDLE, seeding := None)
    case Boot(now) => s'.(up := true, tasks := Requeue(s.tasks, now))
  }

  /** Before the first life: an empty store. */
  const FIRST_STORE: System := System(false, map[], D.IDLE, A.IDLE, map[], None, History(0, map[], map[], 0.0))

  /** A store that may hold anything, and no manager running. */
  ghost predicate Down(s: System) { !s.up && s.disp == D.IDLE && s.agents == A.IDLE && s.seeding == None }

  // ----- ownership -----

  ghost predicate Owned(cfg: Config, s: System) {
    if s.up then D.Owned(cfg.dispatch, s.tasks, s.disp) && A.Owned(s.tasks, s.agents) else Down(s)
  }

  lemma DispatcherSpares(cfg: Config, ts: Tasks, ts': Tasks, m: A.Mem)
    requires cfg.Valid() && A.Owned(ts, m) && D.LeavesReserved(cfg.dispatch, ts, ts') && ts'.Keys == ts.Keys
    requires RowsMove(ts, ts')
    ensures A.Owned(ts', m)
  {
  }

  /** Steps that only touch reviews, or only add QUEUED rows, leave the dispatcher's rows alone. */
  lemma OthersSpare(cfg: Config, ts: Tasks, ts': Tasks, m: D.Mem)
    requires cfg.Valid() && D.Owned(cfg.dispatch, ts, m) && RowsMove(ts, ts')
    requires forall id | id in ts && ts[id].kind != A.REVIEW :: id in ts' && ts'[id] == ts[id]
    ensures D.Owned(cfg.dispatch, ts', m)
  {
  }

  /** A new QUEUED row disturbs nobody. */
  lemma NewRowSpares(cfg: Config, ts: Tasks, dm: D.Mem, am: A.Mem, id: string, t: Task)
    requires cfg.Valid() && D.Owned(cfg.dispatch, ts, dm) && A.Owned(ts, am)
    requires id !in ts && t.status == Queued && t.attempts == 0
    ensures D.Owned(cfg.dispatch, ts[id := t], dm) && A.Owned(ts[id := t], am) && RowsMove(ts, ts[id := t])
  {
    OthersSpare(cfg, ts, ts[id := t], dm);
    AgentsSpared(ts, am, id, t);
  }

  lemma AgentsSpared(ts: Tasks, m: A.Mem, id: string, t: Task)
    requires A.Owned(ts, m) && id !in ts && t.status == Queued
    ensures A.Owned(ts[id := t], m)
  {
    var ts' := ts[id := t];
    assert forall a | a in m.taskIds :: A.IsReview(ts, m.taskIds[a], a) && ts'[m.taskIds[a]] == ts[m.taskIds[a]];
    forall o | o in ts' && ts'[o].kind == A.REVIEW && ts'[o].status == Running
      ensures A.Owns(m, A.OwnerOf(ts'[o]), o)
    {
      assert o in ts && ts'[o] == ts[o];
    }
  }

  lemma EnqueueSpares(cfg: Config, ts: Tasks, dm: D.Mem, am: A.Mem, id: string, kind: string, objective: string,
                      payload: Payload, at: real, now: real)
    requires cfg.Valid() && D.Owned(cfg.dispatch, ts, dm) && A.Owned(ts, am)
    ensures var ts' := Enqueue(ts, id, kind, objective, payload, at, now);
            && D.Owned(cfg.dispatch, ts', dm) && A.Owned(ts', am) && RowsMove(ts, ts')
            && forall o | o in ts :: o in ts' && ts'[o] == ts[o]
  {
    if id !in ts {
      NewRowSpares(cfg, ts, dm, am, id, Task(kind, objective, payload, Queued, at, 0, now));
    }
  }

  lemma RequeueClears(cfg: Config, ts: Tasks, now: real)
    requires cfg.Valid()
    ensures var ts' := Requeue(ts, now);
            && RunningRows(ts') == {} && RowsMove(ts, ts') && ts'.Keys == ts.Keys
            && D.Owned(cfg.dispatch, ts', D.IDLE) && A.Owned(ts', A.IDLE)
  {
  }

  /** Every step, of whichever component, keeps ownership and moves rows only as allowed. */
  lemma {:induction false} StepOwned(cfg: Config, s: System, st: Step)
    requires cfg.Valid() && Owned(cfg, s) && Enabled(cfg, s, st)
    ensures Owned(cfg, Next(cfg, s, st)) && RowsMove(s.tasks, Next(cfg, s, st).tasks)
  {
    var s' := Next(cfg, s, st);
    match st
    case Disp(d) =>
      D.StepOwned(cfg.dispatch, s.tasks, s.disp, d);
      DispatcherSpares(cfg, s.tasks, s'.tasks, s.agents);
    case Agent(a) =>
      A.StepOwned(s.tasks, s.agents, a);
      OthersSpare(cfg, s.tasks, s'.tasks, s.disp);
    case Seed(r) =>
      if r.Insert? {
        var t := cfg.templates[r.template];
        EnqueueSpares(cfg, s.tasks, s.disp, s.agents, R.NewId(s.cursors, r.template), t.kind, t.objective, t.payload,
                      r.now, r.now);
      }
    case Submission(id, kind, objective, payload, at, now) =>
      EnqueueSpares(cfg, s.tasks, s.disp, s.agents, id, kind, objective, payload, at, now);
    case Crash =>
    case Boot(now) => RequeueClears(cfg, s.tasks, now);
  }

  // ----- runs -----

  ghost function Allows(cfg: Config): (System, Step) -> bool { (s: System, st: Step) => Enabled(cfg, s, st) }

  ghost function Leads(cfg: Config): (System, Step) -> System { (s: System, st: Step) => Next(cfg, s, st) }

  ghost predicate Runs(cfg: Config, s: System, steps: seq<Step>) {
    Chain(Allows(cfg), Leads(cfg), s, steps, After(cfg, s, steps))
  }

  ghost function After(cfg: Config, s: System, steps: seq<Step>): System { Final(Leads(cfg), s, steps) }

  lemma OneStep(cfg: Config, s: System, st: Step, rest: seq<Step>)
    requires Enabled(cfg, s, st) && Runs(cfg, Next(cfg, s, st), rest)
    ensures Runs(cfg, s, [st] + rest) && After(cfg, s, [st] + rest) == After(cfg, Next(cfg, s, st), rest)
  {
    assert ([st] + rest)[1..] == rest;
  }

  // ----- the two owners -----

  function DispatcherIds(m: D.Mem): set<string> {
    m.pending.Keys + set i | 0 <= i < |m.batch| :: m.batch[i].id
  }

  function CoordinatorIds(m: A.Mem): set<string> {
    (set a | a in m.taskIds :: m.taskIds[a])
    + if m.working.Some? && m.working.value.task.Some? then {m.working.value.task.value} else {}
  }

  /** Who holds the running work, split by the reserved kind. */
  ghost predicate Shared(cfg: Config, s: System) {
    && RunningRows(s.tasks) == DispatcherIds(s.disp) + CoordinatorIds(s.agents)
    && DispatcherIds(s.disp) !! CoordinatorIds(s.agents)
    && (forall id | id in DispatcherIds(s.disp) :: s.tasks[id].kind != A.REVIEW)
    && (forall id | id in CoordinatorIds(s.agents) :: s.tasks[id].kind == A.REVIEW)
    && (forall id | id in s.disp.pending ::
          id in s.tasks && s.disp.pending[id].attempts == s.tasks[id].attempts)
    && (cfg.dispatch.background ==> |s.disp.pending| <= cfg.dispatch.maxInFlight)
  }

  lemma DispatcherHolds(cfg: D.Config, ts: Tasks, m: D.Mem)
    requires D.Owned(cfg, ts, m)
    ensures forall id :: id in DispatcherIds(m) <==> IsRunning(ts, id) && ts[id].kind !in cfg.reserved
    ensures forall id | id in m.pending :: id in ts && m.pending[id].attempts == ts[id].attempts
    ensures cfg.background ==> |m.pending| <= cfg.maxInFlight
  {
    forall id | id in DispatcherIds(m) ensures IsRunning(ts, id) && ts[id].kind !in cfg.reserved {
      if id in m.pending {
        assert D.Matches(ts, cfg, m.pending[id]);
      } else {
        var i :| 0 <= i < |m.batch| && m.batch[i].id == id;
        assert D.Matches(ts, cfg, m.batch[i]);
      }
    }
    forall id | IsRunning(ts, id) && ts[id].kind !in cfg.reserved ensures id in DispatcherIds(m) {
      assert D.Owns(m, id);
    }
  }

  lemma CoordinatorHolds(ts: Tasks, m: A.Mem)
    requires A.Owned(ts, m)
    ensures forall id :: id in CoordinatorIds(m) <==> IsRunning(ts, id) && ts[id].kind == A.REVIEW
  {
    forall id | IsRunning(ts, id) && ts[id].kind == A.REVIEW ensures id in CoordinatorIds(m) {
      assert A.Owns(m, A.OwnerOf(ts[id]), id);
    }
  }

  lemma OwnersExactly(cfg: Config, s: System)
    requires cfg.Valid() && Owned(cfg, s) && s.up
    ensures Shared(cfg, s)
  {
    DispatcherHolds(cfg.dispatch, s.tasks, s.disp);
    CoordinatorHolds(s.tasks, s.agents);
    HeldApart(s.tasks, cfg.dispatch.reserved, DispatcherIds(s.disp), CoordinatorIds(s.agents));
  }

  lemma HeldApart(ts: Tasks, reserved: set<string>, a: set<string>, b: set<string>)
    requires reserved == {A.REVIEW}
    requires forall id :: id in a <==> IsRunning(ts, id) && ts[id].kind !in reserved
    requires forall id :: id in b <==> IsRunning(ts, id) && ts[id].kind == A.REVIEW
    ensures RunningRows(ts) == a + b && a !! b
    ensures (forall id | id in a :: ts[id].kind != A.REVIEW) && (forall id | id in b :: ts[id].kind == A.REVIEW)
  {
    assert forall id :: id in RunningRows(ts) <==> IsRunning(ts, id);
  }

  lemma {:induction false} OwnedAlways(cfg: Config, s: System, steps: seq<Step>)
    requires cfg.Valid() && Owned(cfg, s) && Runs(cfg, s, steps)
    ensures Owned(cfg, After(cfg, s, steps))
    decreases |steps|
  {
    if steps != [] {
      StepOwned(cfg, s, steps[0]);
      OwnedAlways(cfg, Next(cfg, s, steps[0]), steps[1..]);
    }
  }

  /**
   * Ownership over whole runs: while a manager is up, the RUNNING rows are exactly the disjoint
   * union of what the dispatcher and the coordinator hold, split by the reserved kind, pending
   * items agree with their rows, and the background dispatcher stays within its slots.
   */
  lemma {:induction false} OwnershipAlways(cfg: Config, s: System, steps: seq<Step>)
    requires cfg.Valid() && Owned(cfg, s) && Runs(cfg, s, steps)
    ensures Owned(cfg, After(cfg, s, steps))
    ensures After(cfg, s, steps).up ==> Shared(cfg, After(cfg, s, steps))
  {
    OwnedAlways(cfg, s, steps);
    if After(cfg, s, steps).up {
      OwnersExactly(cfg, After(cfg, s, steps));
    }
  }

  // ----- terminal rows -----

  predicate Terminal(st: Status) { !Active(st) }

  /** Work is never lost or altered, and a row that has ended never changes again. */
  ghost predicate Preserves(a: Tasks, b: Tasks) {
    forall id | id in a ::
      id in b && SameWork(a[id], b[id]) && a[id].attempts <= b[id].attempts && (Terminal(a[id].status) ==> b[id] == a[id])
  }

  lemma {:induction false} TerminalRowsAreFinal(cfg: Config, s: System, steps: seq<Step>)
    requires cfg.Valid() && Owned(cfg, s) && Runs(cfg, s, steps)
    ensures Preserves(s.tasks, After(cfg, s, steps).tasks)
    decreases |steps|
  {
    if steps != [] {
      StepOwned(cfg, s, steps[0]);
      TerminalRowsAreFinal(cfg, Next(cfg, s, steps[0]), steps[1..]);
    }
  }

  /** finish_task has no guard of its own: a requeue preserves the table exactly when the row has not ended. */
  lemma {:induction false} UnguardedFinish(ts: Tasks, id: string, at: real, now: real)
    ensures Preserves(ts, Finish(ts, id, Queued, Some(at), now)) <==> !(id in ts && Terminal(ts[id].status))
  {
    if id in ts {
      assert Finish(ts, id, Queued, Some(at), now)[id].status == Queued;
    }
  }

  /**
   * The dispatcher changes the row before it records the event. If recording raises, the error path
   * runs on a row that has ended: it survives only when it was escalated with no attempts left.
   */
  lemma RecordFailureUndoes(cfg: D.Config, ts: Tasks, id: string, attempts: nat, status: Status, now: real)
    requires cfg.Valid() && IsRunning(ts, id) && Terminal(status)
    ensures var ended := D.Apply(ts, id, D.Stop(status), now);
            Preserves(ended, D.Apply(ended, id, D.OnError(cfg, attempts), now)) <==>
            status == Escalated && attempts >= cfg.maxAttempts
  {
    var ended := D.Apply(ts, id, D.Stop(status), now);
    var undone := D.Apply(ended, id, D.OnError(cfg, attempts), now);
    assert ended[id].status == status;
    assert undone[id].status == if attempts >= cfg.maxAttempts then Escalated else Queued;
    assert forall o | o in ts && o != id :: undone[o] == ended[o];
    if status == Escalated && attempts >= cfg.maxAttempts {
      assert undone[id] == ended[id];
    }
  }
}
