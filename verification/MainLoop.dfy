// The queue's part of the main loop in manager/run.py: recovery at start-up, one pass
// (agents, then the seeder, then the dispatcher) and shutdown, on one shared store.
// Each is proved to be a run of the whole-queue machine, so its theorems apply.
module MainLoop {
  import opened Basics
  import opened TaskTable
  import opened QueueSystem
  import opened QueueProgress
  import opened Chains
  import D = Dispatch
  import A = Agents
  import R = Recurring
  import StateStores
  import Dispatchers
  import Coordinators
  import Seeders

  // ----- runs of one component are runs of the system -----

  function Lifted<T>(lift: T -> Step, steps: seq<T>): seq<Step> {
    if steps == [] then [] else [lift(steps[0])] + Lifted(lift, steps[1..])
  }

  lemma Joined(cfg: Config, s: System, a: seq<Step>, b: seq<Step>)
    requires Runs(cfg, s, a) && Runs(cfg, After(cfg, s, a), b)
    ensures Runs(cfg, s, a + b) && After(cfg, s, a + b) == After(cfg, After(cfg, s, a), b)
  {
    var m, e := After(cfg, s, a), After(cfg, After(cfg, s, a), b);
    Join(Allows(cfg), Leads(cfg), s, a, m, b, e);
    ChainEnds(Allows(cfg), Leads(cfg), s, a + b, e);
  }

  /** The state of a running system apart from the history. */
  predicate Looks(s: System, ts: Tasks, dm: D.Mem, am: A.Mem, cs: R.Cursors, sd: Option<R.Seeding>) {
    s.up && s.tasks == ts && s.disp == dm && s.agents == am && s.cursors == cs && s.seeding == sd
  }

  lemma {:induction false} LiftDispatcher(cfg: Config, s: System, steps: seq<D.Step>, ts: Tasks, m: D.Mem)
    requires s.up && D.Runs(cfg.dispatch, s.tasks, s.disp, steps, ts, m)
    ensures var all := Lifted((d: D.Step) => Disp(d), steps);
            Runs(cfg, s, all) && Looks(After(cfg, s, all), ts, m, s.agents, s.cursors, s.seeding)
    decreases |steps|
  {
    if steps != [] {
      var s1 := Next(cfg, s, Disp(steps[0]));
      LiftDispatcher(cfg, s1, steps[1..], ts, m);
      OneStep(cfg, s, Disp(steps[0]), Lifted((d: D.Step) => Disp(d), steps[1..]));
    }
  }

  lemma {:induction false} LiftAgents(cfg: Config, s: System, steps: seq<A.Step>, ts: Tasks, m: A.Mem)
    requires s.up && A.Runs(s.tasks, s.agents, steps, ts, m)
    ensures var all := Lifted((a: A.Step) => Agent(a), steps);
            Runs(cfg, s, all) && Looks(After(cfg, s, all), ts, s.disp, m, s.cursors, s.seeding)
    decreases |steps|
  {
    if steps != [] {
      var s1 := Next(cfg, s, Agent(steps[0]));
      LiftAgents(cfg, s1, steps[1..], ts, m);
      OneStep(cfg, s, Agent(steps[0]), Lifted((a: A.Step) => Agent(a), steps[1..]));
    }
  }

  lemma {:induction false} LiftSeeder(cfg: Config, s: System, steps: seq<R.Step>, q: R.State)
    requires s.up && R.Runs(cfg.templates, R.State(s.tasks, s.cursors, s.seeding), steps, q)
    ensures var all := Lifted((r: R.Step) => Seed(r), steps);
            Runs(cfg, s, all) && Looks(After(cfg, s, all), q.tasks, s.disp, s.agents, q.cursors, q.seeding)
    decreases |steps|
  {
    if steps != [] {
      var s1 := Next(cfg, s, Seed(steps[0]));
      LiftSeeder(cfg, s1, steps[1..], q);
      OneStep(cfg, s, Seed(steps[0]), Lifted((r: R.Step) => Seed(r), steps[1..]));
    }
  }

  // ----- the loop -----

  /** What a pass is given by its surroundings. */
  datatype Inputs = Inputs(
    objective: string, newIds: seq<string>, agentsDone: set<string>, mono: real, agentsNow: real,
    seederNow: real, finished: map<string, D.Reply>, run: D.Item -> D.Reply, limit: int, dispatchNow: real)

  /** Finished reviews, and the sessions of the agents whose turn has come. */
  datatype ReviewLog = ReviewLog(who: seq<string>, collects: seq<A.Step>, sessions: seq<A.Step>) {
    ghost function Steps(): seq<Step> { Lifted((a: A.Step) => Agent(a), collects + sessions) }
  }

  /** Finished handlers, then a claim and what became of the claimed items. */
  datatype WorkLog = WorkLog(done: seq<string>, gathers: seq<D.Step>, ids: seq<string>, places: seq<D.Step>) {
    ghost function Steps(): seq<Step> { Lifted((d: D.Step) => Disp(d), gathers + places) }
  }

  ghost function Seedings(seeds: seq<R.Step>): seq<Step> { Lifted((r: R.Step) => Seed(r), seeds) }

  /** What a pass did. */
  datatype Log = Log(reviews: ReviewLog, seeds: seq<R.Step>, work: WorkLog) {
    ghost function Steps(): seq<Step> { reviews.Steps() + (Seedings(seeds) + work.Steps()) }
  }

  lemma PassRuns(cfg: Config, s: System, log: Log)
    requires Runs(cfg, s, log.reviews.Steps())
    requires var s1 := After(cfg, s, log.reviews.Steps());
             Runs(cfg, s1, Seedings(log.seeds)) && Runs(cfg, After(cfg, s1, Seedings(log.seeds)), log.work.Steps())
    ensures Runs(cfg, s, log.Steps())
    ensures After(cfg, s, log.Steps()) ==
            After(cfg, After(cfg, After(cfg, s, log.reviews.Steps()), Seedings(log.seeds)), log.work.Steps())
  {
    Joined(cfg, After(cfg, s, log.reviews.Steps()), Seedings(log.seeds), log.work.Steps());
    Joined(cfg, s, log.reviews.Steps(), Seedings(log.seeds) + log.work.Steps());
  }

  ghost function SeedState(s: System): R.State { R.State(s.tasks, s.cursors, s.seeding) }

  /** Each finished review is collected once, then exactly the agents whose turn has come have a session. */
  ghost predicate AgentsDid(specs: seq<Coordinators.Spec>, lastRun: map<string, real>, busy: set<string>, inp: Inputs, log: ReviewLog) {
    && multiset(log.who) == multiset(busy * inp.agentsDone) && |log.collects| == |log.who|
    && (forall i | 0 <= i < |log.who| :: log.collects[i] == A.Collect(log.who[i], inp.agentsNow))
    && Coordinators.SessionsOf(Coordinators.Turns(specs, lastRun, busy - inp.agentsDone, inp.mono).sessions, log.sessions, inp.agentsNow)
  }

  lemma {:induction false} LiftedAt<T>(lift: T -> Step, steps: seq<T>)
    ensures |Lifted(lift, steps)| == |steps| && forall i | 0 <= i < |steps| :: Lifted(lift, steps)[i] == lift(steps[i])
    decreases |steps|
  {
    if steps != [] {
      LiftedAt(lift, steps[1..]);
    }
  }

  /** A row that a dispatcher may take at a time. */
  predicate Waits(ts: Tasks, id: string, now: real) {
    IsQueued(ts, id) && ts[id].kind != A.REVIEW && ts[id].scheduledAt <= now
  }

  /** The place of the claim among the steps of a pass. */
  ghost function ClaimAt(log: Log): nat { |log.reviews.Steps()| + |Seedings(log.seeds)| + |log.work.gathers| }

  lemma ClaimInPass(log: Log)
    requires log.work.places != []
    ensures ClaimAt(log) < |log.Steps()| && log.Steps()[ClaimAt(log)] == Disp(log.work.places[0])
  {
    LiftedAt((d: D.Step) => Disp(d), log.work.gathers + log.work.places);
    assert (log.work.gathers + log.work.places)[|log.work.gathers|] == log.work.places[0];
  }

  /** A pass with a claim does not leave a waiting row behind: it is taken, or the claim is filled with rows before it. */
  lemma PassTakes(cfg: Config, s: System, log: Log, id: string)
    requires cfg.Valid() && Owned(cfg, s) && Runs(cfg, s, log.Steps())
    requires log.work.places != [] && log.work.places[0].ClaimStep? && Waits(s.tasks, id, log.work.places[0].now)
    ensures After(cfg, s, log.Steps()).history.claims > s.history.claims
    ensures TakesWaiting(cfg, s, log, id)
  {
    ClaimInPass(log);
    DueWorkIsTaken(cfg, s, log.Steps(), ClaimAt(log), id);
    HandedCounts(cfg, s, log.Steps());
  }

  ghost predicate TakesWaiting(cfg: Config, s: System, log: Log, id: string)
    requires id in s.tasks
  {
    && ClaimAt(log) < |log.Steps()| && Claims(log.Steps()[ClaimAt(log)])
    && TakenBy(cfg, s, log.Steps(), ClaimAt(log), s.tasks[id].scheduledAt, id)
  }

  /** Exactly one claim, and every claimed item is handed to the pool or deferred. */
  ghost predicate Placed(limit: int, now: real, log: WorkLog) {
    && |log.places| == |log.ids| + 1 && log.places[0] == D.ClaimStep(log.ids, limit, now)
    && forall i | 0 < i < |log.places| :: log.places[i] == D.Submit || log.places[i] == D.Defer(now)
  }

  /** Exactly one claim, and for every claimed item its handler's reply or a deferral. */
  ghost predicate Handled(cfg: D.Config, ts: Tasks, inp: Inputs, log: WorkLog) {
    && |log.places| == |log.ids| + 1 && log.places[0] == D.ClaimStep(log.ids, inp.limit, inp.dispatchNow)
    && forall i | 0 <= i < |log.ids| ::
         && log.ids[i] in ts
         && var t := ts[log.ids[i]];
         log.places[i + 1] ==
         if t.kind in cfg.handlers
         then D.Settle(inp.run(D.Item(log.ids[i], t.kind, t.objective, t.payload, t.attempts + 1)), inp.dispatchNow)
         else D.Defer(inp.dispatchNow)
  }

  lemma HandledItems(cfg: D.Config, ts: Tasks, inp: Inputs, log: WorkLog)
    requires |log.places| == |log.ids| + 1 && log.places[0] == D.ClaimStep(log.ids, inp.limit, inp.dispatchNow)
    requires forall id | id in log.ids :: id in ts
    requires forall i | 0 <= i < |log.ids| ::
               log.places[i + 1] ==
               Dispatchers.Handled(cfg, D.Items(Claim(ts, log.ids, inp.dispatchNow), log.ids)[i], inp.run, inp.dispatchNow)
    ensures Handled(cfg, ts, inp, log)
  {
    forall i | 0 <= i < |log.ids|
      ensures var t := ts[log.ids[i]];
              D.Items(Claim(ts, log.ids, inp.dispatchNow), log.ids)[i] ==
              D.Item(log.ids[i], t.kind, t.objective, t.payload, t.attempts + 1)
    {
      assert log.ids[i] in log.ids;
    }
  }

  /** Rows are shared out and final as ever, and with room no waiting row is left behind. */
  ghost predicate PassKeeps(cfg: Config, s: System, log: Log, room: bool, now: real) {
    cfg.Valid() && Owned(cfg, s) ==>
      && Shared(cfg, After(cfg, s, log.Steps())) && Preserves(s.tasks, After(cfg, s, log.Steps()).tasks)
      && (room ==>
            forall id | Waits(s.tasks, id, now) ::
              After(cfg, s, log.Steps()).history.claims > s.history.claims && TakesWaiting(cfg, s, log, id))
  }

  lemma PassKept(cfg: Config, s: System, log: Log, room: bool, now: real)
    requires Runs(cfg, s, log.Steps()) && After(cfg, s, log.Steps()).up
    requires room ==> log.work.places != [] && log.work.places[0].ClaimStep? && log.work.places[0].now == now
    ensures PassKeeps(cfg, s, log, room, now)
  {
    if cfg.Valid() && Owned(cfg, s) {
      OwnershipAlways(cfg, s, log.Steps());
      TerminalRowsAreFinal(cfg, s, log.Steps());
      forall id | room && Waits(s.tasks, id, now)
        ensures After(cfg, s, log.Steps()).history.claims > s.history.claims && TakesWaiting(cfg, s, log, id)
      {
        PassTakes(cfg, s, log, id);
      }
    }
  }

  class QueueManager {
    ghost const cfg: Config
    const store: StateStores.StateStore
    const agents: Coordinators.AgentCoordinator
    const seeder: Seeders.RecurringTaskSeeder?
    const sync: Dispatchers.WorkDispatcher?
    const pool: Dispatchers.BackgroundWorkDispatcher?

    constructor (ghost cfg: Config, store: StateStores.StateStore, agents: Coordinators.AgentCoordinator,
                 seeder: Seeders.RecurringTaskSeeder?, sync: Dispatchers.WorkDispatcher?,
                 pool: Dispatchers.BackgroundWorkDispatcher?)
      ensures this.cfg == cfg && this.store == store && this.agents == agents && this.seeder == seeder
      ensures this.sync == sync && this.pool == pool
    {
      this.cfg, this.store, this.agents, this.seeder := cfg, store, agents, seeder;
      this.sync, this.pool := sync, pool;
    }

    /** Everybody works on the one store, under the one configuration. */
    ghost predicate Wired() {
      && agents.scheduler.store == store
      && (seeder != null ==> seeder.scheduler.store == store && seeder.Valid() && seeder.templates == cfg.templates)
      && (sync != null ==> pool == null && sync.scheduler.store == store && sync.cfg == cfg.dispatch)
      && (pool != null ==> pool.scheduler.store == store && pool.cfg == cfg.dispatch)
      && cfg.dispatch.background == (pool != null)
    }

    ghost function Kept(): D.Mem
      reads pool
    {
      if pool != null then pool.View() else D.IDLE
    }

    /** The objects are in the state the machine is in. */
    ghost predicate Reflects(s: System)
      reads store, agents, pool
    {
      Looks(s, store.tasks, Kept(), agents.View(), store.cursors, None)
    }

    /** Room for new work once the finished handlers have been collected. */
    ghost predicate HasRoom(was: D.Mem, inp: Inputs) {
      if pool != null then !was.closed && |was.pending - inp.finished.Keys| < cfg.dispatch.maxInFlight else sync != null
    }

    /**
     * Each finished handler is collected once; then, if there is room, exactly one claim is made, with the
     * limit of the pass and within the free slots, and every claimed item is handled.
     */
    ghost predicate DispatcherDid(was: D.Mem, ts: Tasks, inp: Inputs, log: WorkLog) {
      && (if pool != null && !was.closed
          then pool.CollectsOf(log.done, log.gathers, was.pending, inp.finished, inp.dispatchNow)
          else log.gathers == [])
      && if !HasRoom(was, inp) then log.places == []
         else if pool == null then Handled(cfg.dispatch, ts, inp, log)
         else Placed(Min(inp.limit, cfg.dispatch.maxInFlight - |was.pending - inp.finished.Keys|), inp.dispatchNow, log)
    }

    method DispatchPool(inp: Inputs) returns (ghost log: WorkLog)
      requires Wired() && pool != null
      modifies store`tasks, pool
      ensures D.Runs(cfg.dispatch, old(store.tasks), old(pool.View()), log.gathers + log.places, store.tasks, pool.View())
      ensures DispatcherDid(old(pool.View()), old(store.tasks), inp, log)
    {
      ghost var a, b, c, d;
      a, b, c, d := pool.Dispatch(inp.limit, inp.dispatchNow, inp.finished);
      log := WorkLog(a, b, c, d);
    }

    method DispatchSync(inp: Inputs) returns (ghost log: WorkLog)
      requires Wired() && sync != null
      modifies store`tasks
      ensures D.Runs(cfg.dispatch, old(store.tasks), D.IDLE, log.gathers + log.places, store.tasks, D.IDLE)
      ensures DispatcherDid(D.IDLE, old(store.tasks), inp, log)
    {
      ghost var ids, steps;
      ids, steps := sync.Dispatch(inp.limit, inp.dispatchNow, inp.run);
      log := WorkLog([], [], ids, steps);
      assert [] + steps == steps;
      HandledItems(cfg.dispatch, old(store.tasks), inp, log);
    }

    method DispatchQueue(inp: Inputs, ghost s: System) returns (ghost log: WorkLog)
      requires Wired() && Reflects(s)
      modifies store`tasks, pool
      ensures Runs(cfg, s, log.Steps()) && Reflects(After(cfg, s, log.Steps()))
      ensures DispatcherDid(old(Kept()), old(store.tasks), inp, log)
    {
      if pool != null {
        log := DispatchPool(inp);
      } else if sync != null {
        log := DispatchSync(inp);
      } else {
        log := WorkLog([], [], [], []);
      }
      LiftDispatcher(cfg, s, log.gathers + log.places, store.tasks, Kept());
    }

    method SeedQueue(inp: Inputs, ghost s: System) returns (ghost seeds: seq<R.Step>)
      requires Wired() && Reflects(s)
      modifies store
      ensures Runs(cfg, s, Seedings(seeds)) && Reflects(After(cfg, s, Seedings(seeds)))
      ensures SeederDid(s, After(cfg, s, Seedings(seeds)), inp)
      ensures seeder == null ==> seeds == []
      ensures NoneDue(store.cursors, inp)
    {
      seeds := [];
      if seeder != null {
        seeds := seeder.Tick(inp.seederNow);
        LiftSeeder(cfg, s, seeds, seeder.View());
        Seeders.SeedsExactly(cfg.templates, seeder.specs, SeedState(s), inp.seederNow);
      }
    }

    /** The enabled templates that are due, and no others, are postponed or get their next number. */
    ghost predicate SeederDid(s: System, s': System, inp: Inputs) {
      seeder != null ==> Seeders.Seeded(cfg.templates, seeder.specs, SeedState(s), SeedState(s'), inp.seederNow)
    }

    ghost predicate NoneDue(cursors: R.Cursors, inp: Inputs) {
      seeder != null ==>
        forall i | 0 <= i < |seeder.specs| && seeder.specs[i].enabled ::
          seeder.specs[i].id in cursors ==> cursors[seeder.specs[i].id].nextAt > inp.seederNow
    }

    method TickAgents(inp: Inputs, ghost s: System) returns (ghost log: ReviewLog)
      requires Wired() && Reflects(s) && !agents.closed && |inp.newIds| == |agents.specs|
      requires forall i | 0 <= i < |agents.specs| ::
                 inp.newIds[i] !in store.tasks && A.NewReviewId(agents.specs[i].agent) <= inp.newIds[i]
      requires forall i, j | 0 <= i < j < |agents.specs| :: inp.newIds[i] != inp.newIds[j]
      modifies store`tasks, agents
      ensures Runs(cfg, s, log.Steps()) && Reflects(After(cfg, s, log.Steps()))
      ensures AgentsDid(agents.specs, old(agents.lastRun), old(agents.busy), inp, log)
    {
      ghost var who, a, b;
      who, a, b := agents.Tick(inp.objective, inp.newIds, inp.agentsDone, inp.mono, inp.agentsNow);
      log := ReviewLog(who, a, b);
      LiftAgents(cfg, s, a + b, store.tasks, agents.View());
    }

    /**
     * One pass of the main loop over the queue: the coordinator's collections and sessions, the seeder's
     * plan, the dispatcher's collections and one claim when there is room. It keeps the division of the
     * running work, leaves no enabled template due and no waiting row behind.
     */
    method Pass(inp: Inputs, ghost s: System) returns (ghost log: Log)
      requires Wired() && Reflects(s) && !agents.closed && |inp.newIds| == |agents.specs|
      requires forall i | 0 <= i < |agents.specs| ::
                 inp.newIds[i] !in store.tasks && A.NewReviewId(agents.specs[i].agent) <= inp.newIds[i]
      requires forall i, j | 0 <= i < j < |agents.specs| :: inp.newIds[i] != inp.newIds[j]
      modifies store, agents, pool
      ensures Runs(cfg, s, log.Steps()) && Reflects(After(cfg, s, log.Steps()))
      ensures AgentsDid(agents.specs, old(agents.lastRun), old(agents.busy), inp, log.reviews)
      ensures var s1 := After(cfg, s, log.reviews.Steps());
              var s2 := After(cfg, s1, Seedings(log.seeds));
              && SeederDid(s1, s2, inp) && (seeder == null ==> log.seeds == [])
              && DispatcherDid(old(Kept()), s2.tasks, inp, log.work)
      ensures NoneDue(store.cursors, inp)
      ensures PassKeeps(cfg, s, log, HasRoom(old(Kept()), inp), inp.dispatchNow)
    {
      ghost var was := Kept();
      ghost var reviews := TickAgents(inp, s);
      ghost var s1 := After(cfg, s, reviews.Steps());
      ghost var seeds := SeedQueue(inp, s1);
      ghost var work := DispatchQueue(inp, After(cfg, s1, Seedings(seeds)));
      log := Log(reviews, seeds, work);
      PassRuns(cfg, s, log);
      PassKept(cfg, s, log, HasRoom(was, inp), inp.dispatchNow);
    }

    /** A new life: work left RUNNING by the life before goes back to the queue. */
    method Recover(now: real, ghost s: System) returns (ghost step: Step)
      requires Down(s) && s.tasks == store.tasks && s.cursors == store.cursors
      requires agents.View() == A.IDLE && Kept() == D.IDLE
      modifies store
      ensures step == Boot(now) && Enabled(cfg, s, step) && Reflects(Next(cfg, s, step))
    {
      var _ := store.RequeueRunningTasks(now);
      step := Boot(now);
    }

    /**
     * Shutdown: the dispatcher gives back what it holds, then the coordinator. If the two held all
     * the running work, no row is left RUNNING.
     */
    method Close(finished: map<string, D.Reply>, now: real, ghost s: System) returns (ghost steps: seq<Step>)
      requires Wired() && Reflects(s) && !agents.closed && !Kept().closed
      modifies store, agents, pool
      ensures Runs(cfg, s, steps) && Reflects(After(cfg, s, steps))
      ensures cfg.Valid() && Owned(cfg, s) ==> RunningRows(store.tasks) == {}
    {
      ghost var a := CloseDispatcher(finished, now, s);
      ghost var s1 := After(cfg, s, a);
      ghost var who, rest;
      who, rest := agents.Close(now);
      ghost var b := Lifted((x: A.Step) => Agent(x), [A.Shut] + rest);
      LiftAgents(cfg, s1, [A.Shut] + rest, store.tasks, agents.View());
      Joined(cfg, s, a, b);
      steps := a + b;
      if cfg.Valid() && Owned(cfg, s) {
        OwnershipAlways(cfg, s, steps);
      }
    }

    method CloseDispatcher(finished: map<string, D.Reply>, now: real, ghost s: System) returns (ghost steps: seq<Step>)
      requires Wired() && Reflects(s) && !Kept().closed
      modifies store, pool
      ensures Runs(cfg, s, steps) && Reflects(After(cfg, s, steps))
      ensures Kept().pending == map[] && Kept().batch == []
    {
      steps := [];
      if pool != null {
        ghost var a, b, c, d;
        a, b, c, d := pool.Close(finished, now);
        steps := Lifted((x: D.Step) => Disp(x), b + [D.Shut] + d);
        LiftDispatcher(cfg, s, b + [D.Shut] + d, store.tasks, Kept());
      }
    }
  }
}
