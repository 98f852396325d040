// The agent coordinator object of manager/agents.py, proved to run the machine of Agents.
module Coordinators {
  import opened Basics
  import opened TaskTable
  import opened Agents
  import opened StateStores

  /** `pooled` agents (provider "ollama") answer in the background, the others at once. */
  datatype Spec = Spec(agent: string, enabled: bool, pooled: bool, interval: real)

  /** Whether a tick runs this agent now. */
  predicate Goes(spec: Spec, lastRun: map<string, real>, busy: set<string>, mono: real) {
    && spec.enabled && spec.agent !in busy
    && (spec.agent in lastRun ==> mono - lastRun[spec.agent] >= spec.interval)
  }

  datatype Turn = Turn(lastRun: map<string, real>, busy: set<string>, sessions: seq<Spec>)

  /** The agents a tick runs, in configuration order, and what is remembered about them. */
  function Turns(specs: seq<Spec>, lastRun: map<string, real>, busy: set<string>, mono: real): Turn {
    if specs == [] then Turn(lastRun, busy, [])
    else
      var t := Turns(specs[..|specs| - 1], lastRun, busy, mono);
      var spec := specs[|specs| - 1];
      if Goes(spec, t.lastRun, t.busy, mono)
      then Turn(t.lastRun[spec.agent := mono], if spec.pooled then t.busy + {spec.agent} else t.busy, t.sessions + [spec])
      else t
  }

  predicate Opens(st: Step, agent: string) {
    (st.Resume? && st.agent == agent) || (st.Create? && st.agent == agent)
  }

  /** The three steps of one agent call. */
  predicate Session(spec: Spec, a: Step, b: Step, c: Step, now: real) {
    Opens(a, spec.agent) && b == Begin(now) && c == if spec.pooled then Park else Record(now)
  }

  ghost predicate SessionsOf(sessions: seq<Spec>, steps: seq<Step>, now: real) {
    && |steps| == 3 * |sessions|
    && forall k | 0 <= k < |sessions| ::
         Session(sessions[k], steps[3 * k], steps[3 * k + 1], steps[3 * k + 2], now)
  }

  lemma TurnsNext(specs: seq<Spec>, i: nat, lastRun: map<string, real>, busy: set<string>, mono: real)
    requires i < |specs|
    ensures var t := Turns(specs[..i], lastRun, busy, mono);
            var spec := specs[i];
            Turns(specs[..i + 1], lastRun, busy, mono) ==
            if Goes(spec, t.lastRun, t.busy, mono)
            then Turn(t.lastRun[spec.agent := mono], if spec.pooled then t.busy + {spec.agent} else t.busy, t.sessions + [spec])
            else t
  {
    assert specs[..i + 1][..i] == specs[..i];
  }

  lemma SessionsExtend(sessions: seq<Spec>, steps: seq<Step>, spec: Spec, three: seq<Step>, now: real)
    requires SessionsOf(sessions, steps, now) && |three| == 3 && Session(spec, three[0], three[1], three[2], now)
    ensures SessionsOf(sessions + [spec], steps + three, now)
  {
    var all := steps + three;
    forall k | 0 <= k <= |sessions|
      ensures Session((sessions + [spec])[k], all[3 * k], all[3 * k + 1], all[3 * k + 2], now)
    {
      if k < |sessions| {
        assert all[3 * k] == steps[3 * k] && all[3 * k + 1] == steps[3 * k + 1] && all[3 * k + 2] == steps[3 * k + 2];
      }
    }
  }

  class AgentCoordinator {
    const scheduler: WorkScheduler
    const specs: seq<Spec>
    var lastRun: map<string, real>
    var busy: set<string>
    var taskIds: map<string, string>
    var closed: bool

    ghost function View(): Mem
      reads this
    {
      Mem(None, None, busy, taskIds, closed)
    }

    constructor (scheduler: WorkScheduler, specs: seq<Spec>)
      ensures this.scheduler == scheduler && this.specs == specs && View() == IDLE && lastRun == map[]
    {
      this.scheduler, this.specs := scheduler, specs;
      lastRun, busy, taskIds, closed := map[], {}, map[], false;
    }

    /** `_start_task`; newId is the freshly drawn id, used only when no queued review is found. */
    method StartTask(agent: string, objective: string, newId: string, now: real)
      returns (task: Option<string>, ghost first: Step)
      modifies scheduler.store`tasks
      ensures Opens(first, agent) && (first.Create? ==> first == Create(agent, newId, objective, now))
      ensures Found(old(scheduler.store.tasks), REVIEW, OWNER, agent, if first.Resume? then Some(first.id) else None)
      ensures var ts1, m1 := Table(old(scheduler.store.tasks), View(), first), Memory(old(scheduler.store.tasks), View(), first);
              && scheduler.store.tasks == Table(ts1, m1, Begin(now))
              && task == if IsQueued(ts1, first.id) then Some(first.id) else None
    {
      var store := scheduler.store;
      var found := store.FindQueuedTask(REVIEW, OWNER, agent);
      var id := if found.Some? then found.value else newId;
      first := if found.Some? then Resume(agent, id) else Create(agent, id, objective, now);
      var status := store.TaskStatus(id);
      if status.None? {
        store.EnqueueTask(id, REVIEW, objective, map[OWNER := agent], None, now);
      }
      var started := store.StartTask(id, now);
      if !started {
        scheduler.Fail(id, None, now);
      }
      task := if started then Some(id) else None;
    }

    /** `_record` for the store: a finished call completes its task. */
    method RecordTask(task: Option<string>, now: real)
      modifies scheduler.store`tasks
      ensures scheduler.store.tasks == Completed(old(scheduler.store.tasks), task, now)
    {
      if task.Some? {
        scheduler.CompleteTask(task.value, now);
      }
    }

    /** `done`: the agents whose pooled calls are over. */
    method CollectCompleted(done: set<string>, now: real) returns (ghost agents: seq<string>, ghost steps: seq<Step>)
      requires !closed
      modifies scheduler.store`tasks, this`busy, this`taskIds
      ensures Runs(old(scheduler.store.tasks), old(View()), steps, scheduler.store.tasks, View())
      ensures busy == old(busy) - done && scheduler.store.tasks.Keys == old(scheduler.store.tasks.Keys)
      ensures multiset(agents) == multiset(old(busy) * done)
      ensures |steps| == |agents| && forall i | 0 <= i < |agents| :: steps[i] == Collect(agents[i], now)
    {
      agents, steps := [], [];
      ghost var ts0, m0 := scheduler.store.tasks, View();
      var todo := busy * done;
      while todo != {}
        invariant todo <= busy * done && busy == m0.busy - (m0.busy * done - todo)
        invariant Runs(ts0, m0, steps, scheduler.store.tasks, View())
        invariant scheduler.store.tasks.Keys == ts0.Keys
        invariant multiset(agents) + multiset(todo) == multiset(m0.busy * done)
        invariant |steps| == |agents| && forall i | 0 <= i < |agents| :: steps[i] == Collect(agents[i], now)
        decreases todo
      {
        var agent :| agent in todo;
        TakeOne(agents, todo, m0.busy * done, agent);
        ghost var ts, m := scheduler.store.tasks, View();
        var task := if agent in taskIds then Some(taskIds[agent]) else None;
        taskIds := taskIds - {agent};
        RecordTask(task, now);
        busy := busy - {agent};
        RunsExtend(ts0, m0, steps, ts, m, Collect(agent, now));
        steps := steps + [Collect(agent, now)];
        agents := agents + [agent];
        todo := todo - {agent};
      }
    }

    /** One agent's turn: start its task, then answer at once or go to the pool. */
    method RunAgent(spec: Spec, objective: string, newId: string, now: real) returns (ghost steps: seq<Step>)
      requires FreeFor(View(), spec.agent) && newId !in scheduler.store.tasks && NewReviewId(spec.agent) <= newId
      modifies scheduler.store`tasks, this`busy, this`taskIds
      ensures Runs(old(scheduler.store.tasks), old(View()), steps, scheduler.store.tasks, View())
      ensures |steps| == 3 && Session(spec, steps[0], steps[1], steps[2], now)
      ensures busy == if spec.pooled then old(busy) + {spec.agent} else old(busy)
      ensures scheduler.store.tasks.Keys <= old(scheduler.store.tasks.Keys) + {newId}
    {
      ghost var ts0, m0 := scheduler.store.tasks, View();
      var task, first := StartTask(spec.agent, objective, newId, now);
      ghost var ts1, m1 := scheduler.store.tasks, View().(working := Some(Work(spec.agent, task)));
      RunsExtend(ts0, m0, [], ts0, m0, first);
      RunsExtend(ts0, m0, [] + [first], Table(ts0, m0, first), Memory(ts0, m0, first), Begin(now));
      assert [] + [first] + [Begin(now)] == [first, Begin(now)];
      if spec.pooled {
        busy := busy + {spec.agent};
        if task.Some? {
          taskIds := taskIds[spec.agent := task.value];
        }
      } else {
        RecordTask(task, now);
      }
      ghost var last := if spec.pooled then Park else Record(now);
      RunsExtend(ts0, m0, [first, Begin(now)], ts1, m1, last);
      steps := [first, Begin(now)] + [last];
    }

    /** Run the agent when its turn has come. */
    method TakeTurn(spec: Spec, objective: string, newId: string, mono: real, now: real) returns (ghost three: seq<Step>)
      requires !closed && newId !in scheduler.store.tasks && NewReviewId(spec.agent) <= newId
      modifies scheduler.store`tasks, this`busy, this`taskIds, this`lastRun
      ensures Runs(old(scheduler.store.tasks), old(View()), three, scheduler.store.tasks, View())
      ensures scheduler.store.tasks.Keys <= old(scheduler.store.tasks.Keys) + {newId}
      ensures if Goes(spec, old(lastRun), old(busy), mono) then
                && |three| == 3 && Session(spec, three[0], three[1], three[2], now)
                && lastRun == old(lastRun)[spec.agent := mono]
                && busy == if spec.pooled then old(busy) + {spec.agent} else old(busy)
              else three == [] && lastRun == old(lastRun) && busy == old(busy)
    {
      three := [];
      if Goes(spec, lastRun, busy, mono) {
        lastRun := lastRun[spec.agent := mono];
        three := RunAgent(spec, objective, newId, now);
      }
    }

    /** Give every configured agent its turn. newIds holds one fresh id per agent. */
    method TakeTurns(objective: string, newIds: seq<string>, mono: real, now: real) returns (ghost steps: seq<Step>)
      requires !closed && |newIds| == |specs|
      requires forall i | 0 <= i < |specs| :: newIds[i] !in scheduler.store.tasks && NewReviewId(specs[i].agent) <= newIds[i]
      requires forall i, j | 0 <= i < j < |specs| :: newIds[i] != newIds[j]
      modifies scheduler.store`tasks, this`busy, this`taskIds, this`lastRun
      ensures Runs(old(scheduler.store.tasks), old(View()), steps, scheduler.store.tasks, View())
      ensures var t := Turns(specs, old(lastRun), old(busy), mono);
              lastRun == t.lastRun && busy == t.busy && SessionsOf(t.sessions, steps, now)
    {
      ghost var ts0, m0 := scheduler.store.tasks, View();
      steps := [];
      assert specs[..0] == [];
      for i := 0 to |specs|
        invariant !closed && Runs(ts0, m0, steps, scheduler.store.tasks, View())
        invariant forall j | i <= j < |specs| :: newIds[j] !in scheduler.store.tasks
        invariant var t := Turns(specs[..i], old(lastRun), old(busy), mono);
                  lastRun == t.lastRun && busy == t.busy && SessionsOf(t.sessions, steps, now)
      {
        ghost var t := Turns(specs[..i], old(lastRun), old(busy), mono);
        ghost var ts1, m1 := scheduler.store.tasks, View();
        TurnsNext(specs, i, old(lastRun), old(busy), mono);
        ghost var three := TakeTurn(specs[i], objective, newIds[i], mono, now);
        RunsJoin(ts0, m0, steps, ts1, m1, three, scheduler.store.tasks, View());
        if three != [] {
          SessionsExtend(t.sessions, steps, specs[i], three, now);
        } else {
          assert steps + three == steps;
        }
        steps := steps + three;
      }
      assert specs[..|specs|] == specs;
    }

    /** `tick`: collect, then give every configured agent its turn. */
    method Tick(objective: string, newIds: seq<string>, done: set<string>, mono: real, now: real)
      returns (ghost agents: seq<string>, ghost collects: seq<Step>, ghost steps: seq<Step>)
      requires !closed && |newIds| == |specs|
      requires forall i | 0 <= i < |specs| :: newIds[i] !in scheduler.store.tasks && NewReviewId(specs[i].agent) <= newIds[i]
      requires forall i, j | 0 <= i < j < |specs| :: newIds[i] != newIds[j]
      modifies scheduler.store`tasks, this`busy, this`taskIds, this`lastRun
      ensures Runs(old(scheduler.store.tasks), old(View()), collects + steps, scheduler.store.tasks, View())
      ensures multiset(agents) == multiset(old(busy) * done) && |collects| == |agents|
      ensures forall i | 0 <= i < |agents| :: collects[i] == Collect(agents[i], now)
      ensures var t := Turns(specs, old(lastRun), old(busy) - done, mono);
              lastRun == t.lastRun && busy == t.busy && SessionsOf(t.sessions, steps, now)
    {
      ghost var ts0, m0 := scheduler.store.tasks, View();
      agents, collects := CollectCompleted(done, now);
      ghost var ts1, m1 := scheduler.store.tasks, View();
      steps := TakeTurns(objective, newIds, mono, now);
      RunsJoin(ts0, m0, collects, ts1, m1, steps, scheduler.store.tasks, View());
    }

    /** Requeue the unfinished reviews. */
    method Close(now: real) returns (ghost agents: seq<string>, ghost steps: seq<Step>)
      requires !closed
      modifies scheduler.store`tasks, this`busy, this`taskIds, this`closed
      ensures Runs(old(scheduler.store.tasks), old(View()), [Shut] + steps, scheduler.store.tasks, View())
      ensures View() == Mem(None, None, {}, map[], true)
      ensures multiset(agents) == multiset(old(taskIds).Keys)
      ensures |steps| == |agents| && forall i | 0 <= i < |agents| :: steps[i] == Release(agents[i], now)
    {
      agents, steps := [], [];
      ghost var ts0, m0 := scheduler.store.tasks, View();
      ghost var left := taskIds;
      busy, closed := {}, true;
      RunsExtend(ts0, m0, [], ts0, m0, Shut);
      assert [] + [Shut] == [Shut] + [];
      var todo := taskIds.Keys;
      while todo != {}
        invariant left.Keys == todo && todo <= taskIds.Keys && taskIds == m0.taskIds && busy == {} && closed
        invariant forall a | a in left :: left[a] == taskIds[a]
        invariant Runs(ts0, m0, [Shut] + steps, scheduler.store.tasks, Mem(None, None, {}, left, true))
        invariant multiset(agents) + multiset(todo) == multiset(m0.taskIds.Keys)
        invariant |steps| == |agents| && forall i | 0 <= i < |agents| :: steps[i] == Release(agents[i], now)
        decreases todo
      {
        var agent :| agent in todo;
        TakeOne(agents, todo, m0.taskIds.Keys, agent);
        ghost var ts, m := scheduler.store.tasks, Mem(None, None, {}, left, true);
        scheduler.Fail(taskIds[agent], Some(now), now);
        RunsExtend(ts0, m0, [Shut] + steps, ts, m, Release(agent, now));
        assert [Shut] + steps + [Release(agent, now)] == [Shut] + (steps + [Release(agent, now)]);
        steps := steps + [Release(agent, now)];
        agents := agents + [agent];
        left := left - {agent};
        todo := todo - {agent};
      }
      taskIds := map[];
      assert left == map[];
    }
  }
}
