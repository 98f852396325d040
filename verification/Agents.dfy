// The agent coordinator of manager/agents.py as steps on the task table and its
// memory: the second owner of running tasks.
module Agents {
  import opened Basics
  import opened TaskTable
  import opened Chains

  const REVIEW: string := "agent_review"
  const OWNER: string := "agent_id"

  datatype Starting = Starting(agent: string, id: string)

  /** A started agent call; the task is missing when its start was refused. */
  datatype Work = Work(agent: string, task: Option<string>)

  datatype Mem = Mem(
    starting: Option<Starting>,
    working: Option<Work>,
    busy: set<string>,             // agents with a call in the pool
    taskIds: map<string, string>,  // their review tasks
    closed: bool)

  const IDLE: Mem := Mem(None, None, {}, map[], false)

  function OwnerOf(t: Task): string { PayloadText(t.payload, OWNER) }

  predicate IsReview(ts: Tasks, id: string, agent: string) {
    id in ts && ts[id].kind == REVIEW && OwnerOf(ts[id]) == agent
  }

  /** What precedes the random part of a new review id; the random part makes the id unused. */
  function NewReviewId(agent: string): string { "agent-task-" + agent + "-" }

  datatype Step =
    | Resume(agent: string, id: string)    // _start_task finds a queued review
    | Create(agent: string, id: string, objective: string, now: real)  // or enqueues a new one
    | Begin(now: real)                     // and starts it, or fails it
    | Park                                 // the call goes to the pool
    | Record(now: real)                    // the call was synchronous and is over
    | Collect(agent: string, now: real)    // a pooled call is over
    | Shut
    | Release(agent: string, now: real)    // close() requeues an unfinished review

  predicate FreeFor(m: Mem, agent: string) {
    !m.closed && m.starting == None && m.working == None && agent !in m.busy
  }

  ghost predicate Enabled(ts: Tasks, m: Mem, st: Step) {
    match st
    case Resume(agent, id) => FreeFor(m, agent) && Found(ts, REVIEW, OWNER, agent, Some(id))
    case Create(agent, id, _, _) =>
      FreeFor(m, agent) && Found(ts, REVIEW, OWNER, agent, None) && NewReviewId(agent) <= id && id !in ts
    case Begin(_) => m.starting.Some?
    case Park => m.working.Some?
    case Record(_) => m.working.Some?
    case Collect(agent, _) => agent in m.busy && m.working == None && m.starting == None && !m.closed
    case Shut => m.working == None && m.starting == None && !m.closed
    case Release(agent, _) => m.closed && agent in m.taskIds
  }

  function Completed(ts: Tasks, id: Option<string>, now: real): Tasks {
    if id.Some? then Finish(ts, id.value, Complete, None, now) else ts
  }

  function TaskOf(m: Mem, agent: string): Option<string> {
    if agent in m.taskIds then Some(m.taskIds[agent]) else None
  }

  function Table(ts: Tasks, m: Mem, st: Step): Tasks {
    match st
    case Create(agent, id, objective, now) => Enqueue(ts, id, REVIEW, objective, map[OWNER := agent], now, now)
    case Begin(now) =>
      if m.starting.None? then ts
      else if IsQueued(ts, m.starting.value.id) then Start(ts, m.starting.value.id, now)
      else Finish(ts, m.starting.value.id, Failed, None, now)
    case Record(now) => if m.working.None? then ts else Completed(ts, m.working.value.task, now)
    case Collect(agent, now) => Completed(ts, TaskOf(m, agent), now)
    case Release(agent, now) => if agent in m.taskIds then Finish(ts, m.taskIds[agent], Queued, Some(now), now) else ts
    case _ => ts
  }

  function Memory(ts: Tasks, m: Mem, st: Step): Mem {
    match st
    case Resume(agent, id) => m.(starting := Some(Starting(agent, id)))
    case Create(agent, id, _, _) => m.(starting := Some(Starting(agent, id)))
    case Begin(_) =>
      if m.starting.None? then m
      else
        var s := m.starting.value;
        m.(starting := None, working := Some(Work(s.agent, if IsQueued(ts, s.id) then Some(s.id) else None)))
    case Park =>
      if m.working.None? then m
      else
        var w := m.working.value;
        m.(working := None, busy := m.busy + {w.agent},
           taskIds := if w.task.Some? then m.taskIds[w.agent := w.task.value] else m.taskIds)
    case Record(_) => m.(working := None)
    case Collect(agent, _) => m.(busy := m.busy - {agent}, taskIds := m.taskIds - {agent})
    case Shut => m.(closed := true, busy := {})
    case Release(agent, _) => m.(taskIds := m.taskIds - {agent})
  }

  datatype State = State(tasks: Tasks, mem: Mem)

  ghost function Allows(): (State, Step) -> bool {
    (q: State, st: Step) => Enabled(q.tasks, q.mem, st)
  }

  ghost function Leads(): (State, Step) -> State {
    (q: State, st: Step) => State(Table(q.tasks, q.mem, st), Memory(q.tasks, q.mem, st))
  }

  ghost predicate Runs(ts: Tasks, m: Mem, steps: seq<Step>, ts': Tasks, m': Mem) {
    Chain(Allows(), Leads(), State(ts, m), steps, State(ts', m'))
  }

  lemma RunsExtend(ts: Tasks, m: Mem, steps: seq<Step>, ts': Tasks, m': Mem, st: Step)
    requires Runs(ts, m, steps, ts', m') && Enabled(ts', m', st)
    ensures Runs(ts, m, steps + [st], Table(ts', m', st), Memory(ts', m', st))
  {
    Extend(Allows(), Leads(), State(ts, m), steps, State(ts', m'), st);
  }

  lemma RunsJoin(ts: Tasks, m: Mem, a: seq<Step>, ts1: Tasks, m1: Mem, b: seq<Step>, ts2: Tasks, m2: Mem)
    requires Runs(ts, m, a, ts1, m1) && Runs(ts1, m1, b, ts2, m2)
    ensures Runs(ts, m, a + b, ts2, m2)
  {
    Join(Allows(), Leads(), State(ts, m), a, State(ts1, m1), b, State(ts2, m2));
  }

  // ----- ownership: the coordinator owns exactly the running reviews -----

  predicate Owns(m: Mem, agent: string, id: string) {
    (agent in m.taskIds && m.taskIds[agent] == id) || m.working == Some(Work(agent, Some(id)))
  }

  ghost predicate Owned(ts: Tasks, m: Mem) {
    && (forall id | id in ts && ts[id].kind == REVIEW && ts[id].status == Running :: Owns(m, OwnerOf(ts[id]), id))
    && (forall a | a in m.taskIds :: IsReview(ts, m.taskIds[a], a) && IsRunning(ts, m.taskIds[a]) && (a in m.busy || m.closed))
    && (m.working.Some? ==>
          var w := m.working.value;
          && w.agent !in m.taskIds && m.starting == None && !m.closed
          && (w.task.Some? ==> IsReview(ts, w.task.value, w.agent) && IsRunning(ts, w.task.value)))
    && (m.starting.Some? ==>
          var s := m.starting.value;
          s.agent !in m.taskIds && !m.closed && IsReview(ts, s.id, s.agent) && IsQueued(ts, s.id))
  }

  /** Rows of other kinds are left alone, and new rows are reviews. */
  ghost predicate LeavesOthers(a: Tasks, b: Tasks) {
    && (forall id | id in a && a[id].kind != REVIEW :: id in b && b[id] == a[id])
    && (forall id | id in b && id !in a :: b[id].kind == REVIEW)
  }

  lemma EndedRow(ts: Tasks, id: string, status: Status, at: Option<real>, now: real)
    requires IsRunning(ts, id) && ts[id].kind == REVIEW && status in {Queued, Complete}
    ensures var ts' := Finish(ts, id, status, at, now);
            && RowsMove(ts, ts') && LeavesOthers(ts, ts') && ts'.Keys == ts.Keys
            && (forall o | o in ts && o != id :: ts'[o] == ts[o]) && ts'[id].status == status
  {
  }

  lemma EndReview(ts: Tasks, m: Mem, id: string, agent: string, ts': Tasks, m': Mem)
    requires Owned(ts, m) && Owns(m, agent, id)
    requires m.starting == None && (m.working == None || m.working == Some(Work(agent, Some(id))))
    requires m'.starting == None && m'.working == None && m'.taskIds == m.taskIds - {agent} && m'.busy >= m.busy - {agent}
    requires m'.closed == m.closed
    requires ts'.Keys == ts.Keys && (forall o | o in ts && o != id :: ts'[o] == ts[o])
    requires id in ts' && ts'[id].status != Running
    ensures Owned(ts', m')
  {
    assert IsReview(ts, id, agent);
    forall a | a in m'.taskIds
      ensures IsReview(ts', m'.taskIds[a], a) && IsRunning(ts', m'.taskIds[a]) && (a in m'.busy || m'.closed)
    {
      assert m'.taskIds[a] == m.taskIds[a] && m.taskIds[a] != id;
    }
    forall o | o in ts' && ts'[o].kind == REVIEW && ts'[o].status == Running
      ensures Owns(m', OwnerOf(ts'[o]), o)
    {
      assert o != id && Owns(m, OwnerOf(ts[o]), o);
    }
  }

  /**
   * Every coordinator step keeps ownership, moves rows only as allowed and leaves other kinds
   * alone. In particular the branch of _start_task that fails a task is never taken.
   */
  lemma StepOwned(ts: Tasks, m: Mem, st: Step)
    requires Owned(ts, m) && Enabled(ts, m, st)
    ensures Owned(Table(ts, m, st), Memory(ts, m, st))
    ensures RowsMove(ts, Table(ts, m, st)) && LeavesOthers(ts, Table(ts, m, st))
    ensures st.Begin? ==> IsQueued(ts, m.starting.value.id) && Memory(ts, m, st).working.value.task.Some?
  {
    var m' := Memory(ts, m, st);
    match st
    case Collect(agent, now) =>
      if agent in m.taskIds {
        EndedRow(ts, m.taskIds[agent], Complete, None, now);
        EndReview(ts, m, m.taskIds[agent], agent, Table(ts, m, st), m');
      } else {
        assert m'.taskIds == m.taskIds;
      }
    case Record(now) =>
      var w := m.working.value;
      assert m.taskIds - {w.agent} == m.taskIds;
      if w.task.Some? {
        EndedRow(ts, w.task.value, Complete, None, now);
        EndReview(ts, m, w.task.value, w.agent, Table(ts, m, st), m');
      }
    case Release(agent, now) => 
      EndedRow(ts, m.taskIds[agent], Queued, Some(now), now);
      EndReview(ts, m, m.taskIds[agent], agent, Table(ts, m, st), m');
    case Create(agent, id, objective, now) => CreateOwned(ts, m, st);
    case Begin(now) => BeginOwned(ts, m, now);
    case Park => ParkOwned(ts, m);
    case _ =>
  }

  lemma CreateOwned(ts: Tasks, m: Mem, st: Step)
    requires Owned(ts, m) && Enabled(ts, m, st) && st.Create?
    ensures Owned(Table(ts, m, st), Memory(ts, m, st))
    ensures RowsMove(ts, Table(ts, m, st)) && LeavesOthers(ts, Table(ts, m, st))
  {
  }

  lemma BeginOwned(ts: Tasks, m: Mem, now: real)
    requires Owned(ts, m) && Enabled(ts, m, Begin(now))
    ensures Owned(Table(ts, m, Begin(now)), Memory(ts, m, Begin(now)))
    ensures RowsMove(ts, Table(ts, m, Begin(now))) && LeavesOthers(ts, Table(ts, m, Begin(now)))
    ensures IsQueued(ts, m.starting.value.id) && Memory(ts, m, Begin(now)).working.value.task.Some?
  {
    var s := m.starting.value;
    var ts' := Table(ts, m, Begin(now));
    assert ts' == ts[s.id := Started(ts[s.id], now)];
    assert m.working == None;
  }

  lemma ParkOwned(ts: Tasks, m: Mem)
    requires Owned(ts, m) && Enabled(ts, m, Park)
    ensures Owned(ts, Memory(ts, m, Park))
  {
    var w := m.working.value;
    var m' := Memory(ts, m, Park);
    forall id | id in ts && ts[id].kind == REVIEW && ts[id].status == Running
      ensures Owns(m', OwnerOf(ts[id]), id)
    {
      assert Owns(m, OwnerOf(ts[id]), id);
    }
  }
}
