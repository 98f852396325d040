// The two work dispatchers of manager/dispatcher.py as steps on the task table and
// the dispatcher's memory. Each step makes at most one store write, so the manager
// may die between any two of them.
module Dispatch {
  import opened Basics
  import opened TaskTable
  import opened Chains

  datatype Item = Item(id: string, kind: string, objective: string, payload: Payload, attempts: nat)

  /** What a handler asks for; `Unsupported` stands for any other status text. */
  datatype Ask = AskComplete | AskRetry | AskFailed | AskEscalated | Unsupported

  /** A handler call returned, or it raised. */
  datatype Reply = Returned(ask: Ask, retryAfter: real) | Raised

  datatype Verdict = Stop(status: Status) | Again(delay: real)

  datatype Config = Config(
    background: bool, handlers: set<string>, reserved: set<string>,
    maxAttempts: nat, deferDelay: real, maxInFlight: nat)
  {
    predicate Valid() { maxAttempts >= 1 && deferDelay > 0.0 && maxInFlight >= 1 }
  }

  /** `batch`: claimed items the present dispatch call has yet to handle. */
  datatype Mem = Mem(batch: seq<Item>, pending: map<string, Item>, closed: bool)

  const IDLE: Mem := Mem([], map[], false)

  function ItemOf(id: string, t: Task): Item { Item(id, t.kind, t.objective, t.payload, t.attempts) }

  /** The WorkItems a claim returns: the rows as they are after the claim. */
  function Items(ts: Tasks, ids: seq<string>): seq<Item>
    requires forall id | id in ids :: id in ts
  {
    seq(|ids|, i requires 0 <= i < |ids| => ItemOf(ids[i], ts[ids[i]]))
  }

  function OnError(cfg: Config, attempts: nat): Verdict {
    if attempts >= cfg.maxAttempts then Stop(Escalated) else Again(cfg.deferDelay)
  }

  /** _apply_outcome, falling back to _apply_error. */
  function Judge(cfg: Config, attempts: nat, reply: Reply): Verdict {
    match reply
    case Raised => OnError(cfg, attempts)
    case Returned(ask, retryAfter) =>
      match ask
      case AskComplete => Stop(Complete)
      case AskFailed => Stop(Failed)
      case AskEscalated => Stop(Escalated)
      case AskRetry =>
        if attempts >= cfg.maxAttempts then Stop(Escalated) else Again(RealMax(0.1, retryAfter))
      case Unsupported => OnError(cfg, attempts)
  }

  function Apply(ts: Tasks, id: string, v: Verdict, now: real): Tasks {
    match v
    case Stop(status) => Finish(ts, id, status, None, now)
    case Again(delay) => Finish(ts, id, Queued, Some(now + delay), now)
  }

  datatype Step =
    | ClaimStep(ids: seq<string>, limit: int, now: real)
    | Settle(reply: Reply, now: real)              // synchronous: run the handler of the first item
    | Defer(now: real)                             // no handler registered for the first item
    | Submit                                       // background: hand the first item to the pool
    | Collect(id: string, reply: Reply, now: real) // background: a handler has finished
    | Shut                                         // close() stops taking work
    | Release(id: string, now: real)               // close() requeues an unfinished item

  function Room(cfg: Config, m: Mem): int { cfg.maxInFlight - |m.pending| }

  function Limit(cfg: Config, m: Mem, limit: int): nat {
    ClaimLimit(if cfg.background then Min(limit, Room(cfg, m)) else limit)
  }

  ghost predicate Enabled(cfg: Config, ts: Tasks, m: Mem, st: Step) {
    match st
    case ClaimStep(ids, limit, now) =>
      && m.batch == [] && !m.closed && (cfg.background ==> Room(cfg, m) > 0)
      && Selection(ts, now, cfg.reserved, Limit(cfg, m, limit), ids)
    case Settle(_, _) => m.batch != [] && !cfg.background && m.batch[0].kind in cfg.handlers
    case Defer(_) => m.batch != [] && m.batch[0].kind !in cfg.handlers
    case Submit => m.batch != [] && cfg.background && m.batch[0].kind in cfg.handlers
    case Collect(id, _, _) => m.batch == [] && !m.closed && id in m.pending
    case Shut => m.batch == [] && cfg.background && !m.closed
    case Release(id, _) => m.closed && id in m.pending
  }

  function Table(cfg: Config, ts: Tasks, m: Mem, st: Step): Tasks {
    match st
    case ClaimStep(ids, _, now) => Claim(ts, ids, now)
    case Settle(reply, now) =>
      if m.batch == [] then ts else Apply(ts, m.batch[0].id, Judge(cfg, m.batch[0].attempts, reply), now)
    case Defer(now) =>
      if m.batch == [] then ts else Finish(ts, m.batch[0].id, Queued, Some(now + cfg.deferDelay), now)
    case Submit => ts
    case Collect(id, reply, now) =>
      if id !in m.pending then ts else Apply(ts, id, Judge(cfg, m.pending[id].attempts, reply), now)
    case Shut => ts
    case Release(id, now) => Finish(ts, id, Queued, Some(now), now)
  }

  function Memory(cfg: Config, ts: Tasks, m: Mem, st: Step): Mem {
    match st
    case ClaimStep(ids, _, now) =>
      if forall id | id in ids :: id in ts then m.(batch := Items(Claim(ts, ids, now), ids)) else m
    case Settle(_, _) => if m.batch == [] then m else m.(batch := m.batch[1..])
    case Defer(_) => if m.batch == [] then m else m.(batch := m.batch[1..])
    case Submit =>
      if m.batch == [] then m
      else m.(batch := m.batch[1..], pending := m.pending[m.batch[0].id := m.batch[0]])
    case Collect(id, _, _) => m.(pending := m.pending - {id})
    case Shut => m.(closed := true)
    case Release(id, _) => m.(pending := m.pending - {id})
  }

  // ----- executions of several steps -----

  datatype State = State(tasks: Tasks, mem: Mem)

  ghost function Allows(cfg: Config): (State, Step) -> bool {
    (q: State, st: Step) => Enabled(cfg, q.tasks, q.mem, st)
  }

  ghost function Leads(cfg: Config): (State, Step) -> State {
    (q: State, st: Step) => State(Table(cfg, q.tasks, q.mem, st), Memory(cfg, q.tasks, q.mem, st))
  }

  ghost predicate Runs(cfg: Config, ts: Tasks, m: Mem, steps: seq<Step>, ts': Tasks, m': Mem) {
    Chain(Allows(cfg), Leads(cfg), State(ts, m), steps, State(ts', m'))
  }

  lemma RunsExtend(cfg: Config, ts: Tasks, m: Mem, steps: seq<Step>, ts': Tasks, m': Mem, st: Step)
    requires Runs(cfg, ts, m, steps, ts', m') && Enabled(cfg, ts', m', st)
    ensures Runs(cfg, ts, m, steps + [st], Table(cfg, ts', m', st), Memory(cfg, ts', m', st))
  {
    Extend(Allows(cfg), Leads(cfg), State(ts, m), steps, State(ts', m'), st);
  }

  lemma RunsJoin(cfg: Config, ts: Tasks, m: Mem, a: seq<Step>, ts1: Tasks, m1: Mem, b: seq<Step>, ts2: Tasks, m2: Mem)
    requires Runs(cfg, ts, m, a, ts1, m1) && Runs(cfg, ts1, m1, b, ts2, m2)
    ensures Runs(cfg, ts, m, a + b, ts2, m2)
  {
    Join(Allows(cfg), Leads(cfg), State(ts, m), a, State(ts1, m1), b, State(ts2, m2));
  }

  // ----- ownership: the dispatcher owns exactly the running rows outside the reserved kinds -----

  predicate BatchHas(m: Mem, id: string) { exists i | 0 <= i < |m.batch| :: m.batch[i].id == id }

  predicate Owns(m: Mem, id: string) { id in m.pending || BatchHas(m, id) }

  ghost predicate Matches(ts: Tasks, cfg: Config, it: Item) {
    IsRunning(ts, it.id) && it == ItemOf(it.id, ts[it.id]) && it.kind !in cfg.reserved
  }

  ghost predicate Owned(cfg: Config, ts: Tasks, m: Mem) {
    && (forall id | id in ts && ts[id].kind !in cfg.reserved && ts[id].status == Running :: Owns(m, id))
    && (forall i | 0 <= i < |m.batch| :: Matches(ts, cfg, m.batch[i]) && m.batch[i].id !in m.pending)
    && (forall id | id in m.pending :: m.pending[id].id == id && Matches(ts, cfg, m.pending[id]))
    && (forall i, j | 0 <= i < j < |m.batch| :: m.batch[i].id != m.batch[j].id)
    && (cfg.background ==> |m.pending| + |m.batch| <= cfg.maxInFlight)
    && (!cfg.background ==> m.pending == map[])
  }

  /** Rows of the reserved kinds are left alone. */
  ghost predicate LeavesReserved(cfg: Config, a: Tasks, b: Tasks) {
    forall id | id in a && a[id].kind in cfg.reserved :: id in b && b[id] == a[id]
  }

  lemma FinishMoves(ts: Tasks, id: string, status: Status, at: Option<real>, now: real)
    requires IsRunning(ts, id) && status in {Queued, Complete, Failed, Escalated}
    ensures RowsMove(ts, Finish(ts, id, status, at, now))
    ensures forall o | o in ts && o != id :: Finish(ts, id, status, at, now)[o] == ts[o]
  {
  }

  lemma JudgeEnds(cfg: Config, ts: Tasks, id: string, attempts: nat, reply: Reply, now: real)
    requires IsRunning(ts, id)
    ensures var ts' := Apply(ts, id, Judge(cfg, attempts, reply), now);
            && RowsMove(ts, ts') && ts'.Keys == ts.Keys
            && (forall o | o in ts && o != id :: ts'[o] == ts[o])
            && ts'[id].status in {Queued, Complete, Failed, Escalated}
            && (ts'[id].status == Queued ==> attempts < cfg.maxAttempts)
  {
  }

  /** The handler raised, or asked for something it cannot have. */
  predicate Errs(reply: Reply) { reply.Raised? || reply.ask == Unsupported }

  predicate Asks(reply: Reply, ask: Ask) { reply.Returned? && reply.ask == ask }

  /**
   * What a handler's reply means for its row: it completes or fails exactly when the handler says so,
   * is tried again exactly when a retry is asked for (or an error occurs) below the attempt limit, at
   * the delay that goes with it, and is escalated otherwise.
   */
  lemma OutcomeDecides(cfg: Config, ts: Tasks, id: string, attempts: nat, reply: Reply, now: real)
    requires cfg.Valid() && IsRunning(ts, id)
    ensures var row := Apply(ts, id, Judge(cfg, attempts, reply), now)[id];
            && (row.status == Complete <==> Asks(reply, AskComplete))
            && (row.status == Failed <==> Asks(reply, AskFailed))
            && (row.status == Queued <==> attempts < cfg.maxAttempts && (Errs(reply) || Asks(reply, AskRetry)))
            && (row.status == Escalated <==>
                  Asks(reply, AskEscalated) || (attempts >= cfg.maxAttempts && (Errs(reply) || Asks(reply, AskRetry))))
            && (row.status == Queued ==>
                  row.scheduledAt - now == if Errs(reply) then cfg.deferDelay else RealMax(0.1, reply.retryAfter))
            && (row.status == Queued ==> row.scheduledAt > now)
            && SameWork(row, ts[id]) && row.attempts == ts[id].attempts
  {
  }

  /** A background claim never takes more than the free slots. */
  lemma LimitFits(cfg: Config, m: Mem, limit: int)
    requires cfg.background && Room(cfg, m) > 0
    ensures Limit(cfg, m, limit) <= Room(cfg, m)
  {
  }

  lemma ClaimRows(cfg: Config, ts: Tasks, ids: seq<string>, now: real)
    requires forall i | 0 <= i < |ids| :: Due(ts, ids[i], now, cfg.reserved)
    ensures var ts' := Claim(ts, ids, now);
            && RowsMove(ts, ts') && LeavesReserved(cfg, ts, ts') && ts'.Keys == ts.Keys
            && (forall id | id in ts && id !in ids :: ts'[id] == ts[id])
            && (forall i | 0 <= i < |ids| :: ids[i] in ts' && Matches(ts', cfg, ItemOf(ids[i], ts'[ids[i]])))
  {
    var ts' := Claim(ts, ids, now);
    assert forall id | id in ids :: Due(ts, id, now, cfg.reserved);
    assert forall i | 0 <= i < |ids| :: ids[i] in ids;
  }

  lemma ClaimOwned(cfg: Config, ts: Tasks, m: Mem, st: Step)
    requires cfg.Valid() && Owned(cfg, ts, m) && Enabled(cfg, ts, m, st) && st.ClaimStep?
    ensures Owned(cfg, Table(cfg, ts, m, st), Memory(cfg, ts, m, st))
    ensures RowsMove(ts, Table(cfg, ts, m, st)) && LeavesReserved(cfg, ts, Table(cfg, ts, m, st))
    ensures Table(cfg, ts, m, st).Keys == ts.Keys
  {
    var ids := st.ids;
    SelectionDistinct(ts, st.now, cfg.reserved, Limit(cfg, m, st.limit), ids);
    ClaimRows(cfg, ts, ids, st.now);
    if cfg.background {
      LimitFits(cfg, m, st.limit);
    }
    var ts' := Claim(ts, ids, st.now);
    var m' := m.(batch := Items(ts', ids));
    assert m' == Memory(cfg, ts, m, st);
    BatchOfClaim(cfg, ts, m, ts', ids);
  }

  lemma BatchOfClaim(cfg: Config, ts: Tasks, m: Mem, ts': Tasks, ids: seq<string>)
    requires Owned(cfg, ts, m) && m.batch == [] && ts'.Keys == ts.Keys
    requires forall id | id in ts && id !in ids :: ts'[id] == ts[id]
    requires forall id | id in ids :: IsQueued(ts, id)
    requires forall i | 0 <= i < |ids| :: ids[i] in ts' && Matches(ts', cfg, ItemOf(ids[i], ts'[ids[i]]))
    requires forall i, j | 0 <= i < j < |ids| :: ids[i] != ids[j]
    requires cfg.background ==> |m.pending| + |ids| <= cfg.maxInFlight
    ensures Owned(cfg, ts', m.(batch := Items(ts', ids)))
  {
    var m' := m.(batch := Items(ts', ids));
    assert forall i | 0 <= i < |ids| :: m'.batch[i] == ItemOf(ids[i], ts'[ids[i]]) && ids[i] in ids;
    forall id | id in ts' && ts'[id].kind !in cfg.reserved && ts'[id].status == Running ensures Owns(m', id) {
      if id in ids {
        var i :| 0 <= i < |ids| && ids[i] == id;
        assert m'.batch[i].id == id;
      } else {
        assert Owns(m, id);
      }
    }
  }

  lemma PopOwned(cfg: Config, ts: Tasks, m: Mem, ts': Tasks)
    requires Owned(cfg, ts, m) && m.batch != [] && ts'.Keys == ts.Keys
    requires forall o | o in ts && o != m.batch[0].id :: ts'[o] == ts[o]
    requires ts'[m.batch[0].id].status != Running
    ensures Owned(cfg, ts', m.(batch := m.batch[1..]))
  {
    var m' := m.(batch := m.batch[1..]);
    assert forall i | 0 <= i < |m'.batch| :: m'.batch[i] == m.batch[i + 1] && Matches(ts, cfg, m.batch[i + 1]);
    assert forall id | id in m.pending :: id != m.batch[0].id && Matches(ts, cfg, m.pending[id]);
    forall id | id in ts' && ts'[id].kind !in cfg.reserved && ts'[id].status == Running ensures Owns(m', id) {
      assert Owns(m, id) && id != m.batch[0].id;
      if id !in m.pending {
        var i :| 0 <= i < |m.batch| && m.batch[i].id == id;
        assert m'.batch[i - 1].id == id;
      }
    }
  }

  lemma SubmitOwned(cfg: Config, ts: Tasks, m: Mem)
    requires cfg.Valid() && Owned(cfg, ts, m) && Enabled(cfg, ts, m, Submit)
    ensures Owned(cfg, ts, Memory(cfg, ts, m, Submit))
  {
    var it := m.batch[0];
    var m' := Memory(cfg, ts, m, Submit);
    assert m'.pending.Keys == m.pending.Keys + {it.id};
    forall id | id in ts && ts[id].kind !in cfg.reserved && ts[id].status == Running ensures Owns(m', id) {
      assert Owns(m, id);
      if id !in m'.pending {
        var i :| 0 <= i < |m.batch| && m.batch[i].id == id;
        assert m'.batch[i - 1].id == id;
      }
    }
  }

  lemma FewerPending(pending: map<string, Item>, id: string)
    requires id in pending
    ensures |pending - {id}| == |pending| - 1
  {
    assert (pending - {id}).Keys == pending.Keys - {id};
  }

  lemma DropOwned(cfg: Config, ts: Tasks, m: Mem, id: string, ts': Tasks)
    requires Owned(cfg, ts, m) && id in m.pending && ts'.Keys == ts.Keys
    requires forall o | o in ts && o != id :: ts'[o] == ts[o]
    requires ts'[id].status != Running
    ensures Owned(cfg, ts', m.(pending := m.pending - {id}))
  {
    var m' := m.(pending := m.pending - {id});
    FewerPending(m.pending, id);
    assert forall i | 0 <= i < |m.batch| :: Matches(ts, cfg, m.batch[i]) && m.batch[i].id != id;
    forall o | o in m'.pending ensures m'.pending[o].id == o && Matches(ts', cfg, m'.pending[o]) {
      assert m'.pending[o] == m.pending[o] && Matches(ts, cfg, m.pending[o]);
    }
    forall o | o in ts' && ts'[o].kind !in cfg.reserved && ts'[o].status == Running ensures Owns(m', o) {
      assert Owns(m, o);
    }
  }

  /** Every dispatcher step keeps ownership, moves rows only as allowed and leaves reserved kinds alone. */
  lemma {:induction false} StepOwned(cfg: Config, ts: Tasks, m: Mem, st: Step)
    requires cfg.Valid() && Owned(cfg, ts, m) && Enabled(cfg, ts, m, st)
    ensures Owned(cfg, Table(cfg, ts, m, st), Memory(cfg, ts, m, st))
    ensures RowsMove(ts, Table(cfg, ts, m, st)) && LeavesReserved(cfg, ts, Table(cfg, ts, m, st))
    ensures Table(cfg, ts, m, st).Keys == ts.Keys
  {
    var ts', m' := Table(cfg, ts, m, st), Memory(cfg, ts, m, st);
    match st
    case ClaimStep(_, _, _) => ClaimOwned(cfg, ts, m, st);
    case Settle(reply, now) =>
      JudgeEnds(cfg, ts, m.batch[0].id, m.batch[0].attempts, reply, now);
      assert m' == m.(batch := m.batch[1..]);
      PopOwned(cfg, ts, m, ts');
    case Defer(now) =>
      FinishMoves(ts, m.batch[0].id, Queued, Some(now + cfg.deferDelay), now);
      assert m' == m.(batch := m.batch[1..]);
      PopOwned(cfg, ts, m, ts');
    case Submit => SubmitOwned(cfg, ts, m);
    case Collect(id, reply, now) =>
      JudgeEnds(cfg, ts, id, m.pending[id].attempts, reply, now);
      assert m' == m.(pending := m.pending - {id});
      DropOwned(cfg, ts, m, id, ts');
    case Shut =>
    case Release(id, now) =>
      FinishMoves(ts, id, Queued, Some(now), now);
      assert m' == m.(pending := m.pending - {id});
      DropOwned(cfg, ts, m, id, ts');
  }

  // ----- what a step does to attempts and to the queue -----

  /** The row a step other than a claim writes. */
  function Written(m: Mem, st: Step): Option<string> {
    match st
    case Settle(_, _) => if m.batch == [] then None else Some(m.batch[0].id)
    case Defer(_) => if m.batch == [] then None else Some(m.batch[0].id)
    case Collect(id, _, _) => Some(id)
    case Release(id, _) => Some(id)
    case _ => None
  }

  /** Only a claim counts an attempt, and it counts one for each row it hands out. */
  lemma StepCounts(cfg: Config, ts: Tasks, m: Mem, st: Step)
    requires cfg.Valid() && Owned(cfg, ts, m) && Enabled(cfg, ts, m, st)
    ensures var ts' := Table(cfg, ts, m, st);
            && ts'.Keys == ts.Keys
            && forall id | id in ts :: ts'[id].attempts == ts[id].attempts + if st.ClaimStep? && id in st.ids then 1 else 0
  {
    match st
    case ClaimStep(ids, _, now) => assert forall id | id in ids :: Due(ts, id, now, cfg.reserved);
    case _ =>
  }

  /** A running row returns to the queue within its budget, or the step interrupted it. */
  lemma StepRequeues(cfg: Config, ts: Tasks, m: Mem, st: Step)
    requires cfg.Valid() && Owned(cfg, ts, m) && Enabled(cfg, ts, m, st)
    ensures var ts' := Table(cfg, ts, m, st);
            forall id | IsRunning(ts, id) && IsQueued(ts', id) ::
              ts[id].attempts < cfg.maxAttempts || ((st.Defer? || st.Release?) && Written(m, st) == Some(id))
  {
    match st
    case ClaimStep(ids, _, now) =>
      ClaimRows(cfg, ts, ids, now);
      assert forall id | id in ids :: Due(ts, id, now, cfg.reserved);
    case Settle(reply, now) => JudgeEnds(cfg, ts, m.batch[0].id, m.batch[0].attempts, reply, now);
    case Collect(id, reply, now) => JudgeEnds(cfg, ts, id, m.pending[id].attempts, reply, now);
    case _ =>
  }
}
