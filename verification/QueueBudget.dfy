// How often a task can be tried, over whole runs with crashes: bounded by its retry
// budget plus the interruptions it suffered.
module QueueBudget {
  import opened Basics
  import opened TaskTable
  import opened QueueSystem
  import D = Dispatch
  import A = Agents
  import R = Recurring

  function Allowance(cfg: Config, kind: string): nat {
    if kind == A.REVIEW then 1 else cfg.dispatch.maxAttempts
  }

  /** A row that has suffered `hits` interruptions; while queued there is room for one more try. */
  predicate RowWithin(cfg: Config, t: Task, hits: nat) {
    && t.attempts <= Allowance(cfg, t.kind) + hits
    && (t.status == Queued ==> t.attempts < Allowance(cfg, t.kind) + hits)
  }

  /**
   * Dispatched work: at most maxAttempts tries plus one per interruption.
   * Reviews: one try plus one per interruption.
   */
  ghost predicate WithinBudget(cfg: Config, s: System) {
    forall id | id in s.tasks :: RowWithin(cfg, s.tasks[id], Times(s.history.interruptions, id))
  }

  /** Rows a table step sends back to the queue are within their budget or were interrupted. */
  ghost predicate Accounts(ts: Tasks, ts': Tasks, gone: set<string>, maxAttempts: nat) {
    forall id | IsRunning(ts, id) && IsQueued(ts', id) ::
      id in gone || (ts[id].kind != A.REVIEW && ts[id].attempts < maxAttempts)
  }

  lemma DispatchAccounts(cfg: D.Config, ts: Tasks, m: D.Mem, d: D.Step, gone: set<string>)
    requires cfg.Valid() && cfg.reserved == {A.REVIEW} && D.Owned(cfg, ts, m) && D.Enabled(cfg, ts, m, d)
    requires (d.Defer? || d.Release?) && D.Written(m, d).Some? ==> D.Written(m, d).value in gone
    ensures Accounts(ts, D.Table(cfg, ts, m, d), gone, cfg.maxAttempts)
  {
    D.StepRequeues(cfg, ts, m, d);
    D.StepOwned(cfg, ts, m, d);
  }

  lemma AgentAccounts(ts: Tasks, m: A.Mem, a: A.Step, gone: set<string>, maxAttempts: nat)
    requires A.Owned(ts, m) && A.Enabled(ts, m, a)
    requires a.Release? ==> m.taskIds[a.agent] in gone
    ensures Accounts(ts, A.Table(ts, m, a), gone, maxAttempts)
  {
    A.StepOwned(ts, m, a);
  }

  /** A running row goes back to the queue within its budget or because it was interrupted. */
  lemma {:induction false} StepAccounts(cfg: Config, s: System, st: Step)
    requires cfg.Valid() && Owned(cfg, s) && Enabled(cfg, s, st)
    ensures Accounts(s.tasks, Next(cfg, s, st).tasks, Interrupts(cfg, s, st), cfg.dispatch.maxAttempts)
  {
    match st
    case Disp(d) => DispatchAccounts(cfg.dispatch, s.tasks, s.disp, d, Interrupts(cfg, s, st));
    case Agent(a) => AgentAccounts(s.tasks, s.agents, a, Interrupts(cfg, s, st), cfg.dispatch.maxAttempts);
    case _ =>
  }

  lemma BumpCounts(m: map<string, nat>, ids: set<string>, id: string)
    ensures Times(Bump(m, ids), id) == Times(m, id) + if id in ids then 1 else 0
  {
  }

  lemma RowStep(cfg: Config, a: Task, b: Task, hits: nat, hit: bool)
    requires RowWithin(cfg, a, hits) && Moves(a, b)
    requires a.status == Running && b.status == Queued ==>
               hit || (a.attempts < cfg.dispatch.maxAttempts && a.kind != A.REVIEW)
    ensures RowWithin(cfg, b, hits + if hit then 1 else 0)
  {
  }

  lemma RowsWithin(cfg: Config, ts: Tasks, ts': Tasks, hits: map<string, nat>, gone: set<string>)
    requires cfg.Valid() && RowsMove(ts, ts')
    requires forall id | id in ts :: RowWithin(cfg, ts[id], Times(hits, id))
    requires Accounts(ts, ts', gone, cfg.dispatch.maxAttempts)
    ensures forall id | id in ts' :: RowWithin(cfg, ts'[id], Times(Bump(hits, gone), id))
  {
    forall id | id in ts' ensures RowWithin(cfg, ts'[id], Times(Bump(hits, gone), id)) {
      BumpCounts(hits, gone, id);
      if id in ts {
        RowStep(cfg, ts[id], ts'[id], Times(hits, id), id in gone);
      }
    }
  }

  /** The rows a step hands to the dispatcher. */
  function Claimed(st: Step): seq<string> { if st.Disp? && st.d.ClaimStep? then st.d.ids else [] }

  lemma NextHistory(cfg: Config, s: System, st: Step)
    ensures Next(cfg, s, st).history.interruptions == Bump(s.history.interruptions, Interrupts(cfg, s, st))
    ensures Next(cfg, s, st).history.claims == s.history.claims + |Claimed(st)|
  {
  }

  lemma StepWithinBudget(cfg: Config, s: System, st: Step)
    requires cfg.Valid() && Owned(cfg, s) && Enabled(cfg, s, st) && WithinBudget(cfg, s)
    ensures WithinBudget(cfg, Next(cfg, s, st))
  {
    StepOwned(cfg, s, st);
    StepAccounts(cfg, s, st);
    NextHistory(cfg, s, st);
    RowsWithin(cfg, s.tasks, Next(cfg, s, st).tasks, s.history.interruptions, Interrupts(cfg, s, st));
  }

  /** No run, however often it crashes, tries a task more often than its budget and its interruptions allow. */
  lemma {:induction false} AttemptsBounded(cfg: Config, s: System, steps: seq<Step>)
    requires cfg.Valid() && Owned(cfg, s) && WithinBudget(cfg, s) && Runs(cfg, s, steps)
    ensures WithinBudget(cfg, After(cfg, s, steps))
    decreases |steps|
  {
    if steps != [] {
      StepOwned(cfg, s, steps[0]);
      StepWithinBudget(cfg, s, steps[0]);
      AttemptsBounded(cfg, Next(cfg, s, steps[0]), steps[1..]);
    }
  }

  /**
   * A dispatched row that has used its attempts and its interruptions, and that the dispatcher no longer
   * holds, has ended: there is no further handler run.
   */
  lemma ExhaustedRowsEnd(cfg: Config, s: System, steps: seq<Step>, id: string)
    requires cfg.Valid() && Owned(cfg, s) && WithinBudget(cfg, s) && Runs(cfg, s, steps)
    requires var e := After(cfg, s, steps);
             && e.up && id in e.tasks && e.tasks[id].kind != A.REVIEW && id !in DispatcherIds(e.disp)
             && e.tasks[id].attempts >= cfg.dispatch.maxAttempts + Times(e.history.interruptions, id)
    ensures Terminal(After(cfg, s, steps).tasks[id].status)
  {
    AttemptsBounded(cfg, s, steps);
    OwnedAlways(cfg, s, steps);
    var e := After(cfg, s, steps);
    DispatcherHolds(cfg.dispatch, e.tasks, e.disp);
    assert RowWithin(cfg, e.tasks[id], Times(e.history.interruptions, id));
  }

  // ----- sums over rows -----

  ghost function Sum(m: map<string, nat>): nat
    decreases |m|
  {
    if m == map[] then 0
    else
      var id :| id in m;
      m[id] + Sum(m - {id})
  }

  lemma {:induction false} SumTake(m: map<string, nat>, id: string)
    requires id in m
    ensures Sum(m) == m[id] + Sum(m - {id})
    decreases |m|
  {
    var x :| x in m && Sum(m) == m[x] + Sum(m - {x});
    if x != id {
      SumTake(m - {x}, id);
      SumTake(m - {id}, x);
      assert (m - {x}) - {id} == (m - {id}) - {x};
    }
  }

  /** Rows may be added with 0, and the rows in `up` grow by one. */
  lemma {:induction false} SumGrows(a: map<string, nat>, b: map<string, nat>, up: set<string>)
    requires up <= a.Keys <= b.Keys
    requires forall id | id in b :: b[id] == (if id in a then a[id] else 0) + if id in up then 1 else 0
    ensures Sum(b) == Sum(a) + |up|
    decreases |b|
  {
    if b == map[] {
      assert a == map[];
    } else {
      var id :| id in b;
      SumTake(b, id);
      if id in a {
        SumTake(a, id);
        SumGrows(a - {id}, b - {id}, up - {id});
      } else {
        SumGrows(a, b - {id}, up);
      }
    }
  }

  lemma {:induction false} SumBounded(m: map<string, nat>, e: map<string, nat>, per: nat)
    requires m.Keys == e.Keys && forall id | id in m :: m[id] <= per + e[id]
    ensures Sum(m) <= |m| * per + Sum(e)
    decreases |m|
  {
    if m == map[] {
      assert e == map[];
    } else {
      var id :| id in m;
      SumTake(m, id);
      SumTake(e, id);
      SumBounded(m - {id}, e - {id}, per);
      OneMore(m, id, per);
    }
  }

  lemma OneMore(m: map<string, nat>, id: string, per: nat)
    requires id in m
    ensures |m| * per == |m - {id}| * per + per
  {
    assert m.Keys == (m - {id}).Keys + {id};
  }

  // ----- total work -----

  /** Attempts made on dispatched work (everything but reviews). */
  ghost function Tries(ts: Tasks): map<string, nat> { map id | id in ts && ts[id].kind != A.REVIEW :: ts[id].attempts }

  /** Interruptions of the dispatched rows. */
  ghost function Interruptions(s: System): map<string, nat> {
    map id | id in Tries(s.tasks) :: Times(s.history.interruptions, id)
  }

  ghost predicate Tallied(s: System) { s.history.claims == Sum(Tries(s.tasks)) }

  lemma DistinctCount(ids: seq<string>)
    requires forall i, j | 0 <= i < j < |ids| :: ids[i] != ids[j]
    ensures |set id | id in ids| == |ids|
  {
    if ids != [] {
      var rest := ids[..|ids| - 1];
      DistinctCount(rest);
      var last := ids[|ids| - 1];
      assert (set id | id in ids) == (set id | id in rest) + {last};
    }
  }

  /** Only claims count attempts of dispatched rows. */
  ghost predicate Counts(ts: Tasks, ts': Tasks, claimed: seq<string>) {
    && (forall id | id in ts && ts[id].kind != A.REVIEW ::
          id in ts' && ts'[id].attempts == ts[id].attempts + if id in claimed then 1 else 0)
    && (forall id | id in ts' && id !in ts :: ts'[id].attempts == 0)
    && (forall id | id in ts :: id in ts' && ts'[id].kind == ts[id].kind)
  }

  lemma DispatchTries(cfg: D.Config, ts: Tasks, m: D.Mem, d: D.Step)
    requires cfg.Valid() && D.Owned(cfg, ts, m) && D.Enabled(cfg, ts, m, d)
    ensures Counts(ts, D.Table(cfg, ts, m, d), Claimed(Disp(d)))
  {
    D.StepCounts(cfg, ts, m, d);
    D.StepOwned(cfg, ts, m, d);
  }

  lemma AgentTries(ts: Tasks, m: A.Mem, a: A.Step)
    requires A.Owned(ts, m) && A.Enabled(ts, m, a)
    ensures Counts(ts, A.Table(ts, m, a), [])
  {
    A.StepOwned(ts, m, a);
  }

  lemma StepTries(cfg: Config, s: System, st: Step)
    requires cfg.Valid() && Owned(cfg, s) && Enabled(cfg, s, st)
    ensures Counts(s.tasks, Next(cfg, s, st).tasks, Claimed(st))
  {
    match st
    case Disp(d) => DispatchTries(cfg.dispatch, s.tasks, s.disp, d);
    case Agent(a) => AgentTries(s.tasks, s.agents, a);
    case _ =>
  }

  lemma ClaimedRows(cfg: Config, s: System, st: Step)
    requires Enabled(cfg, s, st) && cfg.Valid()
    ensures |set id | id in Claimed(st)| == |Claimed(st)|
    ensures forall id | id in Claimed(st) :: id in Tries(s.tasks)
  {
    if st.Disp? && st.d.ClaimStep? {
      var limit := D.Limit(cfg.dispatch, s.disp, st.d.limit);
      SelectionDistinct(s.tasks, st.d.now, cfg.dispatch.reserved, limit, st.d.ids);
      DistinctCount(st.d.ids);
      assert forall id | id in st.d.ids :: Due(s.tasks, id, st.d.now, cfg.dispatch.reserved);
    }
  }

  lemma TriesGrow(ts: Tasks, ts': Tasks, claimed: seq<string>)
    requires Counts(ts, ts', claimed) && forall id | id in claimed :: id in Tries(ts)
    ensures Sum(Tries(ts')) == Sum(Tries(ts)) + |set id | id in claimed|
  {
    SumGrows(Tries(ts), Tries(ts'), set id | id in claimed);
  }

  lemma StepTallied(cfg: Config, s: System, st: Step)
    requires cfg.Valid() && Owned(cfg, s) && Enabled(cfg, s, st) && Tallied(s)
    ensures Tallied(Next(cfg, s, st))
  {
    StepTries(cfg, s, st);
    NextHistory(cfg, s, st);
    ClaimedRows(cfg, s, st);
    TriesGrow(s.tasks, Next(cfg, s, st).tasks, Claimed(st));
  }

  lemma {:induction false} TallyAlways(cfg: Config, s: System, steps: seq<Step>)
    requires cfg.Valid() && Owned(cfg, s) && Tallied(s) && Runs(cfg, s, steps)
    ensures Tallied(After(cfg, s, steps))
    decreases |steps|
  {
    if steps != [] {
      StepOwned(cfg, s, steps[0]);
      StepTallied(cfg, s, steps[0]);
      TallyAlways(cfg, Next(cfg, s, steps[0]), steps[1..]);
    }
  }

  /** n dispatched tasks take at most n * maxAttempts claims, plus one per interruption. */
  lemma ClaimsBounded(cfg: Config, s: System, steps: seq<Step>)
    requires cfg.Valid() && Owned(cfg, s) && WithinBudget(cfg, s) && Tallied(s) && Runs(cfg, s, steps)
    ensures var e := After(cfg, s, steps);
            e.history.claims <= |Tries(e.tasks)| * cfg.dispatch.maxAttempts + Sum(Interruptions(e))
  {
    AttemptsBounded(cfg, s, steps);
    TallyAlways(cfg, s, steps);
    var e := After(cfg, s, steps);
    SumBounded(Tries(e.tasks), Interruptions(e), cfg.dispatch.maxAttempts);
  }

  /** Once that many claims have been made without interruption, nothing dispatched is left in the queue. */
  lemma QueueDrains(cfg: Config, s: System, steps: seq<Step>)
    requires cfg.Valid() && Owned(cfg, s) && WithinBudget(cfg, s) && Tallied(s) && Runs(cfg, s, steps)
    requires var e := After(cfg, s, steps);
             && Sum(Interruptions(e)) == 0
             && e.history.claims == |Tries(e.tasks)| * cfg.dispatch.maxAttempts
    ensures var e := After(cfg, s, steps);
            forall id | id in e.tasks && e.tasks[id].kind != A.REVIEW :: e.tasks[id].status != Queued
  {
    AttemptsBounded(cfg, s, steps);
    TallyAlways(cfg, s, steps);
    var e := After(cfg, s, steps);
    forall id | id in e.tasks && e.tasks[id].kind != A.REVIEW ensures e.tasks[id].status != Queued {
      FullBudget(Tries(e.tasks), Interruptions(e), cfg.dispatch.maxAttempts, id);
      assert RowWithin(cfg, e.tasks[id], Times(e.history.interruptions, id));
    }
  }

  /** If the sum reaches the bound and nothing was interrupted, every single entry reaches its bound. */
  lemma FullBudget(m: map<string, nat>, e: map<string, nat>, per: nat, id: string)
    requires m.Keys == e.Keys && forall o | o in m :: m[o] <= per + e[o]
    requires Sum(e) == 0 && Sum(m) == |m| * per && id in m
    ensures m[id] == per && e[id] == 0
  {
    SumTake(m, id);
    SumTake(e, id);
    SumBounded(m - {id}, e - {id}, per);
    OneMore(m, id, per);
  }

  /** An empty store satisfies every starting assumption. */
  lemma EmptyStore(cfg: Config)
    requires cfg.Valid()
    ensures Owned(cfg, FIRST_STORE) && WithinBudget(cfg, FIRST_STORE) && Tallied(FIRST_STORE)
  {
    assert Tries(map[]) == map[];
  }
}
