// Which review agents a tick of the coordinator runs, and how far apart the turns of
// one agent are.
module AgentTurns {
  import opened Basics
  import opened Coordinators
  import opened TaskTable
  import A = Agents
  import Text

  /** Enabled, idle, and never run or last run at least one interval ago. */
  predicate Ready(spec: Spec, lastRun: map<string, real>, busy: set<string>, mono: real) {
    && spec.enabled && spec.agent !in busy
    && (spec.agent !in lastRun || mono - lastRun[spec.agent] >= spec.interval)
  }

  /** The first ready entry of its agent. */
  predicate Picked(specs: seq<Spec>, i: nat, lastRun: map<string, real>, busy: set<string>, mono: real)
    requires i < |specs|
  {
    && Ready(specs[i], lastRun, busy, mono)
    && forall j | 0 <= j < i :: specs[j].agent == specs[i].agent ==> !Ready(specs[j], lastRun, busy, mono)
  }

  /** The sessions are the picked entries, in configuration order. */
  ghost predicate Picks(specs: seq<Spec>, at: seq<nat>, sessions: seq<Spec>, lastRun: map<string, real>, busy: set<string>, mono: real) {
    && |at| == |sessions|
    && (forall k | 0 <= k < |at| ::
          at[k] < |specs| && sessions[k] == specs[at[k]] && Picked(specs, at[k], lastRun, busy, mono))
    && (forall k, l | 0 <= k < l < |at| :: at[k] < at[l])
    && (forall i | 0 <= i < |specs| && Picked(specs, i, lastRun, busy, mono) :: i in at)
  }

  ghost predicate HasTurn(sessions: seq<Spec>, agent: string) { exists k | 0 <= k < |sessions| :: sessions[k].agent == agent }

  ghost predicate HasPooledTurn(sessions: seq<Spec>, agent: string) {
    exists k | 0 <= k < |sessions| :: sessions[k].agent == agent && sessions[k].pooled
  }

  predicate SameTime(a: map<string, real>, b: map<string, real>, agent: string) {
    (agent in a <==> agent in b) && (agent in a ==> a[agent] == b[agent])
  }

  /** Exactly the agents with a turn are noted as run now, and exactly the pooled ones stay busy. */
  ghost predicate Noted(t: Turn, lastRun: map<string, real>, busy: set<string>, mono: real) {
    && (forall a | HasTurn(t.sessions, a) :: a in t.lastRun && t.lastRun[a] == mono)
    && (forall a | !HasTurn(t.sessions, a) :: SameTime(lastRun, t.lastRun, a))
    && (forall a :: a in t.busy <==> a in busy || HasPooledTurn(t.sessions, a))
  }

  lemma {:induction false} SomePicked(specs: seq<Spec>, i: nat, lastRun: map<string, real>, busy: set<string>, mono: real) returns (j: nat)
    requires i < |specs| && Ready(specs[i], lastRun, busy, mono)
    ensures j <= i && specs[j].agent == specs[i].agent && Picked(specs, j, lastRun, busy, mono)
    decreases i
  {
    j := i;
    if !Picked(specs, i, lastRun, busy, mono) {
      var k :| 0 <= k < i && specs[k].agent == specs[i].agent && Ready(specs[k], lastRun, busy, mono);
      j := SomePicked(specs, k, lastRun, busy, mono);
    }
  }

  lemma TurnNext(sessions: seq<Spec>, spec: Spec, a: string)
    ensures HasTurn(sessions + [spec], a) <==> HasTurn(sessions, a) || spec.agent == a
    ensures HasPooledTurn(sessions + [spec], a) <==> HasPooledTurn(sessions, a) || (spec.agent == a && spec.pooled)
  {
    var all := sessions + [spec];
    assert all[|sessions|] == spec;
    if HasTurn(sessions, a) {
      var k :| 0 <= k < |sessions| && sessions[k].agent == a;
      assert all[k] == sessions[k];
    }
    if HasPooledTurn(sessions, a) {
      var k :| 0 <= k < |sessions| && sessions[k].agent == a && sessions[k].pooled;
      assert all[k] == sessions[k];
    }
  }

  /** The last entry is picked exactly when it goes after the turns before it. */
  lemma LastPicked(before: seq<Spec>, spec: Spec, at: seq<nat>, t: Turn, lastRun: map<string, real>, busy: set<string>, mono: real)
    requires Picks(before, at, t.sessions, lastRun, busy, mono) && Noted(t, lastRun, busy, mono) && spec.interval > 0.0
    ensures Goes(spec, t.lastRun, t.busy, mono) <==> Picked(before + [spec], |before|, lastRun, busy, mono)
    ensures forall i | 0 <= i < |before| ::
              Picked(before + [spec], i, lastRun, busy, mono) <==> Picked(before, i, lastRun, busy, mono)
  {
    var all := before + [spec];
    assert all[|before|] == spec && forall i | 0 <= i < |before| :: all[i] == before[i];
    if HasTurn(t.sessions, spec.agent) {
      var k :| 0 <= k < |t.sessions| && t.sessions[k].agent == spec.agent;
      assert before[at[k]] == t.sessions[k] && all[at[k]] == before[at[k]];
      assert !Goes(spec, t.lastRun, t.busy, mono);
    } else {
      assert SameTime(lastRun, t.lastRun, spec.agent);
      PooledTurnIsTurn(t.sessions, spec.agent);
      forall j | 0 <= j < |before| && before[j].agent == spec.agent ensures !Ready(all[j], lastRun, busy, mono) {
        ReadyHasTurn(before, at, t.sessions, j, lastRun, busy, mono);
      }
    }
  }

  lemma PooledTurnIsTurn(sessions: seq<Spec>, agent: string)
    ensures HasPooledTurn(sessions, agent) ==> HasTurn(sessions, agent)
  {
  }

  lemma ReadyHasTurn(specs: seq<Spec>, at: seq<nat>, sessions: seq<Spec>, j: nat, lastRun: map<string, real>, busy: set<string>,
                     mono: real)
    requires Picks(specs, at, sessions, lastRun, busy, mono) && j < |specs|
    ensures Ready(specs[j], lastRun, busy, mono) ==> HasTurn(sessions, specs[j].agent)
  {
    if Ready(specs[j], lastRun, busy, mono) {
      var p := SomePicked(specs, j, lastRun, busy, mono);
      var k :| 0 <= k < |at| && at[k] == p;
      assert sessions[k].agent == specs[j].agent;
    }
  }

  lemma PicksNext(before: seq<Spec>, spec: Spec, at: seq<nat>, sessions: seq<Spec>, lastRun: map<string, real>, busy: set<string>,
                  mono: real)
    requires Picks(before, at, sessions, lastRun, busy, mono)
    requires forall i | 0 <= i < |before| ::
               Picked(before + [spec], i, lastRun, busy, mono) <==> Picked(before, i, lastRun, busy, mono)
    ensures if Picked(before + [spec], |before|, lastRun, busy, mono)
            then Picks(before + [spec], at + [|before|], sessions + [spec], lastRun, busy, mono)
            else Picks(before + [spec], at, sessions, lastRun, busy, mono)
  {
    var all, at' := before + [spec], at + [|before|];
    assert all[|before|] == spec && forall i | 0 <= i < |before| :: all[i] == before[i];
    assert at'[|at|] == |before| && forall k | 0 <= k < |at| :: at'[k] == at[k];
    forall i | 0 <= i < |all| && Picked(all, i, lastRun, busy, mono) ensures i in at' {
      if i < |before| {
        assert i in at;
      }
    }
  }

  /**
   * A tick runs exactly the enabled idle agents that have never run or last ran at least an interval
   * ago, each once and in configuration order, and notes exactly that.
   */
  lemma {:induction false} TurnsExactly(specs: seq<Spec>, lastRun: map<string, real>, busy: set<string>, mono: real)
    returns (at: seq<nat>)
    requires forall i | 0 <= i < |specs| :: specs[i].interval > 0.0
    ensures Picks(specs, at, Turns(specs, lastRun, busy, mono).sessions, lastRun, busy, mono)
    ensures Noted(Turns(specs, lastRun, busy, mono), lastRun, busy, mono)
    decreases |specs|
  {
    at := [];
    if specs != [] {
      var before, spec := specs[..|specs| - 1], specs[|specs| - 1];
      at := TurnsExactly(before, lastRun, busy, mono);
      var t := Turns(before, lastRun, busy, mono);
      assert specs == before + [spec];
      LastPicked(before, spec, at, t, lastRun, busy, mono);
      PicksNext(before, spec, at, t.sessions, lastRun, busy, mono);
      if Goes(spec, t.lastRun, t.busy, mono) {
        forall a {
          TurnNext(t.sessions, spec, a);
        }
        at := at + [|before|];
      }
    }
  }

  // ----- over many ticks -----

  /** What the surroundings of a tick decide: who is still working, and the clock. */
  datatype Tick = Tick(busy: set<string>, mono: real)

  /** What is remembered before the k-th tick. */
  function Remembered(specs: seq<Spec>, lastRun: map<string, real>, ticks: seq<Tick>, k: nat): map<string, real>
    requires k <= |ticks|
  {
    if k == 0 then lastRun
    else Turns(specs, Remembered(specs, lastRun, ticks, k - 1), ticks[k - 1].busy, ticks[k - 1].mono).lastRun
  }

  ghost predicate TurnAt(specs: seq<Spec>, lastRun: map<string, real>, ticks: seq<Tick>, k: nat, agent: string)
    requires k < |ticks|
  {
    HasTurn(Turns(specs, Remembered(specs, lastRun, ticks, k), ticks[k].busy, ticks[k].mono).sessions, agent)
  }

  /** All entries of the agent have this interval. */
  predicate Every(specs: seq<Spec>, agent: string, interval: real) {
    forall i | 0 <= i < |specs| && specs[i].agent == agent :: specs[i].interval == interval
  }

  lemma {:induction false} TickRemembers(specs: seq<Spec>, lastRun: map<string, real>, busy: set<string>, mono: real, agent: string,
                                         interval: real)
    requires (forall i | 0 <= i < |specs| :: specs[i].interval > 0.0) && Every(specs, agent, interval)
    ensures var t := Turns(specs, lastRun, busy, mono);
            if HasTurn(t.sessions, agent) then
              && agent in t.lastRun && t.lastRun[agent] == mono
              && (agent in lastRun ==> mono - lastRun[agent] >= interval)
            else SameTime(lastRun, t.lastRun, agent)
  {
    var at := TurnsExactly(specs, lastRun, busy, mono);
    var t := Turns(specs, lastRun, busy, mono);
    if HasTurn(t.sessions, agent) {
      var k :| 0 <= k < |t.sessions| && t.sessions[k].agent == agent;
      assert Picked(specs, at[k], lastRun, busy, mono);
    }
  }

  lemma {:induction false} RememberedRises(specs: seq<Spec>, lastRun: map<string, real>, ticks: seq<Tick>, i: nat, j: nat,
                                           agent: string, interval: real)
    requires (forall i | 0 <= i < |specs| :: specs[i].interval > 0.0) && Every(specs, agent, interval) && interval > 0.0
    requires i < j <= |ticks| && TurnAt(specs, lastRun, ticks, i, agent)
    ensures var r := Remembered(specs, lastRun, ticks, j); agent in r && r[agent] >= ticks[i].mono
    decreases j
  {
    var m: nat := j - 1;
    TickRemembers(specs, Remembered(specs, lastRun, ticks, m), ticks[m].busy, ticks[m].mono, agent, interval);
    if i < m {
      RememberedRises(specs, lastRun, ticks, i, m, agent, interval);
    }
  }

  /** However often the coordinator ticks, and whatever the clock does, two turns of an agent are at least its interval apart. */
  lemma {:induction false} TurnsApart(specs: seq<Spec>, lastRun: map<string, real>, ticks: seq<Tick>, i: nat, j: nat,
                                      agent: string, interval: real)
    requires (forall i | 0 <= i < |specs| :: specs[i].interval > 0.0) && Every(specs, agent, interval) && interval > 0.0
    requires i < j < |ticks| && TurnAt(specs, lastRun, ticks, i, agent) && TurnAt(specs, lastRun, ticks, j, agent)
    ensures ticks[j].mono - ticks[i].mono >= interval
  {
    RememberedRises(specs, lastRun, ticks, i, j, agent, interval);
    TickRemembers(specs, Remembered(specs, lastRun, ticks, j), ticks[j].busy, ticks[j].mono, agent, interval);
  }

  // ----- what a turn does to the table -----

  /** A queued review of the agent. */
  predicate Waiting(ts: Tasks, id: string, agent: string) {
    id in ts && ts[id].status == Queued && ts[id].kind == "agent_review"
    && (if "agent_id" in ts[id].payload then ts[id].payload["agent_id"] else "") == agent
  }

  /** The row a turn works on: the first waiting review, or a new one when there is none. */
  ghost predicate Takes(ts: Tasks, a: A.Step, agent: string, row: Task) {
    (a.Resume? || a.Create?) && a.agent == agent
    && if exists id :: Waiting(ts, id, agent) then
         && a.Resume? && Waiting(ts, a.id, agent) && row == ts[a.id]
         && forall o | Waiting(ts, o, agent) && o != a.id ::
              row.scheduledAt < ts[o].scheduledAt || (row.scheduledAt == ts[o].scheduledAt && Text.Less(a.id, o))
       else
         && a.Create? && a.id !in ts && ("agent-task-" + agent + "-") <= a.id
         && row == Task("agent_review", a.objective, map["agent_id" := agent], Queued, a.now, 0, a.now)
  }

  lemma OpeningTakes(ts: Tasks, m: A.Mem, a: A.Step, agent: string)
    requires A.Enabled(ts, m, a) && Opens(a, agent)
    ensures a.id in A.Table(ts, m, a) && Takes(ts, a, agent, A.Table(ts, m, a)[a.id])
    ensures A.Table(ts, m, a) == ts[a.id := A.Table(ts, m, a)[a.id]]
  {
    assert forall id :: Waiting(ts, id, agent) <==> QueuedReview(ts, id, A.REVIEW, A.OWNER, agent);
    if a.Resume? {
      assert Waiting(ts, a.id, agent);
    }
  }

  /**
   * A turn takes one review, counts one attempt, and leaves it completed when the agent answers at once;
   * a pooled agent is busy then, and its review runs and is kept under its name. Nothing else changes.
   */
  lemma {:induction false} TurnExactly(ts: Tasks, m: A.Mem, spec: Spec, a: A.Step, b: A.Step, c: A.Step, now: real)
    requires A.Owned(ts, m) && A.Enabled(ts, m, a) && Session(spec, a, b, c, now)
    ensures var ts1, m1 := A.Table(ts, m, a), A.Memory(ts, m, a);
            var ts2, m2 := A.Table(ts1, m1, b), A.Memory(ts1, m1, b);
            var ts3, m3 := A.Table(ts2, m2, c), A.Memory(ts2, m2, c);
            && A.Enabled(ts1, m1, b) && A.Enabled(ts2, m2, c)
            && a.id in ts1 && Takes(ts, a, spec.agent, ts1[a.id])
            && ts3 == ts[a.id := ts1[a.id].(status := if spec.pooled then Running else Complete,
                                            attempts := ts1[a.id].attempts + 1, updated := now)]
            && m3 == if spec.pooled then m.(busy := m.busy + {spec.agent}, taskIds := m.taskIds[spec.agent := a.id]) else m
  {
    OpeningTakes(ts, m, a, spec.agent);
  }

  /** A finished pooled call completes its review, a shutdown puts it back due at once; the agent is free of it. */
  lemma {:induction false} CallEnds(ts: Tasks, m: A.Mem, st: A.Step)
    requires A.Owned(ts, m) && A.Enabled(ts, m, st) && (st.Collect? || st.Release?) && st.agent in m.taskIds
    ensures var id := m.taskIds[st.agent];
            && IsRunning(ts, id)
            && A.Table(ts, m, st) == ts[id := if st.Collect? then ts[id].(status := Complete, updated := st.now)
                                              else ts[id].(status := Queued, scheduledAt := st.now, updated := st.now)]
            && A.Memory(ts, m, st).taskIds == m.taskIds - {st.agent}
            && A.Memory(ts, m, st).busy == if st.Collect? then m.busy - {st.agent} else m.busy
  {
  }
}
