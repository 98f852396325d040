// What becomes of due work over whole runs: a queued row waits unchanged until a claim
// takes it, a claim takes the earliest due work, and work cut off by a crash is due as
// soon as the next life has recovered.
module QueueProgress {
  import opened Basics
  import Text
  import opened TaskTable
  import opened QueueSystem
  import opened QueueBudget
  import opened Chains
  import D = Dispatch
  import A = Agents

  // ----- waiting rows -----

  /** Some claim of the run takes the row. */
  predicate Takes(steps: seq<Step>, id: string) { exists i | 0 <= i < |steps| :: id in Claimed(steps[i]) }

  lemma DispatchKeepsWaiting(cfg: D.Config, ts: Tasks, m: D.Mem, d: D.Step, id: string)
    requires cfg.Valid() && D.Owned(cfg, ts, m) && D.Enabled(cfg, ts, m, d) && IsQueued(ts, id)
    requires !(d.ClaimStep? && id in d.ids)
    ensures id in D.Table(cfg, ts, m, d) && D.Table(cfg, ts, m, d)[id] == ts[id]
  {
    D.StepCounts(cfg, ts, m, d);
    D.StepOwned(cfg, ts, m, d);
    assert Moves(ts[id], D.Table(cfg, ts, m, d)[id]);
  }

  lemma AgentKeepsWaiting(ts: Tasks, m: A.Mem, a: A.Step, id: string)
    requires A.Owned(ts, m) && A.Enabled(ts, m, a) && IsQueued(ts, id) && ts[id].kind != A.REVIEW
    ensures id in A.Table(ts, m, a) && A.Table(ts, m, a)[id] == ts[id]
  {
    A.StepOwned(ts, m, a);
  }

  /** A queued row that is no review changes only by being claimed. */
  lemma {:induction false} StepKeepsWaiting(cfg: Config, s: System, st: Step, id: string)
    requires cfg.Valid() && Owned(cfg, s) && Enabled(cfg, s, st)
    requires IsQueued(s.tasks, id) && s.tasks[id].kind != A.REVIEW && id !in Claimed(st)
    ensures id in Next(cfg, s, st).tasks && Next(cfg, s, st).tasks[id] == s.tasks[id]
  {
    match st
    case Disp(d) => DispatchKeepsWaiting(cfg.dispatch, s.tasks, s.disp, d, id);
    case Agent(a) => AgentKeepsWaiting(s.tasks, s.agents, a, id);
    case _ =>
  }

  lemma {:induction false} KeepsWaiting(cfg: Config, s: System, steps: seq<Step>, id: string)
    requires cfg.Valid() && Owned(cfg, s) && Runs(cfg, s, steps)
    requires IsQueued(s.tasks, id) && s.tasks[id].kind != A.REVIEW && !Takes(steps, id)
    ensures id in After(cfg, s, steps).tasks && After(cfg, s, steps).tasks[id] == s.tasks[id]
    decreases |steps|
  {
    if steps != [] {
      assert id !in Claimed(steps[0]);
      StepKeepsWaiting(cfg, s, steps[0], id);
      StepOwned(cfg, s, steps[0]);
      assert forall i | 0 <= i < |steps[1..]| :: steps[1..][i] == steps[i + 1];
      KeepsWaiting(cfg, Next(cfg, s, steps[0]), steps[1..], id);
    }
  }

  // ----- claims -----

  /**
   * A claim takes every due row of an unreserved kind, or it is full: the limit given, between 1 and 100
   * and within the free slots, has been reached with rows that come earlier by schedule and id.
   */
  lemma {:induction false} ClaimTakes(cfg: D.Config, ts: Tasks, m: D.Mem, ids: seq<string>, limit: int, now: real, id: string)
    requires D.Enabled(cfg, ts, m, D.ClaimStep(ids, limit, now))
    requires IsQueued(ts, id) && ts[id].scheduledAt <= now && ts[id].kind !in cfg.reserved && id !in ids
    ensures var wanted := if limit < 1 then 1 else if limit > 100 then 100 else limit;
            var free := cfg.maxInFlight - |m.pending|;
            |ids| == if cfg.background && free < wanted then free else wanted
    ensures forall i | 0 <= i < |ids| ::
              && ids[i] in ts && ts[ids[i]].status == Queued && ts[ids[i]].kind !in cfg.reserved
              && (ts[ids[i]].scheduledAt < ts[id].scheduledAt
                  || (ts[ids[i]].scheduledAt == ts[id].scheduledAt && Text.Less(ids[i], id)))
  {
    assert Due(ts, id, now, cfg.reserved);
  }

  /** How many items the claims of a run hand to the dispatcher. */
  function Handed(steps: seq<Step>): nat { if steps == [] then 0 else |Claimed(steps[0])| + Handed(steps[1..]) }

  lemma {:induction false} HandedCounts(cfg: Config, s: System, steps: seq<Step>)
    ensures After(cfg, s, steps).history.claims == s.history.claims + Handed(steps)
    decreases |steps|
  {
    if steps != [] {
      NextHistory(cfg, s, steps[0]);
      HandedCounts(cfg, Next(cfg, s, steps[0]), steps[1..]);
    }
  }

  lemma {:induction false} TakesMeansHanded(steps: seq<Step>, i: nat)
    requires i < |steps| && Claimed(steps[i]) != []
    ensures Handed(steps) > 0
    decreases |steps|
  {
    if i > 0 {
      assert steps[1..][i - 1] == steps[i];
      TakesMeansHanded(steps[1..], i - 1);
    }
  }

  lemma {:induction false} RunSplits(cfg: Config, s: System, a: seq<Step>, b: seq<Step>)
    requires Runs(cfg, s, a + b)
    ensures Runs(cfg, s, a) && Runs(cfg, After(cfg, s, a), b)
    decreases |a|
  {
    if a == [] {
      assert a + b == b;
    } else {
      assert (a + b)[0] == a[0] && (a + b)[1..] == a[1..] + b;
      RunSplits(cfg, Next(cfg, s, a[0]), a[1..], b);
    }
  }

  /** A claim has reached its limit with rows that come before a row by schedule and id. */
  ghost predicate Filled(cfg: D.Config, s: System, c: D.Step, at: real, id: string)
    requires c.ClaimStep?
  {
    && |c.ids| == (var wanted := if c.limit < 1 then 1 else if c.limit > 100 then 100 else c.limit;
                   var free := cfg.maxInFlight - |s.disp.pending|;
                   if cfg.background && free < wanted then free else wanted)
    && forall i | 0 <= i < |c.ids| ::
         && c.ids[i] in s.tasks
         && (s.tasks[c.ids[i]].scheduledAt < at || (s.tasks[c.ids[i]].scheduledAt == at && Text.Less(c.ids[i], id)))
  }

  /** The row is claimed by step k at the latest, or that claim is filled with rows before it. */
  ghost predicate TakenBy(cfg: Config, s: System, steps: seq<Step>, k: nat, at: real, id: string)
    requires k < |steps| && steps[k].Disp? && steps[k].d.ClaimStep?
  {
    Takes(steps[..k + 1], id) || Filled(cfg.dispatch, After(cfg, s, steps[..k]), steps[k].d, at, id)
  }

  predicate Claims(st: Step) { st.Disp? && st.d.ClaimStep? }

  lemma WaitingRowIsTaken(cfg: Config, m: System, st: Step, id: string)
    requires cfg.Valid() && Enabled(cfg, m, st) && Claims(st)
    requires IsQueued(m.tasks, id) && m.tasks[id].kind != A.REVIEW && m.tasks[id].scheduledAt <= st.d.now
    ensures Claimed(st) != []
    ensures id in st.d.ids || Filled(cfg.dispatch, m, st.d, m.tasks[id].scheduledAt, id)
  {
    var c := st.d;
    assert Due(m.tasks, id, c.now, cfg.dispatch.reserved);
    if id !in c.ids {
      ClaimTakes(cfg.dispatch, m.tasks, m.disp, c.ids, c.limit, c.now, id);
    }
  }

  /**
   * Due work does not wait longer than a claim: in a run with a claim at or after the time a row is due,
   * either some claim up to then takes the row, or that claim is filled by earlier work.
   */
  lemma {:induction false} DueWorkIsTaken(cfg: Config, s: System, steps: seq<Step>, k: nat, id: string)
    requires cfg.Valid() && Owned(cfg, s) && Runs(cfg, s, steps) && k < |steps| && Claims(steps[k])
    requires IsQueued(s.tasks, id) && s.tasks[id].kind != A.REVIEW && s.tasks[id].scheduledAt <= steps[k].d.now
    ensures Handed(steps) > 0 && TakenBy(cfg, s, steps, k, s.tasks[id].scheduledAt, id)
  {
    var a := steps[..k];
    if Takes(a, id) {
      var i :| 0 <= i < |a| && id in Claimed(a[i]);
      assert steps[..k + 1][i] == steps[i];
      TakesMeansHanded(steps, i);
    } else {
      StepAfter(cfg, s, steps, k);
      KeepsWaiting(cfg, s, a, id);
      WaitingRowIsTaken(cfg, After(cfg, s, a), steps[k], id);
      TakesMeansHanded(steps, k);
      assert steps[..k + 1][k] == steps[k];
    }
  }

  lemma StepAfter(cfg: Config, s: System, steps: seq<Step>, k: nat)
    requires Runs(cfg, s, steps) && k < |steps|
    ensures Runs(cfg, s, steps[..k]) && Enabled(cfg, After(cfg, s, steps[..k]), steps[k])
  {
    assert steps == steps[..k] + steps[k..];
    RunSplits(cfg, s, steps[..k], steps[k..]);
  }

  // ----- recovery -----

  /**
   * Recovery at the start of a life: exactly the rows left RUNNING are queued again, due at that time,
   * with their work and their attempts as they were.
   */
  lemma {:induction false} RecoveryMakesDue(cfg: Config, s: System, now: real)
    requires Enabled(cfg, s, Boot(now))
    ensures var ts, ts' := s.tasks, Next(cfg, s, Boot(now)).tasks;
            && ts'.Keys == ts.Keys
            && (forall id | id in ts && ts[id].status != Running :: ts'[id] == ts[id])
            && (forall id | id in ts && ts[id].status == Running ::
                  ts'[id] == Task(ts[id].kind, ts[id].objective, ts[id].payload, Queued, now, ts[id].attempts, now))
  {
  }

  /** The state in which the next life begins its work. */
  ghost function Recovered(cfg: Config, s: System, now: real): System { Next(cfg, Next(cfg, s, Crash), Boot(now)) }

  lemma FirstStep(cfg: Config, s: System, st: Step, rest: seq<Step>)
    requires Runs(cfg, s, [st] + rest)
    ensures Enabled(cfg, s, st) && Runs(cfg, Next(cfg, s, st), rest)
  {
    assert ([st] + rest)[1..] == rest;
  }

  lemma RecoveredRun(cfg: Config, s: System, now: real, steps: seq<Step>)
    requires cfg.Valid() && Owned(cfg, s) && Runs(cfg, s, [Crash, Boot(now)] + steps)
    ensures Owned(cfg, Recovered(cfg, s, now)) && Runs(cfg, Recovered(cfg, s, now), steps)
  {
    assert [Crash, Boot(now)] + steps == [Crash] + ([Boot(now)] + steps);
    FirstStep(cfg, s, Crash, [Boot(now)] + steps);
    FirstStep(cfg, Next(cfg, s, Crash), Boot(now), steps);
    StepOwned(cfg, s, Crash);
    StepOwned(cfg, Next(cfg, s, Crash), Boot(now));
  }

  lemma CutOffRow(cfg: Config, s: System, now: real, id: string)
    requires s.up && IsRunning(s.tasks, id)
    ensures var ts := Recovered(cfg, s, now).tasks;
            IsQueued(ts, id) && ts[id].kind == s.tasks[id].kind && ts[id].scheduledAt == now
  {
    RecoveryMakesDue(cfg, Next(cfg, s, Crash), now);
  }

  /**
   * Work cut off by a crash is not lost and not delayed: in any run of the next life, the first claim at
   * or after the recovery takes it, unless it has been taken before or the claim is filled with work that
   * comes before it.
   */
  lemma {:induction false} InterruptedWorkIsTaken(cfg: Config, s: System, now: real, steps: seq<Step>, k: nat, id: string)
    requires cfg.Valid() && Owned(cfg, s) && s.up && IsRunning(s.tasks, id) && s.tasks[id].kind != A.REVIEW
    requires Runs(cfg, s, [Crash, Boot(now)] + steps)
    requires k < |steps| && Claims(steps[k]) && steps[k].d.now >= now
    ensures Handed(steps) > 0 && TakenBy(cfg, Recovered(cfg, s, now), steps, k, now, id)
  {
    RecoveredRun(cfg, s, now, steps);
    CutOffRow(cfg, s, now, id);
    DueWorkIsTaken(cfg, Recovered(cfg, s, now), steps, k, id);
  }
}
