// The supervisor object of manager/supervisor.py and the job tick that drives it,
// proved against the state machines of modules Supervisor and WorkerHost.
module WorkerSupervisors {
  import opened Basics
  import S = Supervisor
  import H = WorkerHost

  /** The processes and the PID file; the journal holds every durable write, in order. */
  class Host {
    var live: map<int, H.Kind>
    var lease: Option<int>
    ghost var journal: seq<H.Write>

    ghost function Now(): H.Os
      reads this
    {
      H.Os(live, lease)
    }

    constructor (live: map<int, H.Kind>, lease: Option<int>)
      ensures Now() == H.Os(live, lease) && journal == []
    {
      this.live, this.lease := live, lease;
      journal := [];
    }

    ghost predicate Wrote(was: H.Os, before: seq<H.Write>, path: seq<H.Write>)
      reads this
    {
      Now() == H.End(was, path) && journal == before + path
    }

    /** One's own handle waits for its own process; a borrowed one asks whether the pid is in use. */
    method Poll(h: S.Handle) returns (alive: bool)
      ensures alive == H.Polls(Now(), h)
    {
      alive := h.pid in live && (h.Borrowed? || live[h.pid] == H.Worker);
    }

    method KillProcess(pid: int)
      modifies this
      ensures Wrote(old(Now()), old(journal), [H.Write(H.Killed, H.Kill(old(Now()), pid))])
    {
      live := live - {pid};
      journal := journal + [H.Write(H.Killed, Now())];
    }

    /** `_clear_pid_file`: without a pid the lease goes unconditionally. */
    method ClearPidFile(pid: Option<int>)
      modifies this
      ensures var os := old(Now());
              Wrote(os, old(journal),
                    [H.Write(H.LeaseCleared, if pid.Some? then H.ClearLease(os, pid.value) else os.(lease := None))])
    {
      if pid.None? || lease == pid {
        lease := None;
      }
      journal := journal + [H.Write(H.LeaseCleared, Now())];
    }

    method CreateProcess(pid: int)
      modifies this
      ensures Wrote(old(Now()), old(journal), [H.Write(H.ProcessCreated, H.Create(old(Now()), pid))])
    {
      live := live[pid := H.Worker];
      journal := journal + [H.Write(H.ProcessCreated, Now())];
    }

    method WritePidFile(pid: int)
      modifies this
      ensures Wrote(old(Now()), old(journal), [H.Write(H.LeaseWritten, old(Now()).(lease := Some(pid)))])
    {
      lease := Some(pid);
      journal := journal + [H.Write(H.LeaseWritten, Now())];
    }
  }

  lemma Join(os: H.Os, before: seq<H.Write>, a: seq<H.Write>, b: seq<H.Write>)
    ensures H.End(os, a + b) == H.End(H.End(os, a), b)
    ensures before + (a + b) == (before + a) + b
  {
  }

  /** The supervisor with a new handle and, if a worker was obtained, a new attempt. */
  function Launched(s: S.Sup, process: Option<S.Handle>, begun: bool, kind: S.EventKind, at: real): S.Sup {
    if begun then S.Begin(s.(process := process), kind, at) else s.(process := process)
  }

  /** A tick as the machine sees it: both readings find the same liveness, and the start ends as the host decides. */
  function TickOf(os: H.Os, process: Option<S.Handle>, first: S.Reading, autoRecover: bool, tickNow: real, again: S.Reading,
                  confirmed: bool, actAt: real, e: H.StartEnv): S.Tick
  {
    var second := again.(signals := again.signals.(alive := H.Alive(os, process)));
    var stop := H.Terminate(os, process, confirmed);
    var l := H.Launch(H.End(os, stop.path), process, e);
    S.Tick(first, autoRecover, tickNow, S.Recovery(second, stop.done, actAt, H.FateOf(l, e)))
  }

  /** The durable writes of a tick. */
  function TickPath(spec: S.Spec, os: H.Os, s: S.Sup, t: S.Tick, confirmed: bool, e: H.StartEnv): seq<H.Write> {
    if S.Recovers(spec, s, t)
    then H.Perform(spec, os, S.Observe(spec, s, t.first), H.Recovering(t.recovery.reading, confirmed, t.recovery.actAt, e)).path
    else []
  }

  lemma TickAgrees(spec: S.Spec, os: H.Os, s: S.Sup, first: S.Reading, autoRecover: bool, tickNow: real, again: S.Reading,
                   confirmed: bool, actAt: real, e: H.StartEnv)
    ensures var t := TickOf(os, s.process, first, autoRecover, tickNow, again, confirmed, actAt, e);
            var s1 := S.Observe(spec, s, first);
            && s1.process == s.process
            && (S.Recovers(spec, s, t) ==>
                  S.TickJob(spec, s, t) ==
                  H.Perform(spec, os, s1, H.Recovering(t.recovery.reading, confirmed, actAt, e)).sup)
  {
    H.ObserveShape(spec, s, first);
    H.ObserveShape(spec, S.Observe(spec, s, first), again.(signals := again.signals.(alive := H.Alive(os, s.process))));
  }

  class WorkerSupervisor {
    const spec: S.Spec
    const host: Host
    var state: S.JobState
    var process: Option<S.Handle>
    var attempt: nat
    var restartCount: nat
    var retryBudgetReset: bool
    var startedMonotonic: Option<real>
    var events: seq<S.Event>

    ghost function View(): S.Sup
      reads this
    {
      S.Sup(state, process, attempt, restartCount, retryBudgetReset, startedMonotonic, events)
    }

    constructor (spec: S.Spec, host: Host, initialAttempt: nat, initialRestartCount: nat)
      ensures this.spec == spec && this.host == host
      ensures View() == S.Fresh(initialAttempt, initialRestartCount)
    {
      this.spec, this.host := spec, host;
      state, process := S.Queued, None;
      attempt, restartCount := initialAttempt, initialRestartCount;
      retryBudgetReset := initialRestartCount == 0;
      startedMonotonic, events := None, [];
    }

    method Emit(kind: S.EventKind, previous: S.JobState, next: S.JobState, at: real)
      modifies this`events
      ensures events == old(events) + [S.Event(kind, previous, next, at)]
    {
      events := events + [S.Event(kind, previous, next, at)];
    }

    method Transition(next: S.JobState, kind: S.EventKind, at: real)
      modifies this`events, this`state
      ensures View() == S.Emit(old(View()), kind, next, at)
    {
      var previous := state;
      state := next;
      Emit(kind, previous, next, at);
    }

    method MaybeResetRetryBudget(health: S.Signals, now: real)
      modifies this`events, this`restartCount, this`retryBudgetReset
      ensures View() == S.MaybeReset(spec, old(View()), health.Healthy(), now)
    {
      if retryBudgetReset || restartCount <= 0 || startedMonotonic.None? {
        return;
      }
      var stableUptime := RealMax(0.0, now - startedMonotonic.value);
      if !health.Healthy() || stableUptime < spec.resetAfter {
        return;
      }
      restartCount := 0;
      retryBudgetReset := true;
      Emit(S.BudgetReset, state, state, now);
    }

    method ReadHealth(heartbeat: bool, resource: bool) returns (health: S.Signals)
      ensures health == S.Signals(H.Alive(host.Now(), process), heartbeat, resource)
    {
      var alive := false;
      if process.Some? {
        alive := host.Poll(process.value);
      }
      health := S.Signals(alive, heartbeat, resource);
    }

    method InStartupGrace(now: real) returns (inGrace: bool)
      ensures inGrace == S.InGrace(spec, View(), now)
    {
      inGrace := startedMonotonic.Some? && now - startedMonotonic.value < spec.grace;
    }

    method Observe(heartbeat: bool, resource: bool, now: real, graceNow: real) returns (health: S.Signals)
      modifies this`events, this`state, this`restartCount, this`retryBudgetReset
      ensures health == S.Signals(H.Alive(host.Now(), old(process)), heartbeat, resource)
      ensures View() == S.Observe(spec, old(View()), S.Reading(health, now, graceNow))
    {
      health := ReadHealth(heartbeat, resource);
      MaybeResetRetryBudget(health, now);
      if state in {S.Complete, S.Cancelled, S.Escalated} {
        return;
      }
      var next: S.JobState;
      var inGrace := InStartupGrace(graceNow);
      if health.Healthy() {
        next := S.Running;
      } else if health.alive && inGrace {
        next := S.Verifying;
      } else if !health.alive {
        next := S.Failed;
      } else {
        next := S.Stalled;
      }
      if next != state {
        Transition(next, S.StateChange, graceNow);
      } else {
        Emit(S.HealthCheck, state, state, graceNow);
      }
    }

    /** `_terminate_process`; true when the process is confirmed gone. */
    method TerminateProcess(confirmed: bool) returns (done: bool)
      modifies host
      ensures var stop := H.Terminate(old(host.Now()), process, confirmed);
              done == stop.done && host.Wrote(old(host.Now()), old(host.journal), stop.path)
    {
      if process.None? {
        host.ClearPidFile(None);
        return true;
      }
      var pid := process.value.pid;
      var alive := host.Poll(process.value);
      if alive {
        if !confirmed {
          return false;
        }
        host.KillProcess(pid);
      }
      host.ClearPidFile(Some(pid));
      return true;
    }

    /** `_adopt_existing`; a taken adoption begins an attempt. */
    method AdoptExisting(e: H.AdoptEnv, at: real) returns (verdict: H.Verdict)
      modifies host, this
      ensures var a := H.Adopt(old(host.Now()), old(process), e);
              && verdict == a.verdict && host.Wrote(old(host.Now()), old(host.journal), a.path)
              && View() == Launched(old(View()), a.process, a.verdict == H.Took, S.WorkerAdopted, at)
    {
      if host.lease.None? {
        return H.Nothing;
      }
      var pid := host.lease.value;
      var candidate := S.Borrowed(pid);
      var alive := host.Poll(candidate);
      if !alive {
        host.ClearPidFile(Some(pid));
        return H.Nothing;
      }
      if !e.readable {
        return H.Refused;
      }
      if host.live[pid] == H.Foreign {
        host.ClearPidFile(Some(pid));
        return H.Nothing;
      }
      process := Some(candidate);
      var health := ReadHealth(e.heartbeat, e.resource);
      if !health.Healthy() {
        var done := TerminateProcess(e.confirmed);
        if !done {
          return H.Refused;
        }
        process := None;
        return H.Nothing;
      }
      BeginAttempt(S.WorkerAdopted, at);
      return H.Took;
    }

    /** `_spawn`; true when both the process and its lease exist, and then an attempt has begun. */
    method SpawnProcess(e: H.SpawnEnv, at: real) returns (spawned: bool)
      modifies host, this
      ensures var l := H.Spawn(old(host.Now()), old(process), e);
              && spawned == (l.how == S.Spawned) && host.Wrote(old(host.Now()), old(host.journal), l.path)
              && View() == Launched(old(View()), l.process, spawned, S.WorkerStarted, at)
    {
      match e
      case NoProcess =>
        return false;
      case NoLease(pid, confirmed) =>
        host.CreateProcess(pid);
        process := Some(S.Own(pid));
        var _ := TerminateProcess(confirmed);
        return false;
      case WithLease(pid) =>
        host.CreateProcess(pid);
        process := Some(S.Own(pid));
        host.WritePidFile(pid);
        BeginAttempt(S.WorkerStarted, at);
        return true;
    }

    method BeginAttempt(kind: S.EventKind, at: real)
      modifies this
      ensures View() == S.Begin(old(View()), kind, at)
    {
      attempt := attempt + 1;
      retryBudgetReset := restartCount == 0;
      startedMonotonic := Some(at);
      Transition(S.Verifying, kind, at);
    }

    /** None when the source raises because the state does not allow a start. */
    method Start(e: H.StartEnv) returns (started: Option<bool>)
      modifies host, this
      ensures var was, os := old(View()), old(host.Now());
              var d := H.Perform(spec, os, was, H.Launching(e));
              && View() == d.sup && host.Wrote(os, old(host.journal), d.path)
              && (started.Some? <==> S.Startable(was.state))
              && (started.Some? ==> started.value == (H.Launch(os, was.process, e).how != S.Raised))
    {
      if state !in {S.Queued, S.Retrying} {
        return None;
      }
      Transition(S.Starting, S.StateChange, e.beginAt);
      var how := AdoptOrSpawn(e);
      if how == S.Raised {
        Transition(S.Failed, S.StateChange, e.endAt);
      }
      return Some(how != S.Raised);
    }

    method AdoptOrSpawn(e: H.StartEnv) returns (how: S.How)
      modifies host, this
      ensures var l := H.Launch(old(host.Now()), old(process), e);
              var kind := if l.how == S.Adopted then S.WorkerAdopted else S.WorkerStarted;
              && how == l.how && host.Wrote(old(host.Now()), old(host.journal), l.path)
              && View() == Launched(old(View()), l.process, l.how != S.Raised, kind, e.endAt)
    {
      ghost var a := H.Adopt(host.Now(), process, e.adopt);
      var verdict := AdoptExisting(e.adopt, e.endAt);
      if verdict == H.Took {
        return S.Adopted;
      }
      if verdict == H.Refused {
        return S.Raised;
      }
      ghost var sp := H.Spawn(host.Now(), process, e.spawn);
      var spawned := SpawnProcess(e.spawn, e.endAt);
      Join(old(host.Now()), old(host.journal), a.path, sp.path);
      return if spawned then S.Spawned else S.Raised;
    }

    method Recover(heartbeat: bool, resource: bool, now: real, graceNow: real, confirmed: bool, actAt: real, e: H.StartEnv)
      returns (recovered: bool)
      modifies host, this
      ensures var was, os := old(View()), old(host.Now());
              var reading := S.Reading(S.Signals(H.Alive(os, was.process), heartbeat, resource), now, graceNow);
              var d := H.Perform(spec, os, was, H.Recovering(reading, confirmed, actAt, e));
              && View() == d.sup && host.Wrote(os, old(host.journal), d.path)
              && recovered == (reading.signals.Healthy() || (d.launched && state == S.Verifying))
    {
      var health := Observe(heartbeat, resource, now, graceNow);
      H.RecoverCases(spec, host.Now(), old(View()), S.Reading(health, now, graceNow), confirmed, actAt, e);
      if health.Healthy() {
        return true;
      }
      if state !in {S.Failed, S.Stalled} {
        return false;
      }
      if restartCount >= spec.maxRestarts {
        Transition(S.Escalated, S.StateChange, actAt);
        var _ := TerminateProcess(confirmed);
        return false;
      }
      recovered := RestartOrEscalate(confirmed, actAt, e);
    }

    method RestartOrEscalate(confirmed: bool, actAt: real, e: H.StartEnv) returns (recovered: bool)
      modifies host, this
      ensures var was, os := old(View()), old(host.Now());
              var stop := H.Terminate(os, was.process, confirmed);
              var l := H.Launch(H.End(os, stop.path), was.process, e);
              if !stop.done then
                && View() == S.Emit(was, S.StateChange, S.Escalated, actAt) && !recovered
                && host.Wrote(os, old(host.journal), stop.path)
              else
                && View() == S.Start(S.Retry(was, actAt), H.FateOf(l, e))
                && recovered == (l.how != S.Raised)
                && host.Wrote(os, old(host.journal), stop.path + l.path)
    {
      var done := TerminateProcess(confirmed);
      if !done {
        Transition(S.Escalated, S.StateChange, actAt);
        return false;
      }
      ghost var stop := H.Terminate(old(host.Now()), process, confirmed);
      restartCount := restartCount + 1;
      Transition(S.Retrying, S.StateChange, actAt);
      ghost var l := H.Launch(host.Now(), process, e);
      var started := Start(e);
      Join(old(host.Now()), old(host.journal), stop.path, l.path);
      return started == Some(true);
    }

    method MarkComplete(confirmed: bool, at: real)
      modifies host, this`state, this`events
      ensures var d := H.Perform(spec, old(host.Now()), old(View()), H.Completing(confirmed, at));
              View() == d.sup && host.Wrote(old(host.Now()), old(host.journal), d.path)
    {
      Transition(S.Complete, S.StateChange, at);
      var _ := TerminateProcess(confirmed);
    }

    method Cancel(confirmed: bool, at: real)
      modifies host, this`state, this`events
      ensures var d := H.Perform(spec, old(host.Now()), old(View()), H.Cancelling(confirmed, at));
              View() == d.sup && host.Wrote(old(host.Now()), old(host.journal), d.path)
    {
      if state !in {S.Complete, S.Cancelled} {
        Transition(S.Cancelled, S.StateChange, at);
      }
      var _ := TerminateProcess(confirmed);
    }

    /** MachineManager.tick_job for this supervisor. */
    method TickJob(autoRecover: bool, heartbeat: bool, resource: bool, now: real, graceNow: real, tickNow: real,
                   again: S.Reading, confirmed: bool, actAt: real, e: H.StartEnv)
      modifies host, this
      ensures var was, os := old(View()), old(host.Now());
              var first := S.Reading(S.Signals(H.Alive(os, was.process), heartbeat, resource), now, graceNow);
              var t := TickOf(os, was.process, first, autoRecover, tickNow, again, confirmed, actAt, e);
              && View() == S.TickJob(spec, was, t)
              && host.Wrote(os, old(host.journal), TickPath(spec, os, was, t, confirmed, e))
    {
      ghost var was, os := View(), host.Now();
      var health := Observe(heartbeat, resource, now, graceNow);
      ghost var first := S.Reading(health, now, graceNow);
      TickAgrees(spec, os, was, first, autoRecover, tickNow, again, confirmed, actAt, e);
      var inGrace := InStartupGrace(tickNow);
      if autoRecover && !health.Healthy() && !inGrace && state in {S.Failed, S.Stalled} {
        var _ := Recover(again.signals.heartbeat, again.signals.resource, again.now, again.graceNow, confirmed, actAt, e);
      }
    }
  }
}
