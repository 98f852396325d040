// What starting and stopping a worker does, in terms of the machine before and after:
// when a survivor is adopted, what becomes of an ailing one, when a process is
// created, and what an ended job leaves behind.
module WorkerStart {
  import opened Basics
  import opened Supervisor
  import opened WorkerHost

  // ----- survivors -----

  /** The lease names a live pid. */
  predicate Survivor(os: Os, pid: int) { os.lease == Some(pid) && pid in os.live }

  /** It has the worker's image and is well: live process, fresh heartbeat, active resource. */
  predicate Adoptable(os: Os, e: AdoptEnv) {
    && os.lease.Some? && os.lease.value in os.live && os.live[os.lease.value] != Foreign
    && e.readable && e.heartbeat && e.resource
  }

  /** It can neither be identified nor, when it ails, be ended. */
  predicate Stuck(os: Os, e: AdoptEnv) {
    && os.lease.Some? && os.lease.value in os.live
    && (!e.readable || (os.live[os.lease.value] != Foreign && !(e.heartbeat && e.resource) && !e.confirmed))
  }

  /** A start adopts exactly an identified survivor that is well, and then writes nothing and holds that very pid. */
  lemma AdoptsExactly(os: Os, process: Option<Handle>, e: StartEnv)
    ensures Launch(os, process, e).how == Adopted <==> Adoptable(os, e.adopt)
    ensures Adoptable(os, e.adopt) ==> Launch(os, process, e) == Launched(Adopted, Some(Borrowed(os.lease.value)), [])
  {
  }

  /** A survivor that cannot be identified or ended makes the start raise; it stays alive and leased, and nothing is created. */
  lemma StuckRaises(os: Os, process: Option<Handle>, e: StartEnv)
    requires Stuck(os, e.adopt)
    ensures var l := Launch(os, process, e); l.how == Raised && l.path == [] && End(os, l.path) == os
    ensures e.adopt.readable ==> Launch(os, process, e).process == Some(Borrowed(os.lease.value))
    ensures !e.adopt.readable ==> Launch(os, process, e).process == process
  {
  }

  /**
   * An ailing survivor with the worker's image is dead, and its lease gone, before a start creates a
   * process; a survivor with another image loses its lease and nothing else.
   */
  lemma {:induction false} SurvivorBeforeSpawn(os: Os, process: Option<Handle>, e: StartEnv, pid: int)
    requires Survivor(os, pid) && (SpawnPid(e.spawn).Some? ==> SpawnPid(e.spawn).value !in os.live)
    ensures var path := Launch(os, process, e).path;
            forall i | 0 <= i < |path| && path[i].what == ProcessCreated ::
              && Before(os, path, i).lease == None
              && (os.live[pid] != Foreign ==> pid !in Before(os, path, i).live && pid !in End(os, path).live)
              && (os.live[pid] == Foreign ==> pid in End(os, path).live && End(os, path).live[pid] == Foreign)
  {
    var a := Adopt(os, process, e.adopt);
    if a.verdict == Nothing {
      var os1 := End(os, a.path);
      assert os1.lease == None && os1.live == if os.live[pid] == Foreign then os.live else os.live - {pid};
      var sp := Spawn(os1, a.process, e.spawn);
      BeforeJoined(os, a.path, sp.path);
      EndJoin(os, a.path, sp.path);
    }
  }

  /** The processes once an ailing survivor with the worker's image has been ended. */
  function WithoutAiling(os: Os): map<int, Kind> {
    if os.lease.Some? && os.lease.value in os.live && os.live[os.lease.value] != Foreign then os.live - {os.lease.value}
    else os.live
  }

  /** After the look for a survivor nothing is leased and only an ailing one has been ended. */
  lemma NobodyLeft(os: Os, process: Option<Handle>, e: AdoptEnv)
    requires !Adoptable(os, e) && !Stuck(os, e)
    ensures var a := Adopt(os, process, e);
            && a.verdict == Nothing && End(os, a.path) == Os(WithoutAiling(os), None)
            && a.process == if WithoutAiling(os) == os.live then process else None
  {
  }

  /**
   * A start creates and leases a process exactly when there is nobody to adopt, nobody is stuck and both
   * steps of the spawn succeed. It then holds a handle of its own, and of the others only an ailing
   * survivor has been ended.
   */
  lemma {:induction false} SpawnsExactly(os: Os, process: Option<Handle>, e: StartEnv)
    ensures var l := Launch(os, process, e);
            && (l.how == Spawned <==> e.spawn.WithLease? && !Adoptable(os, e.adopt) && !Stuck(os, e.adopt))
            && (l.how == Spawned ==>
                  && l.process == Some(Own(e.spawn.pid))
                  && End(os, l.path) == Os(WithoutAiling(os)[e.spawn.pid := Worker], Some(e.spawn.pid)))
  {
    var a := Adopt(os, process, e.adopt);
    if !Adoptable(os, e.adopt) && !Stuck(os, e.adopt) {
      NobodyLeft(os, process, e.adopt);
      EndJoin(os, a.path, Spawn(End(os, a.path), a.process, e.spawn).path);
    }
  }

  /** A process whose lease cannot be written is ended again if its end can be confirmed, and held otherwise. */
  lemma {:induction false} UnleasedProcess(os: Os, process: Option<Handle>, e: StartEnv)
    requires e.spawn.NoLease? && !Adoptable(os, e.adopt) && !Stuck(os, e.adopt)
    ensures var l, live := Launch(os, process, e), WithoutAiling(os);
            && l.how == Raised && l.process == Some(Own(e.spawn.pid))
            && End(os, l.path) == Os(if e.spawn.confirmed then live - {e.spawn.pid} else live[e.spawn.pid := Worker], None)
  {
    var a := Adopt(os, process, e.adopt);
    NobodyLeft(os, process, e.adopt);
    EndJoin(os, a.path, Spawn(End(os, a.path), a.process, e.spawn).path);
    assert WithoutAiling(os)[e.spawn.pid := Worker] - {e.spawn.pid} == WithoutAiling(os) - {e.spawn.pid};
  }

  /** When no process can be created the start raises; a stale or foreign lease is gone and an ailing survivor is dead. */
  lemma {:induction false} FailedSpawn(os: Os, process: Option<Handle>, e: StartEnv)
    requires e.spawn.NoProcess? && !Adoptable(os, e.adopt) && !Stuck(os, e.adopt)
    ensures var l := Launch(os, process, e);
            && l.how == Raised && End(os, l.path) == Os(WithoutAiling(os), None)
            && l.process == if WithoutAiling(os) == os.live then process else None
  {
    var a := Adopt(os, process, e.adopt);
    NobodyLeft(os, process, e.adopt);
    assert a.path + [] == a.path;
  }

  // ----- starting a job -----

  predicate Obtains(os: Os, e: StartEnv) {
    Adoptable(os, e.adopt) || (e.spawn.WithLease? && !Stuck(os, e.adopt))
  }

  /**
   * A start of a queued or retried job begins an attempt exactly when it obtains a worker, says in the
   * ledger how, and is VERIFYING then and FAILED otherwise. From any other state it raises and does nothing.
   */
  lemma {:induction false} StartOutcome(spec: Spec, os: Os, s: Sup, e: StartEnv)
    ensures var d := Perform(spec, os, s, Launching(e));
            if s.state in {Queued, Retrying} then
              && |d.sup.events| == |s.events| + 2 && d.sup.events[..|s.events|] == s.events
              && d.sup.events[|s.events|] == Event(StateChange, s.state, Starting, e.beginAt)
              && d.sup.events[|s.events| + 1] ==
                 Event(if Adoptable(os, e.adopt) then WorkerAdopted else if Obtains(os, e) then WorkerStarted else StateChange,
                       Starting, if Obtains(os, e) then Verifying else Failed, e.endAt)
              && d.sup.state == (if Obtains(os, e) then Verifying else Failed)
              && d.sup.attempt == s.attempt + (if Obtains(os, e) then 1 else 0)
              && d.sup.started == (if Obtains(os, e) then Some(e.endAt) else s.started)
              && d.sup.restarts == s.restarts
            else d == Done(s, [], false)
  {
    AdoptsExactly(os, s.process, e);
    SpawnsExactly(os, s.process, e);
  }

  // ----- stopping -----

  /**
   * A stop succeeds exactly when the held process is dead or its end is confirmed. It then leaves the
   * held pid dead, takes the lease away when it names that pid (or when nothing is held), and touches
   * no other process; a stop that fails changes nothing.
   */
  lemma StopEnds(os: Os, process: Option<Handle>, confirmed: bool)
    ensures var stop := Terminate(os, process, confirmed);
            var os' := End(os, stop.path);
            && (stop.done <==> !Alive(os, process) || confirmed)
            && (!stop.done ==> os' == os)
            && os'.live == (if Alive(os, process) && confirmed then os.live - {process.value.pid} else os.live)
            && (stop.done ==> os'.lease == if process.None? || os.lease == Some(process.value.pid) then None else os.lease)
  {
  }

  /** Cancelling or completing a job ends its worker: a live one is dead afterwards exactly when its end was confirmed. */
  lemma {:induction false} EndedJob(spec: Spec, os: Os, s: Sup, c: Call)
    requires c.Cancelling? || c.Completing?
    ensures var d := Perform(spec, os, s, c);
            var os' := End(os, d.path);
            && d.sup.state == (if c.Completing? || s.state == Complete then Complete else Cancelled)
            && d.sup.process == s.process && d.sup.attempt == s.attempt && d.sup.restarts == s.restarts
            && (Alive(os, s.process) ==> (Alive(os', s.process) <==> !c.confirmed))
            && (Alive(os, s.process) && c.confirmed ==> s.process.value.pid !in os'.live && os'.lease != Some(s.process.value.pid))
            && (Alive(os, s.process) && !c.confirmed ==> os' == os)
            && (!Alive(os, s.process) ==> os'.live == os.live)
  {
    StopEnds(os, s.process, c.confirmed);
  }

  /** A recovery without retries left ends the ailing worker as well. */
  lemma {:induction false} ExhaustedJob(spec: Spec, os: Os, s: Sup, c: Call)
    requires c.Recovering? && !c.reading.signals.Healthy() && !Settled(s.state)
    requires c.reading.signals.alive == Alive(os, s.process)
    requires Alive(os, s.process) ==> !InGrace(spec, s, c.reading.graceNow)
    requires s.restarts >= spec.maxRestarts
    ensures var d := Perform(spec, os, s, c);
            && d.sup.state == Escalated && !d.launched
            && (Alive(os, s.process) ==> (Alive(End(os, d.path), s.process) <==> !c.confirmed))
  {
    RecoverCases(spec, os, s, c.reading, c.confirmed, c.actAt, c.start);
    StopEnds(os, s.process, c.confirmed);
  }
}
