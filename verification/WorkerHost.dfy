// The supervisor among real processes: the live processes of the machine, the PID
// lease that survives the manager, and every durable write an operation makes, in
// order, so that a manager crash can fall between any two of them.
module WorkerHost {
  import opened Basics
  import opened Supervisor

  /** What a live pid is: a worker this job spawned, another process with the same image, or neither. */
  datatype Kind = Worker | Lookalike | Foreign

  datatype Os = Os(live: map<int, Kind>, lease: Option<int>)

  datatype What = Killed | LeaseCleared | ProcessCreated | LeaseWritten

  datatype Write = Write(what: What, os: Os)

  function End(os: Os, path: seq<Write>): Os { if path == [] then os else path[|path| - 1].os }

  /** `poll`: a borrowed handle takes whatever lives under its pid for its process. */
  predicate Polls(os: Os, h: Handle) { h.pid in os.live && (h.Own? ==> os.live[h.pid] == Worker) }

  predicate Alive(os: Os, process: Option<Handle>) { process.Some? && Polls(os, process.value) }

  /** Remove the lease only when it names this pid. */
  function ClearLease(os: Os, pid: int): Os { if os.lease == Some(pid) then os.(lease := None) else os }

  function Kill(os: Os, pid: int): Os { os.(live := os.live - {pid}) }

  // ----- _terminate_process -----

  datatype Stop = Stop(done: bool, path: seq<Write>)

  function Terminate(os: Os, process: Option<Handle>, confirmed: bool): Stop {
    match process
    case None => Stop(true, [Write(LeaseCleared, os.(lease := None))])
    case Some(h) =>
      if !Polls(os, h) then Stop(true, [Write(LeaseCleared, ClearLease(os, h.pid))])
      else if !confirmed then Stop(false, [])
      else Stop(true, [Write(Killed, Kill(os, h.pid)), Write(LeaseCleared, ClearLease(Kill(os, h.pid), h.pid))])
  }

  // ----- _adopt_existing -----

  datatype AdoptEnv = AdoptEnv(readable: bool, heartbeat: bool, resource: bool, confirmed: bool)

  datatype Verdict = Took | Refused | Nothing

  datatype Adoption = Adoption(verdict: Verdict, process: Option<Handle>, path: seq<Write>)

  function Adopt(os: Os, process: Option<Handle>, e: AdoptEnv): Adoption {
    match os.lease
    case None => Adoption(Nothing, process, [])
    case Some(pid) =>
      if pid !in os.live then Adoption(Nothing, process, [Write(LeaseCleared, ClearLease(os, pid))])
      else if !e.readable then Adoption(Refused, process, [])
      else if os.live[pid] == Foreign then Adoption(Nothing, process, [Write(LeaseCleared, ClearLease(os, pid))])
      else if e.heartbeat && e.resource then Adoption(Took, Some(Borrowed(pid)), [])
      else
        var stop := Terminate(os, Some(Borrowed(pid)), e.confirmed);
        if stop.done then Adoption(Nothing, None, stop.path) else Adoption(Refused, Some(Borrowed(pid)), stop.path)
  }

  // ----- _spawn -----

  /** Popen fails; or the lease cannot be written; or both succeed. */
  datatype SpawnEnv = NoProcess | NoLease(pid: int, confirmed: bool) | WithLease(pid: int)

  datatype Launched = Launched(how: How, process: Option<Handle>, path: seq<Write>)

  function Create(os: Os, pid: int): Os { os.(live := os.live[pid := Worker]) }

  function Spawn(os: Os, process: Option<Handle>, e: SpawnEnv): Launched {
    match e
    case NoProcess => Launched(Raised, process, [])
    case NoLease(pid, confirmed) =>
      Launched(Raised, Some(Own(pid)),
               [Write(ProcessCreated, Create(os, pid))] + Terminate(Create(os, pid), Some(Own(pid)), confirmed).path)
    case WithLease(pid) =>
      Launched(Spawned, Some(Own(pid)),
               [Write(ProcessCreated, Create(os, pid)), Write(LeaseWritten, Create(os, pid).(lease := Some(pid)))])
  }

  datatype StartEnv = StartEnv(adopt: AdoptEnv, spawn: SpawnEnv, beginAt: real, endAt: real)

  function Launch(os: Os, process: Option<Handle>, e: StartEnv): Launched {
    var a := Adopt(os, process, e.adopt);
    match a.verdict
    case Took => Launched(Adopted, a.process, a.path)
    case Refused => Launched(Raised, a.process, a.path)
    case Nothing =>
      var sp := Spawn(End(os, a.path), a.process, e.spawn);
      Launched(sp.how, sp.process, a.path + sp.path)
  }

  // ----- whole operations -----

  datatype Call =
    | Observing(reading: Reading)
    | Launching(start: StartEnv)
    | Recovering(reading: Reading, confirmed: bool, actAt: real, start: StartEnv)
    | Cancelling(confirmed: bool, at: real)
    | Completing(confirmed: bool, at: real)

  datatype Done = Done(sup: Sup, path: seq<Write>, launched: bool)

  function FateOf(l: Launched, e: StartEnv): Fate { Fate(l.how, l.process, e.beginAt, e.endAt) }

  function Perform(spec: Spec, os: Os, s: Sup, c: Call): Done {
    match c
    case Observing(r) => Done(Observe(spec, s, r), [], false)
    case Launching(e) =>
      if !Startable(s.state) then Done(s, [], false)
      else
        var l := Launch(os, s.process, e);
        Done(Start(s, FateOf(l, e)), l.path, true)
    case Recovering(r, confirmed, actAt, e) =>
      var s1 := Observe(spec, s, r);
      var stop := Terminate(os, s1.process, confirmed);
      var l := Launch(End(os, stop.path), s1.process, e);
      var s' := Recover(spec, s, Recovery(r, stop.done, actAt, FateOf(l, e)));
      var course := CourseOf(spec, s1, r.signals.Healthy(), stop.done);
      if course == Leave then Done(s', [], false)
      else if course == Restart then Done(s', stop.path + l.path, true)
      else Done(s', stop.path, false)
    case Cancelling(confirmed, at) => Done(Cancel(s, at), Terminate(os, s.process, confirmed).path, false)
    case Completing(confirmed, at) => Done(MarkComplete(s, at), Terminate(os, s.process, confirmed).path, false)
  }

  /** The pid a start would give to a new process. */
  function NewPid(c: Call): Option<int> {
    if c.Launching? then SpawnPid(c.start.spawn)
    else if c.Recovering? then SpawnPid(c.start.spawn)
    else None
  }

  function SpawnPid(e: SpawnEnv): Option<int> { if e.NoProcess? then None else Some(e.pid) }

  /** Readings agree with the machine, and the operating system hands out pids that nobody uses. */
  ghost predicate Possible(os: Os, s: Sup, c: Call) {
    && (NewPid(c).Some? ==> NewPid(c).value !in os.live)
    && (c.Observing? ==> c.reading.signals.alive == Alive(os, s.process))
    && (c.Recovering? ==> c.reading.signals.alive == Alive(os, s.process))
  }

  // ----- the machine over manager lives -----

  /** `ours` are the processes spawned or adopted in the present life. */
  datatype World = World(os: Os, life: Option<Sup>, ours: set<int>)

  datatype Step =
    | Boot(attempt: nat, restarts: nat)
    | Act(call: Call)
    | CrashIn(call: Call, writes: nat)   // the manager dies after this many durable writes of the call
    | Dies(pid: int)
    | Appears(pid: int, kind: Kind)

  ghost predicate Enabled(spec: Spec, w: World, st: Step) {
    match st
    case Boot(_, _) => w.life.None?
    case Act(c) => w.life.Some? && Possible(w.os, w.life.value, c)
    case CrashIn(c, k) =>
      w.life.Some? && Possible(w.os, w.life.value, c) && k <= |Perform(spec, w.os, w.life.value, c).path|
    case Dies(pid) => pid in w.os.live
    case Appears(pid, kind) => pid !in w.os.live && kind != Worker
  }

  function Next(spec: Spec, w: World, st: Step): World
    requires st.Act? || st.CrashIn? ==> w.life.Some?
    requires st.CrashIn? ==> st.writes <= |Perform(spec, w.os, w.life.value, st.call).path|
  {
    match st
    case Boot(a, r) => World(w.os, Some(Fresh(a, r)), {})
    case Act(c) =>
      var d := Perform(spec, w.os, w.life.value, c);
      World(End(w.os, d.path), Some(d.sup),
            if d.launched && Alive(End(w.os, d.path), d.sup.process) then w.ours + {d.sup.process.value.pid} else w.ours)
    case CrashIn(c, k) => World(End(w.os, Perform(spec, w.os, w.life.value, c).path[..k]), None, {})
    case Dies(pid) => w.(os := Kill(w.os, pid))
    case Appears(pid, kind) => w.(os := w.os.(live := w.os.live[pid := kind]), ours := w.ours - {pid})
  }

  // ----- what every step keeps, unconditionally -----

  ghost predicate Grounded(w: World) {
    match w.life
    case None => w.ours == {}
    case Some(s) =>
      && s.state !in {Retrying, Starting}
      && (s.state == Queued ==> s.process == None && w.ours == {})
      && forall p | p in w.ours && p in w.os.live :: Alive(w.os, s.process) && s.process.value.pid == p
  }

  /** Whatever survives keeps its kind, and nothing new appears. */
  ghost predicate Shrinks(os: Os, os': Os) {
    forall p | p in os'.live :: p in os.live && os'.live[p] == os.live[p]
  }

  lemma TerminateFacts(os: Os, process: Option<Handle>, confirmed: bool)
    ensures var stop := Terminate(os, process, confirmed);
            && Shrinks(os, End(os, stop.path))
            && (stop.done ==> !Alive(End(os, stop.path), process))
            && (!stop.done ==> Alive(os, process) && stop.path == [])
            && (forall i | 0 <= i < |stop.path| :: stop.path[i].what != ProcessCreated)
  {
  }

  /** A new process, if there is one, is the one held then. */
  lemma LaunchFacts(os: Os, process: Option<Handle>, e: StartEnv)
    requires SpawnPid(e.spawn).Some? ==> SpawnPid(e.spawn).value !in os.live
    ensures var l := Launch(os, process, e);
            forall p | p in End(os, l.path).live && p !in os.live ::
              Alive(End(os, l.path), l.process) && l.process.value.pid == p
  {
    var a := Adopt(os, process, e.adopt);
    assert Shrinks(os, End(os, a.path));
    assert a.verdict == Nothing ==>
             End(os, a.path + Spawn(End(os, a.path), a.process, e.spawn).path)
             == End(End(os, a.path), Spawn(End(os, a.path), a.process, e.spawn).path);
  }

  lemma PerformGrounded(spec: Spec, w: World, c: Call)
    requires w.life.Some? && Grounded(w) && Possible(w.os, w.life.value, c)
    ensures Grounded(Next(spec, w, Act(c)))
  {
    var s := w.life.value;
    match c
    case Observing(r) => ObserveShape(spec, s, r);
    case Launching(e) => LaunchGrounded(spec, w, e);
    case Recovering(_, _, _, _) => RecoverGrounded(spec, w, c);
    case Cancelling(confirmed, _) => TerminateFacts(w.os, s.process, confirmed);
    case Completing(confirmed, _) => TerminateFacts(w.os, s.process, confirmed);
  }

  lemma LaunchGrounded(spec: Spec, w: World, e: StartEnv)
    requires w.life.Some? && Grounded(w) && Possible(w.os, w.life.value, Launching(e))
    ensures Grounded(Next(spec, w, Act(Launching(e))))
  {
    var s := w.life.value;
    if s.state == Queued {
      StartShape(s, FateOf(Launch(w.os, None, e), e));
    }
  }

  lemma StartShape(s: Sup, f: Fate)
    requires Startable(s.state)
    ensures Start(s, f).state in {Failed, Verifying} && Start(s, f).process == f.process
  {
  }

  lemma ObserveShape(spec: Spec, s: Sup, r: Reading)
    ensures var s1 := Observe(spec, s, r);
            && s1.process == s.process && (Settled(s1.state) || s1.state in {Running, Verifying, Failed, Stalled})
  {
  }

  /** The four ways a recovery can go. */
  lemma RecoverCases(spec: Spec, os: Os, s: Sup, r: Reading, confirmed: bool, actAt: real, e: StartEnv)
    ensures var d := Perform(spec, os, s, Recovering(r, confirmed, actAt, e));
            var s1 := Observe(spec, s, r);
            var stop := Terminate(os, s.process, confirmed);
            var l := Launch(End(os, stop.path), s.process, e);
            && s1.process == s.process
            && d == if r.signals.Healthy() || s1.state !in {Failed, Stalled} then Done(s1, [], false)
                    else if s1.restarts >= spec.maxRestarts || !stop.done
                    then Done(Emit(s1, StateChange, Escalated, actAt), stop.path, false)
                    else Done(Start(Retry(s1, actAt), FateOf(l, e)), stop.path + l.path, true)
  {
    ObserveShape(spec, s, r);
  }

  lemma RecoverShape(spec: Spec, os: Os, s: Sup, c: Call)
    requires c.Recovering?
    ensures var d := Perform(spec, os, s, c);
            var stop := Terminate(os, s.process, c.confirmed);
            var l := Launch(End(os, stop.path), s.process, c.start);
            && d.sup.state !in {Retrying, Starting, Queued}
            && if d.launched then stop.done && d.path == stop.path + l.path && d.sup.process == l.process
               else d.sup.process == s.process && (d.path == [] || d.path == stop.path)
  {
    ObserveShape(spec, s, c.reading);
    RecoverCases(spec, os, s, c.reading, c.confirmed, c.actAt, c.start);
    var stop := Terminate(os, s.process, c.confirmed);
    var l := Launch(End(os, stop.path), s.process, c.start);
    var retried := Retry(Observe(spec, s, c.reading), c.actAt);
    StartShape(retried, FateOf(l, c.start));
  }

  lemma EndJoin(os: Os, a: seq<Write>, b: seq<Write>)
    ensures End(os, a + b) == End(End(os, a), b)
  {
  }

  lemma RecoverGrounded(spec: Spec, w: World, c: Call)
    requires w.life.Some? && Grounded(w) && Possible(w.os, w.life.value, c) && c.Recovering?
    ensures Grounded(Next(spec, w, Act(c)))
  {
    var s := w.life.value;
    RecoverShape(spec, w.os, s, c);
    TerminateFacts(w.os, s.process, c.confirmed);
    var stop := Terminate(w.os, s.process, c.confirmed);
    var os1 := End(w.os, stop.path);
    if stop.done {
      LaunchFacts(os1, s.process, c.start);
      EndJoin(w.os, stop.path, Launch(os1, s.process, c.start).path);
    }
  }

  /**
   * Within one life every live process the supervisor spawned or adopted is the one it holds.
   * No hypothesis on identity readings, lease writes, confirmations or reused pids is needed.
   */
  lemma {:induction false} OneWorkerPerLife(spec: Spec, w: World, st: Step)
    requires Grounded(w) && Enabled(spec, w, st)
    ensures Grounded(Next(spec, w, st))
  {
    if st.Act? {
      PerformGrounded(spec, w, st.call);
    }
  }

  // ----- creation only after death -----

  /** The machine just before the i-th write of a path. */
  function Before(os: Os, path: seq<Write>, i: nat): Os
    requires i < |path|
  {
    if i == 0 then os else path[i - 1].os
  }

  /** A process is created only when the one held before is dead; an unconfirmed stop escalates and writes nothing. */
  lemma {:induction false} RespawnOnlyAfterDeath(spec: Spec, w: World, c: Call)
    requires w.life.Some? && Grounded(w) && Possible(w.os, w.life.value, c)
    ensures var d := Perform(spec, w.os, w.life.value, c);
            forall i | 0 <= i < |d.path| && d.path[i].what == ProcessCreated ::
              !Alive(Before(w.os, d.path, i), w.life.value.process)
    ensures c.Recovering? && Alive(w.os, w.life.value.process) && !c.confirmed ==>
              var d := Perform(spec, w.os, w.life.value, c);
              && d.path == [] && d.sup.process == w.life.value.process
              && (d.sup.state in {Failed, Stalled, Escalated} ==> d.sup.state == Escalated)
  {
    var s := w.life.value;
    var d := Perform(spec, w.os, s, c);
    if c.Recovering? {
      var stop := Terminate(w.os, s.process, c.confirmed);
      TerminateFacts(w.os, s.process, c.confirmed);
      RecoverShape(spec, w.os, s, c);
      if stop.done {
        CreatedApart(End(w.os, stop.path), s.process, c.start);
        BeforeJoined(w.os, stop.path, Launch(End(w.os, stop.path), s.process, c.start).path);
      }
    } else if c.Launching? && Startable(s.state) {
      CreatedApart(w.os, s.process, c.start);
    }
  }

  lemma BeforeJoined(os: Os, a: seq<Write>, b: seq<Write>)
    ensures forall i | |a| <= i < |a + b| :: Before(os, a + b, i) == Before(End(os, a), b, i - |a|) && (a + b)[i] == b[i - |a|]
  {
  }

  /** Looking for a survivor creates nothing and brings nobody to life. */
  lemma AdoptCreatesNone(os: Os, process: Option<Handle>, e: AdoptEnv)
    ensures var path := Adopt(os, process, e).path;
            Shrinks(os, End(os, path)) && forall i | 0 <= i < |path| :: path[i].what != ProcessCreated
  {
  }

  lemma SpawnCreatesFirst(os: Os, process: Option<Handle>, e: SpawnEnv)
    ensures var path := Spawn(os, process, e).path; forall i | 0 <= i < |path| && path[i].what == ProcessCreated :: i == 0
  {
  }

  lemma CreatedApart(os: Os, process: Option<Handle>, e: StartEnv)
    requires !Alive(os, process)
    ensures var path := Launch(os, process, e).path;
            forall i | 0 <= i < |path| && path[i].what == ProcessCreated :: !Alive(Before(os, path, i), process)
  {
    var a := Adopt(os, process, e.adopt);
    AdoptCreatesNone(os, process, e.adopt);
    if a.verdict == Nothing {
      var os1 := End(os, a.path);
      var b := Spawn(os1, a.process, e.spawn).path;
      SpawnCreatesFirst(os1, a.process, e.spawn);
      BeforeJoined(os, a.path, b);
      forall i | 0 <= i < |a.path + b| && (a.path + b)[i].what == ProcessCreated
        ensures !Alive(Before(os, a.path + b, i), process)
      {
        assert i == |a.path|;
      }
    }
  }

  // ----- processes with another image -----

  /** Processes with another image survive every write of a call. */
  ghost predicate Spares(os: Os, path: seq<Write>) {
    forall i, p | 0 <= i < |path| && p in os.live && os.live[p] == Foreign ::
      p in path[i].os.live && path[i].os.live[p] == Foreign
  }

  /** The worker of an adopted handle has died and its pid now belongs to a process with another image. */
  predicate HoldsStranger(os: Os, s: Sup) { Stranger(os, s.process) }

  predicate Stranger(os: Os, process: Option<Handle>) {
    process.Some? && process.value.Borrowed? && process.value.pid in os.live && os.live[process.value.pid] == Foreign
  }

  /** The call ends what the supervisor holds, given that something lives under the held pid. */
  predicate EndsHeld(spec: Spec, s: Sup, c: Call) {
    match c
    case Recovering(r, confirmed, _, _) =>
      confirmed && !r.signals.Healthy() && !Settled(s.state) && !InGrace(spec, s, r.graceNow)
    case Cancelling(confirmed, _) => confirmed
    case Completing(confirmed, _) => confirmed
    case _ => false
  }

  lemma SparesJoin(os: Os, a: seq<Write>, b: seq<Write>)
    requires Spares(os, a) && Spares(End(os, a), b)
    ensures Spares(os, a + b)
  {
    forall i, p | 0 <= i < |a + b| && p in os.live && os.live[p] == Foreign
      ensures p in (a + b)[i].os.live && (a + b)[i].os.live[p] == Foreign
    {
      assert a != [] ==> p in a[|a| - 1].os.live && a[|a| - 1].os.live[p] == Foreign;
      if i >= |a| {
        assert (a + b)[i] == b[i - |a|];
      }
    }
  }

  lemma TerminateSpares(os: Os, s: Sup, confirmed: bool)
    ensures Spares(os, Terminate(os, s.process, confirmed).path) <==> !(HoldsStranger(os, s) && confirmed)
  {
    var path := Terminate(os, s.process, confirmed).path;
    if HoldsStranger(os, s) && confirmed {
      assert s.process.value.pid !in path[0].os.live;
    }
  }

  /** A start never ends a process with another image. */
  lemma LaunchSpares(os: Os, process: Option<Handle>, e: StartEnv)
    requires SpawnPid(e.spawn).Some? ==> SpawnPid(e.spawn).value !in os.live
    ensures Spares(os, Launch(os, process, e).path)
  {
    var a := Adopt(os, process, e.adopt);
    assert Spares(os, a.path) && Shrinks(os, End(os, a.path));
    if a.verdict == Nothing {
      var os1 := End(os, a.path);
      assert Spares(os1, Spawn(os1, a.process, e.spawn).path);
      SparesJoin(os, a.path, Spawn(os1, a.process, e.spawn).path);
    }
  }

  /**
   * A call spares every process with another image if and only if it does not end a held pid that now
   * belongs to one. The source looks at the image when it adopts, and never again.
   */
  lemma {:induction false} SparesExactly(spec: Spec, os: Os, s: Sup, c: Call)
    requires Possible(os, s, c)
    ensures Spares(os, Perform(spec, os, s, c).path) <==> !(HoldsStranger(os, s) && EndsHeld(spec, s, c))
  {
    match c
    case Observing(_) =>
    case Launching(e) => LaunchSpares(os, s.process, e);
    case Recovering(_, _, _, _) => RecoverSpares(spec, os, s, c);
    case Cancelling(confirmed, _) => TerminateSpares(os, s, confirmed);
    case Completing(confirmed, _) => TerminateSpares(os, s, confirmed);
  }

  lemma RecoverSpares(spec: Spec, os: Os, s: Sup, c: Call)
    requires Possible(os, s, c) && c.Recovering?
    ensures Spares(os, Perform(spec, os, s, c).path) <==> !(HoldsStranger(os, s) && EndsHeld(spec, s, c))
  {
    RecoverCases(spec, os, s, c.reading, c.confirmed, c.actAt, c.start);
    TerminateSpares(os, s, c.confirmed);
    TerminateFacts(os, s.process, c.confirmed);
    var stop := Terminate(os, s.process, c.confirmed);
    var l := Launch(End(os, stop.path), s.process, c.start);
    if stop.done {
      LaunchSpares(End(os, stop.path), s.process, c.start);
      if Spares(os, stop.path) {
        SparesJoin(os, stop.path, l.path);
      } else {
        assert (stop.path + l.path)[0] == stop.path[0];
      }
    }
  }

  lemma LaunchNoStranger(os: Os, process: Option<Handle>, e: StartEnv)
    requires !Stranger(os, process)
    ensures var l := Launch(os, process, e); !Stranger(End(os, l.path), l.process)
  {
    var a := Adopt(os, process, e.adopt);
    assert Shrinks(os, End(os, a.path));
    assert !Stranger(End(os, a.path), a.process);
    if a.verdict == Nothing {
      EndJoin(os, a.path, Spawn(End(os, a.path), a.process, e.spawn).path);
    }
  }

  lemma CallNoStranger(spec: Spec, os: Os, s: Sup, c: Call)
    requires !HoldsStranger(os, s)
    ensures var d := Perform(spec, os, s, c); !HoldsStranger(End(os, d.path), d.sup)
  {
    match c
    case Observing(r) => ObserveShape(spec, s, r);
    case Launching(e) => LaunchNoStranger(os, s.process, e);
    case Recovering(_, confirmed, _, e) =>
      RecoverShape(spec, os, s, c);
      TerminateFacts(os, s.process, confirmed);
      var stop := Terminate(os, s.process, confirmed);
      var os1 := End(os, stop.path);
      LaunchNoStranger(os1, s.process, e);
      EndJoin(os, stop.path, Launch(os1, s.process, e).path);
    case Cancelling(confirmed, _) => TerminateFacts(os, s.process, confirmed);
    case Completing(confirmed, _) => TerminateFacts(os, s.process, confirmed);
  }

  /** A stranger is held only after its pid was that of the dead worker of an adopted handle. */
  lemma {:induction false} StrangersNeedReuse(spec: Spec, w: World, st: Step)
    requires w.life.Some? && !HoldsStranger(w.os, w.life.value) && Enabled(spec, w, st)
    requires Next(spec, w, st).life.Some? && HoldsStranger(Next(spec, w, st).os, Next(spec, w, st).life.value)
    ensures st.Appears? && st.kind == Foreign && w.life.value.process == Some(Borrowed(st.pid))
  {
    if st.Act? {
      CallNoStranger(spec, w.os, w.life.value, st.call);
    }
  }
}
