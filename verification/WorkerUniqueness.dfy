// At most one live worker over any sequence of manager crashes and restarts, the
// hypotheses this needs, and concrete runs that break it without each of them.
module WorkerUniqueness {
  import opened Basics
  import opened Chains
  import opened Supervisor
  import opened WorkerHost

  ghost predicate IsWorker(os: Os, p: int) { p in os.live && os.live[p] == Worker }

  ghost predicate NoWorker(os: Os) { forall p :: !IsWorker(os, p) }

  ghost predicate AtMostOneWorker(os: Os) { forall p, q :: IsWorker(os, p) && IsWorker(os, q) ==> p == q }

  /** A crash now loses nothing: the live worker is the one the lease names. */
  ghost predicate Leased(os: Os) { forall p :: IsWorker(os, p) ==> os.lease == Some(p) }

  ghost predicate HeldBy(os: Os, process: Option<Handle>) {
    forall p :: IsWorker(os, p) ==> process.Some? && process.value.pid == p
  }

  ghost predicate Safe(w: World) {
    && Grounded(w) && Leased(w.os)
    && (w.life.Some? && w.life.value.state != Queued ==> HeldBy(w.os, w.life.value.process))
  }

  /** The identity of a live pid can be read, and a worker whose lease could not be written is confirmed dead. */
  predicate CleanStart(e: StartEnv) { e.adopt.readable && (e.spawn.NoLease? ==> e.spawn.confirmed) }

  /** The manager starts a job before it does anything else to it. */
  predicate Benign(s: Sup, c: Call) {
    && (s.state == Queued ==> c.Launching?)
    && (c.Launching? ==> CleanStart(c.start)) && (c.Recovering? ==> CleanStart(c.start))
  }

  /** No crash falls between the creation of a process and its lease. */
  ghost predicate BenignStep(spec: Spec, w: World, st: Step)
    requires Enabled(spec, w, st)
  {
    match st
    case Act(c) => Benign(w.life.value, c)
    case CrashIn(c, k) =>
      && Benign(w.life.value, c)
      && (k > 0 ==> Perform(spec, w.os, w.life.value, c).path[k - 1].what != ProcessCreated)
    case _ => true
  }

  /** Every durable write, except the creation of a process itself, leaves a leased machine. */
  ghost predicate LeasedThroughout(path: seq<Write>) {
    forall i | 0 <= i < |path| :: path[i].what != ProcessCreated ==> Leased(path[i].os)
  }

  lemma TerminateSafe(os: Os, process: Option<Handle>, confirmed: bool)
    requires Leased(os) && HeldBy(os, process)
    ensures var stop := Terminate(os, process, confirmed);
            && LeasedThroughout(stop.path) && Leased(End(os, stop.path)) && HeldBy(End(os, stop.path), process)
            && (stop.done ==> NoWorker(End(os, stop.path)))
  {
    match process
    case None => NoWorkerLeft(os, os.(lease := None));
    case Some(h) =>
      if !Polls(os, h) {
        NoWorkerLeft(os, ClearLease(os, h.pid));
      } else if confirmed {
        NoWorkerLeft(os, Kill(os, h.pid));
        NoWorkerLeft(os, ClearLease(Kill(os, h.pid), h.pid));
      }
  }

  /** A machine on which every former worker is gone, and none is new. */
  lemma NoWorkerLeft(os: Os, os': Os)
    requires forall p | IsWorker(os, p) :: !IsWorker(os', p)
    requires forall p | p in os'.live :: p in os.live && os'.live[p] == os.live[p]
    ensures NoWorker(os')
  {
    forall p ensures !IsWorker(os', p) {
      assert IsWorker(os', p) ==> IsWorker(os, p);
    }
  }

  lemma AdoptSafe(os: Os, process: Option<Handle>, e: AdoptEnv)
    requires Leased(os) && e.readable
    ensures var a := Adopt(os, process, e);
            && LeasedThroughout(a.path) && Leased(End(os, a.path))
            && if a.verdict == Nothing then NoWorker(End(os, a.path)) else HeldBy(End(os, a.path), a.process)
  {
    if os.lease.Some? {
      assert HeldBy(os, Some(Borrowed(os.lease.value)));
      TerminateSafe(os, Some(Borrowed(os.lease.value)), e.confirmed);
    }
  }

  lemma SpawnSafe(os: Os, process: Option<Handle>, e: SpawnEnv)
    requires NoWorker(os) && (e.NoLease? ==> e.confirmed)
    requires SpawnPid(e).Some? ==> SpawnPid(e).value !in os.live
    ensures var l := Spawn(os, process, e);
            LeasedThroughout(l.path) && Leased(End(os, l.path)) && HeldBy(End(os, l.path), l.process)
  {
    if e.WithLease? {
      assert forall p :: IsWorker(End(os, Spawn(os, process, e).path), p) ==> p == e.pid || IsWorker(os, p);
    }
    if e.NoLease? {
      assert forall p :: IsWorker(Kill(Create(os, e.pid), e.pid), p) ==> IsWorker(os, p);
    }
  }

  lemma LeasedJoin(os: Os, a: seq<Write>, b: seq<Write>)
    requires LeasedThroughout(a) && LeasedThroughout(b)
    ensures LeasedThroughout(a + b) && End(os, a + b) == End(End(os, a), b)
  {
  }

  lemma LaunchSafe(os: Os, process: Option<Handle>, e: StartEnv)
    requires Leased(os) && CleanStart(e)
    requires SpawnPid(e.spawn).Some? ==> SpawnPid(e.spawn).value !in os.live
    ensures var l := Launch(os, process, e);
            LeasedThroughout(l.path) && Leased(End(os, l.path)) && HeldBy(End(os, l.path), l.process)
  {
    var a := Adopt(os, process, e.adopt);
    AdoptSafe(os, process, e.adopt);
    assert Shrinks(os, End(os, a.path));
    if a.verdict == Nothing {
      var os1 := End(os, a.path);
      SpawnSafe(os1, a.process, e.spawn);
      LeasedJoin(os, a.path, Spawn(os1, a.process, e.spawn).path);
    }
  }

  lemma PerformSafe(spec: Spec, w: World, c: Call)
    requires Safe(w) && w.life.Some? && Possible(w.os, w.life.value, c) && Benign(w.life.value, c)
    ensures var d := Perform(spec, w.os, w.life.value, c);
            && LeasedThroughout(d.path) && Leased(End(w.os, d.path))
            && (d.sup.state != Queued ==> HeldBy(End(w.os, d.path), d.sup.process))
  {
    var s := w.life.value;
    match c
    case Observing(r) => ObserveShape(spec, s, r);
    case Launching(e) =>
      if Startable(s.state) {
        LaunchSafe(w.os, s.process, e);
      }
    case Recovering(_, confirmed, _, e) =>
      RecoverShape(spec, w.os, s, c);
      TerminateSafe(w.os, s.process, confirmed);
      if Grounded(w) {
        TerminateShrinks(w.os, s.process, confirmed);
      }
      var stop := Terminate(w.os, s.process, confirmed);
      var os1 := End(w.os, stop.path);
      LaunchSafe(os1, s.process, e);
      LeasedJoin(w.os, stop.path, Launch(os1, s.process, e).path);
    case Cancelling(confirmed, _) => TerminateSafe(w.os, s.process, confirmed);
    case Completing(confirmed, _) => TerminateSafe(w.os, s.process, confirmed);
  }

  lemma TerminateShrinks(os: Os, process: Option<Handle>, confirmed: bool)
    ensures End(os, Terminate(os, process, confirmed).path).live.Keys <= os.live.Keys
  {
  }

  lemma {:induction false} SafeStep(spec: Spec, w: World, st: Step)
    requires Safe(w) && Enabled(spec, w, st) && BenignStep(spec, w, st)
    ensures Safe(Next(spec, w, st))
  {
    OneWorkerPerLife(spec, w, st);
    match st
    case Act(c) => PerformSafe(spec, w, c);
    case CrashIn(c, k) =>
      PerformSafe(spec, w, c);
      CrashLeased(w.os, Perform(spec, w.os, w.life.value, c).path, k);
    case Boot(_, _) =>
    case Dies(pid) => FewerWorkers(w, Next(spec, w, st));
    case Appears(pid, kind) => FewerWorkers(w, Next(spec, w, st));
  }

  lemma CrashLeased(os: Os, path: seq<Write>, k: nat)
    requires Leased(os) && LeasedThroughout(path) && k <= |path| && (k > 0 ==> path[k - 1].what != ProcessCreated)
    ensures Leased(End(os, path[..k]))
  {
    assert k > 0 ==> path[..k][k - 1] == path[k - 1];
  }

  lemma FewerWorkers(w: World, w': World)
    requires Safe(w) && Grounded(w') && w'.life == w.life && w'.os.lease == w.os.lease
    requires forall p :: IsWorker(w'.os, p) ==> IsWorker(w.os, p)
    ensures Safe(w')
  {
  }

  // ----- runs over many lives -----

  ghost function Allows(spec: Spec, benign: bool): (World, Step) -> bool {
    (w: World, st: Step) => Enabled(spec, w, st) && (benign ==> BenignStep(spec, w, st))
  }

  ghost function Leads(spec: Spec): (World, Step) -> World {
    (w: World, st: Step) => if Enabled(spec, w, st) then Next(spec, w, st) else w
  }

  ghost predicate Runs(spec: Spec, w: World, steps: seq<Step>, benign: bool) {
    Chain(Allows(spec, benign), Leads(spec), w, steps, After(spec, w, steps))
  }

  ghost function After(spec: Spec, w: World, steps: seq<Step>): World { Final(Leads(spec), w, steps) }

  /** The main result: however often the manager crashes and comes back, one worker at most is alive. */
  lemma {:induction false} AtMostOneWorkerEver(spec: Spec, w: World, steps: seq<Step>)
    requires Safe(w) && Runs(spec, w, steps, true)
    ensures Safe(After(spec, w, steps)) && AtMostOneWorker(After(spec, w, steps).os)
    decreases |steps|
  {
    if steps != [] {
      SafeStep(spec, w, steps[0]);
      AtMostOneWorkerEver(spec, Next(spec, w, steps[0]), steps[1..]);
    }
  }

  /** Without any hypothesis, each life still holds on to the one process it spawned or adopted. */
  lemma {:induction false} OneHeldProcessEver(spec: Spec, w: World, steps: seq<Step>)
    requires Grounded(w) && Runs(spec, w, steps, false)
    ensures Grounded(After(spec, w, steps))
    decreases |steps|
  {
    if steps != [] {
      OneWorkerPerLife(spec, w, steps[0]);
      OneHeldProcessEver(spec, Next(spec, w, steps[0]), steps[1..]);
    }
  }

  /** No process with another image takes the pid of a dead adopted worker that is still held. */
  ghost predicate NoReuse(w: World, st: Step) {
    st.Appears? && st.kind == Foreign && w.life.Some? ==> w.life.value.process != Some(Borrowed(st.pid))
  }

  ghost function AllowsNoReuse(spec: Spec): (World, Step) -> bool {
    (w: World, st: Step) => Enabled(spec, w, st) && NoReuse(w, st)
  }

  ghost predicate Unentangled(w: World) { w.life.Some? ==> !HoldsStranger(w.os, w.life.value) }

  lemma StepUnentangled(spec: Spec, w: World, st: Step)
    requires Unentangled(w) && Enabled(spec, w, st) && NoReuse(w, st)
    ensures Unentangled(Next(spec, w, st))
    ensures st.Act? ==> Spares(w.os, Perform(spec, w.os, w.life.value, st.call).path)
    ensures st.CrashIn? ==> Spares(w.os, Perform(spec, w.os, w.life.value, st.call).path[..st.writes])
  {
    if st.Act? || st.CrashIn? {
      SparesExactly(spec, w.os, w.life.value, st.call);
    }
    if w.life.Some? && !Unentangled(Next(spec, w, st)) {
      StrangersNeedReuse(spec, w, st);
    }
  }

  /** Without such reuse no call of any life ends a process with another image, whatever else happens. */
  lemma {:induction false} StrangersSpared(spec: Spec, w: World, steps: seq<Step>, e: World, c: Call)
    requires Unentangled(w) && e.life.Some? && Possible(e.os, e.life.value, c)
    requires Chain(AllowsNoReuse(spec), Leads(spec), w, steps, e)
    ensures Spares(e.os, Perform(spec, e.os, e.life.value, c).path)
    decreases |steps|
  {
    if steps == [] {
      SparesExactly(spec, e.os, e.life.value, c);
    } else {
      StepUnentangled(spec, w, steps[0]);
      StrangersSpared(spec, Next(spec, w, steps[0]), steps[1..], e, c);
    }
  }

  /** A machine with no worker, whatever else runs there and whatever lease is left over. */
  lemma CleanMachineIsSafe(os: Os)
    requires NoWorker(os)
    ensures Safe(World(os, None, {}))
  {
  }

  // ----- the hypotheses are exactly what is needed -----

  /** Starting a fresh job over a live leased worker is safe if and only if its identity can be read. */
  lemma {:induction false} UnreadableIdentityIsTheGap(spec: Spec, w: World, e: StartEnv)
    requires Safe(w) && w.life.Some? && w.life.value.state == Queued && Possible(w.os, w.life.value, Launching(e))
    requires e.spawn.NoLease? ==> e.spawn.confirmed
    ensures Safe(Next(spec, w, Act(Launching(e)))) <==> e.adopt.readable || NoWorker(w.os)
  {
    OneWorkerPerLife(spec, w, Act(Launching(e)));
    if e.adopt.readable {
      SafeStep(spec, w, Act(Launching(e)));
    } else if NoWorker(w.os) {
      var a := Adopt(w.os, None, e.adopt);
      assert Shrinks(w.os, End(w.os, a.path));
      NoWorkerLeft(w.os, End(w.os, a.path));
      if a.verdict == Nothing {
        SpawnSafe(End(w.os, a.path), a.process, e.spawn);
        EndJoin(w.os, a.path, Spawn(End(w.os, a.path), a.process, e.spawn).path);
      }
    } else {
      var p :| IsWorker(w.os, p);
      assert Launch(w.os, None, e) == Launched(Raised, None, []);
      assert IsWorker(Next(spec, w, Act(Launching(e))).os, p);
    }
  }

  /** A start that gets as far as spawning has no lease left. */
  lemma NothingLeased(os: Os, process: Option<Handle>, e: AdoptEnv)
    requires Adopt(os, process, e).verdict == Nothing
    ensures End(os, Adopt(os, process, e).path).lease == None
  {
  }

  lemma Unleased(os: Os, p: int)
    requires IsWorker(os, p) && os.lease != Some(p)
    ensures !Leased(os)
  {
  }

  /**
   * When the lease of a new worker cannot be written, the start is safe if and only if the worker is
   * confirmed dead, or there was no need to spawn one.
   */
  lemma {:induction false} UnwrittenLeaseIsTheGap(spec: Spec, w: World, e: StartEnv)
    requires Safe(w) && w.life.Some? && w.life.value.state == Queued && Possible(w.os, w.life.value, Launching(e))
    requires e.adopt.readable && e.spawn.NoLease?
    ensures Safe(Next(spec, w, Act(Launching(e)))) <==>
            e.spawn.confirmed || Adopt(w.os, None, e.adopt).verdict != Nothing
  {
    OneWorkerPerLife(spec, w, Act(Launching(e)));
    var a := Adopt(w.os, None, e.adopt);
    AdoptSafe(w.os, None, e.adopt);
    if e.spawn.confirmed {
      SafeStep(spec, w, Act(Launching(e)));
    } else if a.verdict == Nothing {
      NothingLeased(w.os, None, e.adopt);
      var os1 := End(w.os, a.path);
      EndJoin(w.os, a.path, Spawn(os1, a.process, e.spawn).path);
      Unleased(Create(os1, e.spawn.pid), e.spawn.pid);
    }
  }

  /** Doing anything to a job before its start is safe if and only if no worker is alive. */
  lemma {:induction false} BeforeStartIsTheGap(spec: Spec, w: World, c: Call)
    requires Safe(w) && w.life.Some? && w.life.value.state == Queued && Possible(w.os, w.life.value, c)
    requires !c.Launching? && (c.Recovering? ==> CleanStart(c.start))
    ensures Safe(Next(spec, w, Act(c))) <==> NoWorker(w.os)
  {
    OneWorkerPerLife(spec, w, Act(c));
    var s, w' := w.life.value, Next(spec, w, Act(c));
    match c
    case Observing(r) => ObserveShape(spec, s, r);
    case Recovering(_, _, _, _) => RecoverBeforeStart(spec, w, c);
    case Cancelling(_, _) => LeaseDropped(w, w');
    case Completing(_, _) => LeaseDropped(w, w');
  }

  lemma LeaseDropped(w: World, w': World)
    requires Safe(w) && Grounded(w') && w'.os == w.os.(lease := None)
    requires w'.life.Some? && w'.life.value.process == None && w'.life.value.state != Queued
    ensures Safe(w') <==> NoWorker(w.os)
  {
    assert forall p :: IsWorker(w'.os, p) <==> IsWorker(w.os, p);
  }

  lemma RecoverBeforeStart(spec: Spec, w: World, c: Call)
    requires Safe(w) && w.life.Some? && w.life.value.state == Queued && Possible(w.os, w.life.value, c)
    requires c.Recovering? && CleanStart(c.start)
    ensures Safe(Next(spec, w, Act(c))) <==> NoWorker(w.os)
  {
    OneWorkerPerLife(spec, w, Act(c));
    var os1 := w.os.(lease := None);
    var l := Launch(os1, None, c.start);
    RecoverShape(spec, w.os, w.life.value, c);
    RecoverCases(spec, w.os, w.life.value, c.reading, c.confirmed, c.actAt, c.start);
    assert Terminate(w.os, None, c.confirmed).path == [Write(LeaseCleared, os1)];
    EndJoin(w.os, [Write(LeaseCleared, os1)], l.path);
    if NoWorker(w.os) {
      NoWorkerLeft(w.os, os1);
      SpawnSafe(os1, None, c.start.spawn);
    } else {
      SpawnsBeside(w.os, c.start);
    }
  }

  /** Without its lease a live worker is not seen by a start. */
  lemma SpawnsBeside(os: Os, e: StartEnv)
    requires !NoWorker(os) && (SpawnPid(e.spawn).Some? ==> SpawnPid(e.spawn).value !in os.live)
    ensures var os1 := os.(lease := None);
            !Leased(os1) && !Leased(End(os1, Launch(os1, None, e).path))
  {
    var os1 := os.(lease := None);
    var p :| IsWorker(os, p);
    var os2 := End(os1, Launch(os1, None, e).path);
    assert IsWorker(os1, p) && IsWorker(os2, p);
    Unleased(os1, p);
    assert os2.lease in {None, SpawnPid(e.spawn)};
    Unleased(os2, p);
  }

  /** A write that creates a process leaves it without a lease. */
  lemma CreatedUnleased(os: Os, process: Option<Handle>, e: StartEnv)
    ensures var path := Launch(os, process, e).path;
            forall i | 0 <= i < |path| && path[i].what == ProcessCreated :: !Leased(path[i].os)
  {
    var a := Adopt(os, process, e.adopt);
    if a.verdict == Nothing {
      NothingLeased(os, process, e.adopt);
      if SpawnPid(e.spawn).Some? {
        Unleased(Create(End(os, a.path), SpawnPid(e.spawn).value), SpawnPid(e.spawn).value);
      }
    }
  }

  /** A crash inside a call of a started job loses the worker if and only if it falls right after the creation of a process. */
  lemma {:induction false} TornSpawnIsTheGap(spec: Spec, w: World, c: Call, k: nat)
    requires Safe(w) && Enabled(spec, w, CrashIn(c, k)) && Benign(w.life.value, c)
    ensures Safe(Next(spec, w, CrashIn(c, k))) <==>
            (k > 0 ==> Perform(spec, w.os, w.life.value, c).path[k - 1].what != ProcessCreated)
  {
    var s := w.life.value;
    var path := Perform(spec, w.os, s, c).path;
    if k > 0 && path[k - 1].what == ProcessCreated {
      assert path[..k][k - 1] == path[k - 1];
      if c.Recovering? {
        RecoverShape(spec, w.os, s, c);
        TerminateFacts(w.os, s.process, c.confirmed);
        CreatedUnleased(End(w.os, Terminate(w.os, s.process, c.confirmed).path), s.process, c.start);
      } else {
        assert c.Launching?;
        CreatedUnleased(w.os, s.process, c.start);
      }
    } else {
      SafeStep(spec, w, CrashIn(c, k));
    }
  }

  // ----- runs that break each of them -----

  const PLAIN: Spec := Spec(3, 1.0, 0.0)
  const READ: AdoptEnv := AdoptEnv(true, true, true, true)
  const UNREAD: AdoptEnv := AdoptEnv(false, true, true, true)
  const GONE: Reading := Reading(Signals(false, true, true), 0.0, 0.0)

  /** A manager over the live leased worker 7, and one on an empty machine. */
  const LEFT_OVER: World := World(Os(map[7 := Worker], Some(7)), Some(Fresh(1, 0)), {})
  const EMPTY: World := World(Os(map[], None), Some(Fresh(1, 0)), {})

  function Fresh8(adopt: AdoptEnv): StartEnv { StartEnv(adopt, WithLease(8), 0.0, 0.0) }

  /** The run ends with the workers 7 and 8 alive. */
  ghost predicate Duplicates(w: World, steps: seq<Step>) {
    && Safe(w) && Runs(PLAIN, w, steps, false)
    && IsWorker(After(PLAIN, w, steps).os, 7) && IsWorker(After(PLAIN, w, steps).os, 8)
    && !AtMostOneWorker(After(PLAIN, w, steps).os)
  }

  lemma RunStep(w: World, st: Step, rest: seq<Step>, benign: bool)
    requires Enabled(PLAIN, w, st) && (benign ==> BenignStep(PLAIN, w, st))
    requires Runs(PLAIN, Next(PLAIN, w, st), rest, benign)
    ensures Runs(PLAIN, w, [st] + rest, benign)
    ensures After(PLAIN, w, [st] + rest) == After(PLAIN, Next(PLAIN, w, st), rest)
  {
    assert ([st] + rest)[1..] == rest;
  }

  /** After the manager has died over an unleased worker 7, the next life starts worker 8. */
  lemma NextLifeSpawns(w: World)
    requires w.life == None && w.os.live == map[7 := Worker] && w.os.lease == None
    ensures var steps := [Boot(1, 0), Act(Launching(Fresh8(READ)))];
            && Runs(PLAIN, w, steps, false)
            && After(PLAIN, w, steps).os == Os(map[7 := Worker, 8 := Worker], Some(8))
  {
    var w1 := Next(PLAIN, w, Boot(1, 0));
    var c := Act(Launching(Fresh8(READ)));
    assert Next(PLAIN, w1, c).os == Os(map[7 := Worker, 8 := Worker], Some(8));
    RunStep(w1, c, [], false);
    assert [c] + [] == [c];
    RunStep(w, Boot(1, 0), [c], false);
    assert [Boot(1, 0)] + [c] == [Boot(1, 0), c];
  }

  lemma TwoWorkers(os: Os)
    requires os == Os(map[7 := Worker, 8 := Worker], Some(8))
    ensures IsWorker(os, 7) && IsWorker(os, 8) && !AtMostOneWorker(os)
  {
    assert !(IsWorker(os, 7) && IsWorker(os, 8) ==> 7 == 8);
  }

  /** The unreadable identity costs a second worker: the next recovery removes the lease and spawns. */
  lemma UnreadableIdentityDuplicates()
    ensures Duplicates(LEFT_OVER, [Act(Launching(Fresh8(UNREAD)))] + [Act(Recovering(GONE, true, 0.0, Fresh8(READ)))])
  {
    var a, b := Act(Launching(Fresh8(UNREAD))), Act(Recovering(GONE, true, 0.0, Fresh8(READ)));
    var w1 := Next(PLAIN, LEFT_OVER, a);
    RefusedStart();
    RecoveryWithoutHandle(w1);
    RunStep(w1, b, [], false);
    assert [b] + [] == [b];
    RunStep(LEFT_OVER, a, [b], false);
    TwoWorkers(Next(PLAIN, w1, b).os);
  }

  lemma RefusedStart()
    ensures var d := Perform(PLAIN, LEFT_OVER.os, Fresh(1, 0), Launching(Fresh8(UNREAD)));
            d.path == [] && d.sup.state == Failed && d.sup.process == None && d.sup.restarts == 0
  {
  }

  lemma RecoveryWithoutHandle(w: World)
    requires w.os == LEFT_OVER.os && w.life.Some?
    requires w.life.value.state == Failed && w.life.value.process == None && w.life.value.restarts == 0
    ensures var b := Act(Recovering(GONE, true, 0.0, Fresh8(READ)));
            Enabled(PLAIN, w, b) && Next(PLAIN, w, b).os == Os(map[7 := Worker, 8 := Worker], Some(8))
  {
    var os1 := Os(map[7 := Worker], None);
    var stop := Terminate(w.os, None, true);
    assert End(w.os, stop.path) == os1;
    var l := Launch(os1, None, Fresh8(READ));
    assert End(os1, l.path) == Os(map[7 := Worker, 8 := Worker], Some(8));
    RecoverCases(PLAIN, w.os, w.life.value, GONE, true, 0.0, Fresh8(READ));
    EndJoin(w.os, stop.path, l.path);
  }

  /** So does stopping the manager before it has started its jobs. */
  lemma CancelBeforeStartDuplicates()
    ensures Duplicates(LEFT_OVER, [CrashIn(Cancelling(true, 0.0), 1)] + [Boot(1, 0), Act(Launching(Fresh8(READ)))])
  {
    var w1 := World(Os(map[7 := Worker], None), None, {});
    assert Next(PLAIN, LEFT_OVER, CrashIn(Cancelling(true, 0.0), 1)) == w1;
    NextLifeSpawns(w1);
    RunStep(LEFT_OVER, CrashIn(Cancelling(true, 0.0), 1), [Boot(1, 0), Act(Launching(Fresh8(READ)))], false);
    TwoWorkers(After(PLAIN, w1, [Boot(1, 0), Act(Launching(Fresh8(READ)))]).os);
  }

  /** So does a crash between the creation of a process and its lease. */
  lemma TornSpawnDuplicates()
    ensures Duplicates(EMPTY, [CrashIn(Launching(StartEnv(READ, WithLease(7), 0.0, 0.0)), 1)]
                              + [Boot(1, 0), Act(Launching(Fresh8(READ)))])
  {
    var c := CrashIn(Launching(StartEnv(READ, WithLease(7), 0.0, 0.0)), 1);
    var w1 := World(Os(map[7 := Worker], None), None, {});
    assert Next(PLAIN, EMPTY, c) == w1;
    NextLifeSpawns(w1);
    RunStep(EMPTY, c, [Boot(1, 0), Act(Launching(Fresh8(READ)))], false);
    TwoWorkers(After(PLAIN, w1, [Boot(1, 0), Act(Launching(Fresh8(READ)))]).os);
  }

  /** So does a worker whose lease cannot be written and whose end is not confirmed, once the manager dies. */
  lemma UnwrittenLeaseDuplicates()
    ensures Duplicates(EMPTY, [Act(Launching(StartEnv(READ, NoLease(7, false), 0.0, 0.0)))]
                              + ([CrashIn(Cancelling(false, 0.0), 0)] + [Boot(1, 0), Act(Launching(Fresh8(READ)))]))
  {
    var a, c := Act(Launching(StartEnv(READ, NoLease(7, false), 0.0, 0.0))), CrashIn(Cancelling(false, 0.0), 0);
    var w1 := Next(PLAIN, EMPTY, a);
    assert w1.os == Os(map[7 := Worker], None) && w1.life.Some?;
    var w2 := World(w1.os, None, {});
    assert Next(PLAIN, w1, c) == w2;
    NextLifeSpawns(w2);
    var rest := [Boot(1, 0), Act(Launching(Fresh8(READ)))];
    RunStep(w1, c, rest, false);
    RunStep(EMPTY, a, [c] + rest, false);
    TwoWorkers(After(PLAIN, w2, rest).os);
  }

  const STALE: Reading := Reading(Signals(true, false, true), 1.0, 1.0)
  const NO_SPAWN: StartEnv := StartEnv(READ, NoProcess, 0.0, 0.0)

  /**
   * An adopted worker dies, its pid goes to a process with another image, and the recovery from the
   * stale heartbeat ends that process. Every step meets the conditions of AtMostOneWorkerEver.
   */
  lemma AdoptedPidReused()
    ensures var steps := [Act(Launching(NO_SPAWN))] + ([Dies(7)] + [Appears(7, Foreign)]);
            var last := Act(Recovering(STALE, true, 1.0, NO_SPAWN));
            var w := After(PLAIN, LEFT_OVER, steps);
            && Safe(LEFT_OVER) && Runs(PLAIN, LEFT_OVER, steps, true)
            && w.os.live == map[7 := Foreign] && w.life.Some? && HoldsStranger(w.os, w.life.value)
            && Enabled(PLAIN, w, last) && BenignStep(PLAIN, w, last) && 7 !in Next(PLAIN, w, last).os.live
  {
    var w1 := Next(PLAIN, LEFT_OVER, Act(Launching(NO_SPAWN)));
    AdoptsSeven();
    PidReused(w1);
    RunStep(LEFT_OVER, Act(Launching(NO_SPAWN)), [Dies(7)] + [Appears(7, Foreign)], true);
    StrangerEnded(After(PLAIN, w1, [Dies(7)] + [Appears(7, Foreign)]));
  }

  lemma PidReused(w: World)
    requires w.os == LEFT_OVER.os
    ensures var steps := [Dies(7)] + [Appears(7, Foreign)];
            && Runs(PLAIN, w, steps, true)
            && After(PLAIN, w, steps).os == Os(map[7 := Foreign], Some(7)) && After(PLAIN, w, steps).life == w.life
  {
    var w1 := Next(PLAIN, w, Dies(7));
    assert w1.os == Os(map[], Some(7));
    RunStep(w1, Appears(7, Foreign), [], true);
    assert [Appears(7, Foreign)] + [] == [Appears(7, Foreign)];
    RunStep(w, Dies(7), [Appears(7, Foreign)], true);
  }

  lemma AdoptsSeven()
    ensures var w1 := Next(PLAIN, LEFT_OVER, Act(Launching(NO_SPAWN)));
            && w1.os == LEFT_OVER.os && w1.life.Some? && w1.life.value.state == Verifying
            && w1.life.value.process == Some(Borrowed(7)) && w1.life.value.started == Some(0.0)
            && w1.life.value.restarts == 0
  {
  }

  lemma StrangerEnded(w: World)
    requires w.os == Os(map[7 := Foreign], Some(7)) && w.life.Some?
    requires w.life.value.state == Verifying && w.life.value.process == Some(Borrowed(7))
    requires w.life.value.started == Some(0.0) && w.life.value.restarts == 0
    ensures var last := Act(Recovering(STALE, true, 1.0, NO_SPAWN));
            Enabled(PLAIN, w, last) && BenignStep(PLAIN, w, last) && 7 !in Next(PLAIN, w, last).os.live
  {
    var s := w.life.value;
    RecoverCases(PLAIN, w.os, s, STALE, true, 1.0, NO_SPAWN);
    var stop := Terminate(w.os, s.process, true);
    var l := Launch(End(w.os, stop.path), s.process, NO_SPAWN);
    assert End(w.os, stop.path) == Os(map[], None);
    assert l.path == [];
    EndJoin(w.os, stop.path, l.path);
  }
}
