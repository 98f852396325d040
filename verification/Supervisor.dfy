// The worker supervisor of manager/supervisor.py as a state machine on values.
// What the operating system reports (health signals, liveness, whether a
// termination was confirmed, how a start ended, clock readings) is an input.
module Supervisor {
  import opened Basics

  datatype JobState =
    | Queued | Starting | Running | Verifying | Complete
    | Stalled | Failed | Retrying | Escalated | Cancelled

  datatype EventKind = StateChange | HealthCheck | BudgetReset | WorkerStarted | WorkerAdopted

  datatype Event = Event(kind: EventKind, previous: JobState, next: JobState, at: real)

  /** The part of the worker configuration the decisions depend on. */
  datatype Spec = Spec(maxRestarts: nat, resetAfter: real, grace: real) {
    predicate Valid() { resetAfter > 0.0 && grace >= 0.0 }
  }

  /**
   * A process handle. One's own speaks of the very process that was spawned, also after its pid has
   * been given away; a borrowed one, taken over from an earlier life, knows the bare pid only.
   */
  datatype Handle = Own(pid: int) | Borrowed(pid: int)

  datatype Sup = Sup(
    state: JobState,
    process: Option<Handle>,
    attempt: nat,
    restarts: nat,
    budgetFresh: bool,         // no retries to forget since the last start
    started: Option<real>,     // monotonic time of the last successful start
    events: seq<Event>)

  datatype Signals = Signals(alive: bool, heartbeat: bool, resource: bool) {
    predicate Healthy() { alive && heartbeat && resource }
  }

  /** One health reading and the two clock readings `observe` makes. */
  datatype Reading = Reading(signals: Signals, now: real, graceNow: real)

  datatype How = Spawned | Adopted | Raised

  /** How `start` ended: what it left in `process`, and when each step was taken. */
  datatype Fate = Fate(how: How, process: Option<Handle>, beginAt: real, endAt: real)

  datatype Recovery = Recovery(reading: Reading, confirmed: bool, actAt: real, fate: Fate)

  function Fresh(attempt: nat, restarts: nat): Sup {
    Sup(Queued, None, attempt, restarts, restarts == 0, None, [])
  }

  function Emit(s: Sup, kind: EventKind, next: JobState, at: real): Sup {
    s.(state := next, events := s.events + [Event(kind, s.state, next, at)])
  }

  /** States in which `observe` only takes the reading. */
  predicate Settled(state: JobState) { state in {Complete, Cancelled, Escalated} }

  predicate ResetDue(spec: Spec, s: Sup, healthy: bool, now: real) {
    && !s.budgetFresh && s.restarts > 0 && s.started.Some? && healthy
    && RealMax(0.0, now - s.started.value) >= spec.resetAfter
  }

  function MaybeReset(spec: Spec, s: Sup, healthy: bool, now: real): Sup {
    if ResetDue(spec, s, healthy, now)
    then Emit(s.(restarts := 0, budgetFresh := true), BudgetReset, s.state, now)
    else s
  }

  predicate InGrace(spec: Spec, s: Sup, now: real) {
    s.started.Some? && now - s.started.value < spec.grace
  }

  function Judge(spec: Spec, s: Sup, sig: Signals, now: real): JobState {
    if sig.Healthy() then Running
    else if sig.alive && InGrace(spec, s, now) then Verifying
    else if !sig.alive then Failed
    else Stalled
  }

  function Observe(spec: Spec, s: Sup, r: Reading): Sup {
    var s1 := MaybeReset(spec, s, r.signals.Healthy(), r.now);
    if Settled(s1.state) then s1
    else
      var next := Judge(spec, s1, r.signals, r.graceNow);
      Emit(s1, if next != s1.state then StateChange else HealthCheck, next, r.graceNow)
  }

  predicate Startable(state: JobState) { state in {Queued, Retrying} }

  /** `start`; called from any other state it raises before changing anything. */
  function Start(s: Sup, f: Fate): Sup {
    if !Startable(s.state) then s
    else
      var s1 := Emit(s, StateChange, Starting, f.beginAt).(process := f.process);
      match f.how
      case Raised => Emit(s1, StateChange, Failed, f.endAt)
      case Spawned => Begin(s1, WorkerStarted, f.endAt)
      case Adopted => Begin(s1, WorkerAdopted, f.endAt)
  }

  function Begin(s: Sup, kind: EventKind, at: real): Sup {
    Emit(s.(attempt := s.attempt + 1, budgetFresh := s.restarts == 0, started := Some(at)), kind, Verifying, at)
  }

  /** What `recover` does once the reading has been taken. */
  datatype Course = Leave | GiveUp | Unconfirmed | Restart

  function CourseOf(spec: Spec, s: Sup, healthy: bool, confirmed: bool): Course {
    if healthy || s.state !in {Failed, Stalled} then Leave
    else if s.restarts >= spec.maxRestarts then GiveUp
    else if !confirmed then Unconfirmed
    else Restart
  }

  function Retry(s: Sup, at: real): Sup {
    Emit(s.(restarts := s.restarts + 1), StateChange, Retrying, at)
  }

  function Recover(spec: Spec, s: Sup, r: Recovery): Sup {
    var s1 := Observe(spec, s, r.reading);
    match CourseOf(spec, s1, r.reading.signals.Healthy(), r.confirmed)
    case Leave => s1
    case GiveUp => Emit(s1, StateChange, Escalated, r.actAt)
    case Unconfirmed => Emit(s1, StateChange, Escalated, r.actAt)
    case Restart => Start(Retry(s1, r.actAt), r.fate)
  }

  function Cancel(s: Sup, at: real): Sup {
    if s.state in {Complete, Cancelled} then s else Emit(s, StateChange, Cancelled, at)
  }

  function MarkComplete(s: Sup, at: real): Sup { Emit(s, StateChange, Complete, at) }

  /** MachineManager.tick_job: observe, then recover an unhealthy worker outside its startup grace. */
  datatype Tick = Tick(first: Reading, autoRecover: bool, graceNow: real, recovery: Recovery)

  predicate Recovers(spec: Spec, s: Sup, t: Tick) {
    var s1 := Observe(spec, s, t.first);
    && t.autoRecover && !t.first.signals.Healthy()
    && !InGrace(spec, s1, t.graceNow) && s1.state in {Failed, Stalled}
  }

  function TickJob(spec: Spec, s: Sup, t: Tick): Sup {
    var s1 := Observe(spec, s, t.first);
    if Recovers(spec, s, t) then Recover(spec, s1, t.recovery) else s1
  }

  // ----- runs of one manager life -----

  datatype Op =
    | OpObserve(reading: Reading)
    | OpRecover(recovery: Recovery)
    | OpStart(fate: Fate)
    | OpCancel(at: real)
    | OpComplete(at: real)
    | OpTick(tick: Tick)

  function Apply(spec: Spec, s: Sup, op: Op): Sup {
    match op
    case OpObserve(r) => Observe(spec, s, r)
    case OpRecover(r) => Recover(spec, s, r)
    case OpStart(f) => Start(s, f)
    case OpCancel(at) => Cancel(s, at)
    case OpComplete(at) => MarkComplete(s, at)
    case OpTick(t) => TickJob(spec, s, t)
  }

  function Run(spec: Spec, s: Sup, ops: seq<Op>): Sup
    decreases |ops|
  {
    if ops == [] then s else Apply(spec, Run(spec, s, ops[..|ops| - 1]), ops[|ops| - 1])
  }

  /** Clock readings of one call, in the order the call takes them. */
  function Times(op: Op): seq<real> {
    match op
    case OpObserve(r) => [r.now, r.graceNow]
    case OpRecover(r) => RecoveryTimes(r)
    case OpStart(f) => [f.beginAt, f.endAt]
    case OpCancel(at) => [at]
    case OpComplete(at) => [at]
    case OpTick(t) => [t.first.now, t.first.graceNow, t.graceNow] + RecoveryTimes(t.recovery)
  }

  function RecoveryTimes(r: Recovery): seq<real> {
    [r.reading.now, r.reading.graceNow, r.actAt, r.fate.beginAt, r.fate.endAt]
  }
}
