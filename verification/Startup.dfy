// Start-up of the manager (manager/run.py) over many lives: host-boot reset, one-time
// operator resume, rebuilding the supervisors from their persisted counters. The
// manager may die between any two of these actions.
module Startup {
  import opened Basics
  import opened Chains
  import S = Supervisor

  datatype JobRow = JobRow(state: S.JobState, attempt: nat, restarts: nat)

  /** What the operator wrote into the configuration; the job defaults to the primary one. */
  datatype Request = Request(id: string, job: Option<string>)

  datatype Config = Config(jobs: seq<string>, request: Option<Request>, bootMarker: string, resumeFlag: bool) {
    predicate Valid() { jobs != [] && forall i, j | 0 <= i < j < |jobs| :: jobs[i] != jobs[j] }
    function Primary(): string requires Valid() { jobs[0] }
  }

  /** Durable: job rows, consumed resume ids and the last boot identity. */
  datatype Store = Store(jobs: map<string, JobRow>, consumed: set<string>, marker: Option<string>)

  predicate Alnum(c: char) { 'a' <= c <= 'z' || 'A' <= c <= 'Z' || '0' <= c <= '9' }

  predicate WellFormed(id: string) {
    1 <= |id| <= 100 && Alnum(id[0]) && forall i | 1 <= i < |id| :: Alnum(id[i]) || id[i] in "_.:-"
  }

  /** update_host_boot_marker: report a change of the recorded boot identity. */
  function BootChanged(st: Store, cfg: Config): bool {
    cfg.bootMarker != "" && st.marker.Some? && st.marker.value != cfg.bootMarker
  }

  function BootMarked(st: Store, cfg: Config): Store {
    if cfg.bootMarker == "" then st else st.(marker := Some(cfg.bootMarker))
  }

  /** _pending_operator_resume. */
  function PendingResume(st: Store, cfg: Config): (id: Option<string>)
    requires cfg.Valid()
    ensures id.Some? <==>
            && cfg.request.Some? && WellFormed(cfg.request.value.id) && cfg.request.value.id !in st.consumed
            && cfg.request.value.job in {None, Some(cfg.jobs[0])}
            && cfg.jobs[0] in st.jobs && st.jobs[cfg.jobs[0]].state == S.Escalated
    ensures id.Some? ==> id.value == cfg.request.value.id
  {
    var primary := cfg.Primary();
    if cfg.request.None? || primary !in st.jobs || st.jobs[primary].state != S.Escalated then None
    else
      var r := cfg.request.value;
      var requested := if r.job.Some? then r.job.value else primary;
      if !WellFormed(r.id) || requested != primary then None
      else if r.id in st.consumed then None
      else Some(r.id)
  }

  function AttemptOf(jobs: map<string, JobRow>, job: string): nat { if job in jobs then jobs[job].attempt else 0 }

  function RestartsOf(jobs: map<string, JobRow>, job: string): nat { if job in jobs then jobs[job].restarts else 0 }

  /** manager_from_config: every configured job gets a supervisor that begins QUEUED with its counters. */
  function Rebuilt(jobs: map<string, JobRow>, ids: seq<string>, resetAll: bool, resetFor: set<string>): map<string, S.Sup> {
    map id | id in ids :: S.Fresh(AttemptOf(jobs, id), if resetAll || id in resetFor then 0 else RestartsOf(jobs, id))
  }

  // ----- the machine over lives -----

  datatype Phase =
    | Down
    | Booted(cfg: Config, resetAll: bool)
    | LookedUp(cfg: Config, resetAll: bool, resume: Option<string>)
    | Built(cfg: Config, resetAll: bool, resume: Option<string>, sups: map<string, S.Sup>)
    | Marked(cfg: Config, resetAll: bool, resume: Option<string>, sups: map<string, S.Sup>)
    | Running(cfg: Config)

  /**
   * One call of start_all: what it was given, the rows the counters came from, and the boot identities
   * that had been seen by then.
   */
  datatype Launch = Launch(
    cfg: Config, resetAll: bool, resume: Option<string>, sups: map<string, S.Sup>, rows: map<string, JobRow>, boots: seq<string>)

  /** `log` and `boots`, the boot identities the lives have seen, exist for the statements only. */
  datatype State = State(store: Store, phase: Phase, log: seq<Launch>, boots: seq<string>)

  datatype Step =
    | Boot(cfg: Config)
    | LookUp
    | Build
    | Mark
    | StartAll
    | Persist(rows: map<string, JobRow>)   // _persist_runtime writes what the supervisors have become
    | Abandon                              // an error before start_all, after everything was built
    | Crash

  predicate Allowed(q: State, st: Step) {
    match st
    case Boot(cfg) => q.phase.Down? && cfg.Valid()
    case LookUp => q.phase.Booted? && q.phase.cfg.Valid()
    case Build => q.phase.LookedUp? && q.phase.cfg.Valid()
    case Mark => q.phase.Built?
    case StartAll => q.phase.Marked?
    case Persist(_) => q.phase.Running?
    case Abandon => q.phase.Marked?
    case Crash => true
  }

  function RowsOf(sups: map<string, S.Sup>): map<string, JobRow> {
    map id | id in sups :: JobRow(sups[id].state, sups[id].attempt, sups[id].restarts)
  }

  function Next(q: State, st: Step): State
    requires Allowed(q, st)
  {
    match st
    case Boot(cfg) =>
      q.(store := BootMarked(q.store, cfg), phase := Booted(cfg, BootChanged(q.store, cfg) || cfg.resumeFlag),
         boots := if cfg.bootMarker == "" then q.boots else q.boots + [cfg.bootMarker])
    case LookUp => q.(phase := LookedUp(q.phase.cfg, q.phase.resetAll, PendingResume(q.store, q.phase.cfg)))
    case Build =>
      var p := q.phase;
      var resetFor := if p.resume.Some? then {p.cfg.Primary()} else {};
      q.(phase := Built(p.cfg, p.resetAll, p.resume, Rebuilt(q.store.jobs, p.cfg.jobs, p.resetAll, resetFor)))
    case Mark =>
      var p := q.phase;
      q.(phase := Marked(p.cfg, p.resetAll, p.resume, p.sups),
         store := if p.resume.Some? then q.store.(consumed := q.store.consumed + {p.resume.value}) else q.store)
    case StartAll =>
      var p := q.phase;
      q.(phase := Running(p.cfg), log := q.log + [Launch(p.cfg, p.resetAll, p.resume, p.sups, q.store.jobs, q.boots)])
    case Persist(rows) => q.(store := q.store.(jobs := q.store.jobs + rows))
    case Abandon => q.(phase := Down, store := q.store.(jobs := q.store.jobs + RowsOf(q.phase.sups)))
    case Crash => q.(phase := Down)
  }

  ghost function Allows(): (State, Step) -> bool { (q: State, st: Step) => Allowed(q, st) }

  ghost function Leads(): (State, Step) -> State { (q: State, st: Step) => if Allowed(q, st) then Next(q, st) else q }

  ghost predicate Runs(q: State, steps: seq<Step>, q': State) { Chain(Allows(), Leads(), q, steps, q') }

  // ----- a resume id is used at most once -----

  function PhaseResume(p: Phase): Option<string> {
    if p.LookedUp? || p.Built? || p.Marked? then p.resume else None
  }

  predicate Used(log: seq<Launch>, id: string) { exists i | 0 <= i < |log| :: log[i].resume == Some(id) }

  function Uses(log: seq<Launch>, id: string): nat {
    if log == [] then 0 else Uses(log[..|log| - 1], id) + if log[|log| - 1].resume == Some(id) then 1 else 0
  }

  lemma {:induction false} UnusedHasNoUses(log: seq<Launch>, id: string)
    ensures !Used(log, id) ==> Uses(log, id) == 0
    decreases |log|
  {
    if log != [] && !Used(log, id) {
      assert forall i | 0 <= i < |log| - 1 :: log[..|log| - 1][i] == log[i];
      UnusedHasNoUses(log[..|log| - 1], id);
    }
  }

  ghost predicate Once(q: State) {
    && (forall id | id !in q.store.consumed :: !Used(q.log, id))
    && (forall id :: Uses(q.log, id) <= 1)
    && (PhaseResume(q.phase).Some? ==>
          var id := PhaseResume(q.phase).value;
          !Used(q.log, id) && (id in q.store.consumed <==> q.phase.Marked?))
  }

  lemma UsedNext(log: seq<Launch>, l: Launch, id: string)
    ensures Used(log + [l], id) <==> Used(log, id) || l.resume == Some(id)
    ensures Uses(log + [l], id) == Uses(log, id) + if l.resume == Some(id) then 1 else 0
  {
    var all := log + [l];
    assert all[..|log|] == log && all[|log|] == l;
    if Used(log, id) {
      var i :| 0 <= i < |log| && log[i].resume == Some(id);
      assert all[i] == log[i];
    }
  }

  lemma StepOnce(q: State, st: Step)
    requires Once(q) && Allowed(q, st)
    ensures Once(Next(q, st))
  {
    if st.StartAll? {
      StartAllOnce(q);
    }
  }

  lemma StartAllOnce(q: State)
    requires Once(q) && q.phase.Marked?
    ensures Once(Next(q, StartAll))
  {
    var p := q.phase;
    var l := Launch(p.cfg, p.resetAll, p.resume, p.sups, q.store.jobs, q.boots);
    forall id ensures Uses(q.log + [l], id) <= 1 && (id !in q.store.consumed ==> !Used(q.log + [l], id)) {
      UsedNext(q.log, l, id);
      UnusedHasNoUses(q.log, id);
    }
  }

  /** Over all lives and crashes, a resume id reaches start_all at most once. */
  lemma {:induction false} ResumedAtMostOnce(q: State, steps: seq<Step>, q': State)
    requires Once(q) && Runs(q, steps, q')
    ensures Once(q') && forall id :: Uses(q'.log, id) <= 1
    decreases |steps|
  {
    if steps != [] {
      StepOnce(q, steps[0]);
      ResumedAtMostOnce(Next(q, steps[0]), steps[1..], q');
    }
  }

  /** The life that has just consumed the id and not yet started its jobs. */
  predicate Holds(q: State, id: string) { PhaseResume(q.phase) == Some(id) }

  /**
   * Once the id is consumed and its life has moved on or died, it never resumes anything again, even
   * if the crash came before start_all.
   */
  lemma {:induction false} ConsumedStaysConsumed(q: State, steps: seq<Step>, q': State, id: string)
    requires Runs(q, steps, q') && id in q.store.consumed && !Holds(q, id)
    ensures id in q'.store.consumed && !Holds(q', id) && Uses(q'.log, id) == Uses(q.log, id)
    decreases |steps|
  {
    if steps != [] {
      var q1 := Next(q, steps[0]);
      if steps[0].StartAll? {
        var p := q.phase;
        UsedNext(q.log, Launch(p.cfg, p.resetAll, p.resume, p.sups, q.store.jobs, q.boots), id);
      }
      ConsumedStaysConsumed(q1, steps[1..], q', id);
    }
  }

  /** From the consumption on, the id is used exactly when the very next step is start_all. */
  lemma LostExactlyByDying(q: State, st: Step, steps: seq<Step>, q': State, id: string)
    requires Once(q) && q.phase.Marked? && q.phase.resume == Some(id)
    requires Allowed(q, st) && Runs(Next(q, st), steps, q')
    ensures Used(q'.log, id) <==> st.StartAll?
  {
    StepOnce(q, st);
    ConsumedStaysConsumed(Next(q, st), steps, q', id);
    ResumedAtMostOnce(Next(q, st), steps, q');
    UnusedHasNoUses(q.log, id);
    var p := q.phase;
    UsedNext(q.log, Launch(p.cfg, p.resetAll, p.resume, p.sups, q.store.jobs, q.boots), id);
    UsedHasUses(q'.log, id);
  }

  lemma {:induction false} UsedHasUses(log: seq<Launch>, id: string)
    ensures Used(log, id) <==> Uses(log, id) > 0
    decreases |log|
  {
    if log != [] {
      UsedHasUses(log[..|log| - 1], id);
      UsedNext(log[..|log| - 1], log[|log| - 1], id);
      assert log == log[..|log| - 1] + [log[|log| - 1]];
    }
  }

  // ----- what a start is given -----

  /**
   * Every job begins QUEUED with its persisted attempt count. Its retry budget is the persisted one,
   * unless the whole manager was reset or it is the escalated primary job named by the resume.
   */
  ghost predicate Fair(l: Launch) {
    && l.cfg.Valid() && (forall id :: id in l.sups <==> id in l.cfg.jobs)
    && (l.resume.Some? ==>
          && l.cfg.request.Some? && l.resume.value == l.cfg.request.value.id && WellFormed(l.resume.value)
          && l.cfg.request.value.job in {None, Some(l.cfg.jobs[0])}
          && l.cfg.jobs[0] in l.rows && l.rows[l.cfg.jobs[0]].state == S.Escalated)
    && (forall id | id in l.sups ::
          && l.sups[id].state == S.Queued && l.sups[id].process == None && l.sups[id].events == []
          && l.sups[id].attempt == (if id in l.rows then l.rows[id].attempt else 0)
          && l.sups[id].restarts ==
             if l.resetAll || (l.resume.Some? && id == l.cfg.jobs[0]) || id !in l.rows then 0 else l.rows[id].restarts)
  }

  ghost predicate FairSoFar(q: State) {
    && (forall i | 0 <= i < |q.log| :: Fair(q.log[i]))
    && (q.phase.Booted? ==> q.phase.cfg.Valid())
    && (q.phase.LookedUp? ==> q.phase.cfg.Valid() && q.phase.resume == PendingResume(q.store, q.phase.cfg))
    && (q.phase.Built? || q.phase.Marked? ==>
          Fair(Launch(q.phase.cfg, q.phase.resetAll, q.phase.resume, q.phase.sups, q.store.jobs, q.boots)))
  }

  lemma BuildFair(q: State)
    requires q.phase.LookedUp? && q.phase.cfg.Valid() && q.phase.resume == PendingResume(q.store, q.phase.cfg)
    ensures var p := Next(q, Build).phase;
            Fair(Launch(p.cfg, p.resetAll, p.resume, p.sups, q.store.jobs, q.boots))
  {
  }

  lemma StepFair(q: State, st: Step)
    requires FairSoFar(q) && Allowed(q, st)
    ensures FairSoFar(Next(q, st))
  {
    match st
    case Build => BuildFair(q);
    case _ =>
  }

  lemma {:induction false} FairAlways(q: State, steps: seq<Step>, q': State)
    requires FairSoFar(q) && Runs(q, steps, q')
    ensures FairSoFar(q')
    decreases |steps|
  {
    if steps != [] {
      StepFair(q, steps[0]);
      FairAlways(Next(q, steps[0]), steps[1..], q');
    }
  }

  /** An error after the jobs were built and before start_all leaves them queued, with the counters they were built with. */
  lemma {:induction false} AbandonedStart(q: State)
    requires FairSoFar(q) && q.phase.Marked?
    ensures var rows, jobs, p := Next(q, Abandon).store.jobs, q.store.jobs, q.phase;
            && (forall id | id !in p.cfg.jobs && id in jobs :: id in rows && rows[id] == jobs[id])
            && (forall id | id in p.cfg.jobs ::
                  id in rows && rows[id] ==
                  JobRow(S.Queued, if id in jobs then jobs[id].attempt else 0,
                         if p.resetAll || (p.resume.Some? && id == p.cfg.jobs[0]) || id !in jobs then 0 else jobs[id].restarts))
  {
    var l := Launch(q.phase.cfg, q.phase.resetAll, q.phase.resume, q.phase.sups, q.store.jobs, q.boots);
    assert Fair(l);
    assert forall id :: id in RowsOf(l.sups) <==> id in l.cfg.jobs;
  }

  // ----- host boots -----

  /** The present boot identity is known and differs from that of the last life that knew its own. */
  predicate Rebooted(boots: seq<string>, marker: string) {
    marker != "" && |boots| >= 2 && boots[|boots| - 1] == marker && boots[|boots| - 2] != marker
  }

  /** The whole manager is reset exactly by the flag or after a reboot. */
  predicate ResetsFor(resetAll: bool, cfg: Config, boots: seq<string>) {
    resetAll <==> cfg.resumeFlag || Rebooted(boots, cfg.bootMarker)
  }

  ghost predicate BootsSoFar(q: State) {
    && q.store.marker == (if q.boots == [] then None else Some(q.boots[|q.boots| - 1]))
    && (forall i | 0 <= i < |q.log| :: ResetsFor(q.log[i].resetAll, q.log[i].cfg, q.log[i].boots))
    && (q.phase.Booted? || q.phase.LookedUp? || q.phase.Built? || q.phase.Marked? ==>
          ResetsFor(q.phase.resetAll, q.phase.cfg, q.boots))
  }

  /** The boot identities with which the lives of a run begin. */
  function Markers(steps: seq<Step>): seq<string> {
    if steps == [] then []
    else (if steps[0].Boot? && steps[0].cfg.bootMarker != "" then [steps[0].cfg.bootMarker] else []) + Markers(steps[1..])
  }

  lemma MarkersFrom(st: Step, rest: seq<Step>)
    ensures Markers([st] + rest) == Markers([st]) + Markers(rest)
  {
    assert ([st] + rest)[1..] == rest && [st][1..] == [];
  }

  lemma StepBoots(q: State, st: Step)
    requires BootsSoFar(q) && Allowed(q, st)
    ensures BootsSoFar(Next(q, st))
  {
  }

  lemma {:induction false} BootsAlways(q: State, steps: seq<Step>, q': State)
    requires BootsSoFar(q) && Runs(q, steps, q')
    ensures BootsSoFar(q')
    decreases |steps|
  {
    if steps != [] {
      StepBoots(q, steps[0]);
      BootsAlways(Next(q, steps[0]), steps[1..], q');
    }
  }

  lemma StepMarker(q: State, st: Step)
    requires Allowed(q, st)
    ensures Next(q, st).boots == q.boots + Markers([st])
  {
    assert Markers([st][1..]) == [];
  }

  lemma {:induction false} BootsAreMarkers(q: State, steps: seq<Step>, q': State)
    requires Runs(q, steps, q')
    ensures q'.boots == q.boots + Markers(steps)
    decreases |steps|
  {
    if steps != [] {
      StepMarker(q, steps[0]);
      MarkersFrom(steps[0], steps[1..]);
      assert steps == [steps[0]] + steps[1..];
      BootsAreMarkers(Next(q, steps[0]), steps[1..], q');
    }
  }

  /**
   * Over all lives and crashes, start_all resets the whole manager if and only if the resume flag is set,
   * or the boot identity is known and differs from that of the life before that knew its own.
   */
  lemma {:induction false} ResetOnlyAfterReboot(q: State, steps: seq<Step>, q': State)
    requires BootsSoFar(q) && Runs(q, steps, q')
    ensures BootsSoFar(q') && q'.boots == q.boots + Markers(steps)
    ensures forall i | 0 <= i < |q'.log| ::
              var l := q'.log[i];
              l.resetAll <==>
              || l.cfg.resumeFlag
              || (l.cfg.bootMarker != "" && |l.boots| >= 2 && l.boots[|l.boots| - 2] != l.boots[|l.boots| - 1] == l.cfg.bootMarker)
  {
    BootsAlways(q, steps, q');
    BootsAreMarkers(q, steps, q');
    assert forall i | 0 <= i < |q'.log| :: ResetsFor(q'.log[i].resetAll, q'.log[i].cfg, q'.log[i].boots);
  }

  /** Lives under one boot identity keep every persisted budget, unless the operator resumes the primary job or sets the flag. */
  lemma {:induction false} SameBootKeepsBudgets(q: State, steps: seq<Step>, q': State, i: nat, boot: string)
    requires FairSoFar(q) && BootsSoFar(q) && Runs(q, steps, q') && i < |q'.log|
    requires forall k | 0 <= k < |q'.log[i].boots| :: q'.log[i].boots[k] == boot
    requires !q'.log[i].cfg.resumeFlag && q'.log[i].resume == None
    ensures var l := q'.log[i];
            forall id | id in l.sups :: l.sups[id].restarts == if id in l.rows then l.rows[id].restarts else 0
  {
    FairAlways(q, steps, q');
    BootsAlways(q, steps, q');
  }

  /** A life that dies before start_all uses the reset up: after a reboot and a crash every budget is the old one. */
  lemma ResetLostByDying(cfg: Config, store: Store, was: string)
    requires cfg.Valid() && cfg.bootMarker != "" && cfg.bootMarker != was && !cfg.resumeFlag && cfg.request == None
    requires store.marker == Some(was)
    ensures var steps := [Boot(cfg), Crash, Boot(cfg), LookUp, Build, Mark, StartAll];
            exists q' :: Runs(State(store, Down, [], [was]), steps, q') && |q'.log| == 1 &&
              forall id | id in q'.log[0].sups ::
                q'.log[0].sups[id].restarts == if id in store.jobs then store.jobs[id].restarts else 0
  {
    var q0 := State(store, Down, [], [was]);
    var q1 := Next(q0, Boot(cfg));
    var q2 := Next(q1, Crash);
    var sups := Rebuilt(store.jobs, cfg.jobs, false, {});
    var l := Launch(cfg, false, None, sups, store.jobs, q2.boots + [cfg.bootMarker]);
    var q7 := State(q2.store, Running(cfg), [l], q2.boots + [cfg.bootMarker]);
    assert BootMarked(q2.store, cfg) == q2.store && PendingResume(q2.store, cfg) == None;
    StartUpRuns(q2, cfg, q7);
    RunsOne(q1, Crash, [Boot(cfg), LookUp, Build, Mark, StartAll], q7);
    RunsOne(q0, Boot(cfg), [Crash, Boot(cfg), LookUp, Build, Mark, StartAll], q7);
    assert [Boot(cfg)] + [Crash, Boot(cfg), LookUp, Build, Mark, StartAll]
        == [Boot(cfg), Crash, Boot(cfg), LookUp, Build, Mark, StartAll];
    assert [Crash] + [Boot(cfg), LookUp, Build, Mark, StartAll] == [Crash, Boot(cfg), LookUp, Build, Mark, StartAll];
  }

  /** A first installation satisfies every starting assumption. */
  lemma EmptyInstallation()
    ensures var q := State(Store(map[], {}, None), Down, [], []); Once(q) && FairSoFar(q) && BootsSoFar(q)
  {
  }

  /** Escalation is not restored: whatever a row says, the next life starts the job again. */
  lemma EscalationEndsWithTheLife(l: Launch, id: string)
    requires Fair(l) && id in l.sups
    ensures S.Startable(l.sups[id].state)
  {
  }

  // ----- the loop and the start-up sequence as code -----

  class ManagerStore {
    var jobs: map<string, JobRow>
    var consumed: set<string>
    var marker: Option<string>

    ghost function View(): Store
      reads this
    {
      Store(jobs, consumed, marker)
    }

    constructor (jobs: map<string, JobRow>, consumed: set<string>, marker: Option<string>)
      ensures View() == Store(jobs, consumed, marker)
    {
      this.jobs, this.consumed, this.marker := jobs, consumed, marker;
    }

    method UpdateHostBootMarker(cfg: Config) returns (changed: bool)
      modifies this`marker
      ensures changed == BootChanged(old(View()), cfg) && View() == BootMarked(old(View()), cfg)
    {
      if cfg.bootMarker == "" {
        return false;
      }
      var previous := marker;
      marker := Some(cfg.bootMarker);
      return previous.Some? && previous.value != cfg.bootMarker;
    }

    method ManagerFromConfig(ids: seq<string>, resetAll: bool, resetFor: set<string>) returns (sups: map<string, S.Sup>)
      requires forall i, j | 0 <= i < j < |ids| :: ids[i] != ids[j]
      ensures sups == Rebuilt(jobs, ids, resetAll, resetFor)
    {
      sups := map[];
      for i := 0 to |ids|
        invariant sups == Rebuilt(jobs, ids[..i], resetAll, resetFor)
      {
        var id := ids[i];
        var attempt := if id in jobs then jobs[id].attempt else 0;
        var restarts := if resetAll || id in resetFor then 0 else if id in jobs then jobs[id].restarts else 0;
        assert ids[..i + 1] == ids[..i] + [id];
        sups := sups[id := S.Fresh(attempt, restarts)];
      }
      assert ids[..|ids|] == ids;
    }

    /** main up to start_all; the supervisors returned are the ones start_all starts. */
    method StartUp(cfg: Config, ghost log: seq<Launch>, ghost boots: seq<string>)
      returns (sups: map<string, S.Sup>, ghost after: seq<Launch>, ghost seen: seq<string>)
      requires cfg.Valid()
      modifies this`marker, this`consumed
      ensures Runs(State(old(View()), Down, log, boots), [Boot(cfg), LookUp, Build, Mark, StartAll],
                   State(View(), Running(cfg), after, seen))
      ensures |after| == |log| + 1 && after[..|log|] == log && after[|log|].sups == sups
    {
      ghost var q0 := State(View(), Down, log, boots);
      seen := if cfg.bootMarker == "" then boots else boots + [cfg.bootMarker];
      var bootChanged := UpdateHostBootMarker(cfg);
      var resetAll := bootChanged || cfg.resumeFlag;
      var primary := cfg.Primary();
      var resume := PendingResume(Store(jobs, consumed, marker), cfg);
      sups := ManagerFromConfig(cfg.jobs, resetAll, if resume.Some? then {primary} else {});
      if resume.Some? {
        consumed := consumed + {resume.value};
      }
      after := log + [Launch(cfg, resetAll, resume, sups, jobs, seen)];
      StartUpRuns(q0, cfg, State(View(), Running(cfg), after, seen));
    }
  }

  lemma StartUpRuns(q0: State, cfg: Config, q5: State)
    requires cfg.Valid() && q0.phase == Down
    requires var st1 := BootMarked(q0.store, cfg);
             var resetAll := BootChanged(q0.store, cfg) || cfg.resumeFlag;
             var resume := PendingResume(st1, cfg);
             var sups := Rebuilt(st1.jobs, cfg.jobs, resetAll, if resume.Some? then {cfg.Primary()} else {});
             && q5.store == (if resume.Some? then st1.(consumed := st1.consumed + {resume.value}) else st1)
             && q5.phase == Running(cfg)
             && q5.boots == (if cfg.bootMarker == "" then q0.boots else q0.boots + [cfg.bootMarker])
             && q5.log == q0.log + [Launch(cfg, resetAll, resume, sups, st1.jobs, q5.boots)]
    ensures Runs(q0, [Boot(cfg), LookUp, Build, Mark, StartAll], q5)
  {
    var q1 := Next(q0, Boot(cfg));
    var q2 := Next(q1, LookUp);
    var q3 := Next(q2, Build);
    var q4 := Next(q3, Mark);
    assert Next(q4, StartAll) == q5;
    RunsOne(q4, StartAll, [], q5);
    RunsOne(q3, Mark, [StartAll], q5);
    RunsOne(q2, Build, [Mark, StartAll], q5);
    RunsOne(q1, LookUp, [Build, Mark, StartAll], q5);
    RunsOne(q0, Boot(cfg), [LookUp, Build, Mark, StartAll], q5);
  }

  lemma RunsOne(q: State, st: Step, rest: seq<Step>, q': State)
    requires Allowed(q, st) && Runs(Next(q, st), rest, q')
    ensures Runs(q, [st] + rest, q')
  {
    assert ([st] + rest)[1..] == rest;
  }
}
