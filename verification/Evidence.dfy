// The evidence coordinator of manager/evidence.py: audits run in the background, one
// at a time per target, and only a finished pass moves the durable cursor.
module EvidenceCoordinators {
  import opened Basics
  import opened Chains
  import opened Audit
  import opened AuditCycles

  datatype Target = Target(id: string, cfg: Setup, signature: string, interval: real)

  datatype Record = Record(nextCursor: string, signature: string, scannedAt: real)

  /** A finished background audit: what it saw and what it reported. */
  datatype Outcome = Outcome(files: seq<File>, turns: nat, report: Report, signature: string, at: real)

  /** `history` holds the recorded passes and exists for the statements only. */
  datatype State = State(records: map<string, Record>, pending: map<string, string>, history: map<string, seq<Pass>>)

  datatype Step = Begin(target: Target, now: real) | Finish(target: Target, outcome: Outcome) | Fail(id: string) | Crash

  function CursorOf(records: map<string, Record>, id: string): string {
    if id in records then records[id].nextCursor else ""
  }

  function PassesOf(history: map<string, seq<Pass>>, id: string): seq<Pass> { if id in history then history[id] else [] }

  predicate Due(target: Target, records: map<string, Record>, pending: map<string, string>, now: real) {
    && target.id !in pending
    && (target.id in records ==>
          || records[target.id].signature != target.signature
          || now - records[target.id].scannedAt >= target.interval)
  }

  function RecordOf(o: Outcome): Record { Record(o.report.nextCursor, o.signature, o.at) }

  function PassOf(startAfter: string, o: Outcome): Pass { Pass(o.files, startAfter, o.turns, o.report.nextCursor) }

  ghost predicate Allowed(q: State, st: Step) {
    match st
    case Begin(t, now) => Due(t, q.records, q.pending, now)
    case Finish(t, o) => t.id in q.pending && t.cfg.Valid() && Reports(t.cfg, o.files, q.pending[t.id], o.turns, o.report)
    case Fail(id) => id in q.pending
    case Crash => true
  }

  function Next(q: State, st: Step): State {
    match st
    case Begin(t, _) => q.(pending := q.pending[t.id := CursorOf(q.records, t.id)])
    case Finish(t, o) =>
      if t.id !in q.pending then q
      else
        State(q.records[t.id := RecordOf(o)], q.pending - {t.id},
              q.history[t.id := PassesOf(q.history, t.id) + [PassOf(q.pending[t.id], o)]])
    case Fail(id) => q.(pending := q.pending - {id})
    case Crash => q.(pending := map[])
  }

  ghost function Allows(): (State, Step) -> bool { (q: State, st: Step) => Allowed(q, st) }

  ghost function Leads(): (State, Step) -> State { (q: State, st: Step) => Next(q, st) }

  ghost predicate Runs(q: State, steps: seq<Step>, q': State) { Chain(Allows(), Leads(), q, steps, q') }

  // ----- the recorded passes chain -----

  /** The recorded passes of a target chain, and the durable cursor is where the last one stopped. */
  ghost predicate Recorded(q: State) {
    && (forall id | id in q.pending :: q.pending[id] == CursorOf(q.records, id))
    && (forall id | id in q.history ::
          && Chained(q.history[id]) && q.history[id] != []
          && q.history[id][|q.history[id]| - 1].nextCursor == CursorOf(q.records, id))
  }

  lemma ChainedNext(passes: seq<Pass>, p: Pass)
    requires Chained(passes) && (passes != [] ==> p.startAfter == passes[|passes| - 1].nextCursor)
    ensures Chained(passes + [p])
  {
  }

  /** Neither a failed audit nor a crash moves the cursor; a finished one extends the chain. */
  lemma StepRecorded(q: State, st: Step)
    requires Recorded(q) && Allowed(q, st)
    ensures Recorded(Next(q, st))
    ensures !st.Finish? ==> Next(q, st).records == q.records && Next(q, st).history == q.history
  {
    if st.Finish? {
      FinishRecorded(q, st.target, st.outcome);
    }
  }

  lemma FinishRecorded(q: State, target: Target, o: Outcome)
    requires Recorded(q) && target.id in q.pending
    ensures Recorded(Next(q, Finish(target, o)))
  {
    var q', t := Next(q, Finish(target, o)), target.id;
    var passes, p := PassesOf(q.history, t), PassOf(q.pending[t], o);
    ChainedNext(passes, p);
    assert q'.history[t] == passes + [p] && (passes + [p])[|passes|] == p;
    forall id | id in q'.pending ensures q'.pending[id] == CursorOf(q'.records, id) {
      assert id != t && q'.pending[id] == q.pending[id];
    }
    forall id | id in q'.history && id != t
      ensures Chained(q'.history[id]) && q'.history[id] != []
      ensures q'.history[id][|q'.history[id]| - 1].nextCursor == CursorOf(q'.records, id)
    {
      assert q'.history[id] == q.history[id] && CursorOf(q'.records, id) == CursorOf(q.records, id);
    }
  }

  lemma {:induction false} RecordedAlways(q: State, steps: seq<Step>, q': State)
    requires Recorded(q) && Runs(q, steps, q')
    ensures Recorded(q')
    decreases |steps|
  {
    if steps != [] {
      StepRecorded(q, steps[0]);
      RecordedAlways(Next(q, steps[0]), steps[1..], q');
    }
  }

  /** Every recorded pass over a well-named listing obeys the cursor discipline. */
  ghost predicate SoundHistory(q: State, target: Target) {
    forall i | 0 <= i < |PassesOf(q.history, target.id)| && Listed(target.cfg, PassesOf(q.history, target.id)[i].files) ::
      Sound(target.cfg, PassesOf(q.history, target.id)[i])
  }

  /** The target is configured once: every step about its id is about this very target. */
  ghost predicate About(st: Step, target: Target) {
    (st.Finish? && st.target.id == target.id) ==> st.target.cfg == target.cfg
  }

  lemma StepSound(q: State, st: Step, target: Target)
    requires SoundHistory(q, target) && Allowed(q, st) && About(st, target)
    ensures SoundHistory(Next(q, st), target)
  {
    var passes := PassesOf(q.history, target.id);
    if st.Finish? && st.target.id == target.id {
      var p := PassOf(q.pending[target.id], st.outcome);
      assert PassesOf(Next(q, st).history, target.id) == passes + [p];
      if Listed(target.cfg, p.files) {
        ReportIsSound(target.cfg, p.files, p.startAfter, st.outcome.turns, st.outcome.report);
      }
      forall i | 0 <= i <= |passes| && Listed(target.cfg, (passes + [p])[i].files)
        ensures Sound(target.cfg, (passes + [p])[i])
      {
        if i < |passes| {
          assert (passes + [p])[i] == passes[i];
        }
      }
    } else {
      assert PassesOf(Next(q, st).history, target.id) == passes;
    }
  }

  lemma {:induction false} SoundAlways(q: State, steps: seq<Step>, q': State, target: Target)
    requires SoundHistory(q, target) && Runs(q, steps, q') && forall st | st in steps :: About(st, target)
    ensures SoundHistory(q', target)
    decreases |steps|
  {
    if steps != [] {
      StepSound(q, steps[0], target);
      assert forall st | st in steps[1..] :: st in steps;
      SoundAlways(Next(q, steps[0]), steps[1..], q', target);
    }
  }

  /** The passes from lo up to hi make one cycle, and the one at hi begins the next. */
  ghost predicate CycleAt(cfg: Setup, passes: seq<Pass>, lo: nat, hi: nat) {
    && lo < hi < |passes|
    && (forall i | lo <= i <= hi :: Listed(cfg, passes[i].files))
    && (forall i | lo <= i <= hi :: Anew(cfg, passes[i].files, passes[i].startAfter) <==> i == lo || i == hi)
  }

  /**
   * Coverage over whole runs: whatever audits fail and however often the manager crashes, between two
   * cycle starts a file that stays in the tree has its turn exactly once.
   */
  lemma CoverageAlways(q: State, steps: seq<Step>, q': State, target: Target, lo: nat, hi: nat, path: string)
    requires Recorded(q) && SoundHistory(q, target) && Runs(q, steps, q') && forall st | st in steps :: About(st, target)
    requires CycleAt(target.cfg, PassesOf(q'.history, target.id), lo, hi)
    requires forall i | lo <= i <= hi :: Holds(PassesOf(q'.history, target.id)[i].files, path)
    ensures Turns(target.cfg, PassesOf(q'.history, target.id)[lo..hi], path) == 1
  {
    RecordedAlways(q, steps, q');
    SoundAlways(q, steps, q', target);
    var passes := PassesOf(q'.history, target.id);
    SliceIsCycle(target.cfg, passes, lo, hi);
    assert passes[lo..hi][hi - lo - 1] == passes[hi - 1];
    assert forall i | 0 <= i < hi - lo :: passes[lo..hi][i] == passes[lo + i];
    OneTurnPerCycle(target.cfg, passes[lo..hi], passes[hi].files, path);
  }

  lemma SliceIsCycle(cfg: Setup, passes: seq<Pass>, lo: nat, hi: nat)
    requires Chained(passes) && CycleAt(cfg, passes, lo, hi)
    requires forall i | 0 <= i < |passes| && Listed(cfg, passes[i].files) :: Sound(cfg, passes[i])
    ensures Cycle(cfg, passes[lo..hi])
  {
    var slice := passes[lo..hi];
    assert forall i | 0 <= i < |slice| :: slice[i] == passes[lo + i];
    forall i | 0 < i < |slice| ensures slice[i].startAfter == slice[i - 1].nextCursor {
      assert slice[i - 1] == passes[lo + i - 1];
    }
  }

  // ----- the coordinator object -----

  class AuditStore {
    var records: map<string, Record>
    ghost var history: map<string, seq<Pass>>

    constructor ()
      ensures records == map[] && history == map[]
    {
      records := map[];
      history := map[];
    }

    method UpsertConstraintAudit(id: string, record: Record, ghost pass: Pass)
      modifies this
      ensures records == old(records)[id := record]
      ensures history == old(history)[id := PassesOf(old(history), id) + [pass]]
    {
      records := records[id := record];
      history := history[id := PassesOf(history, id) + [pass]];
    }
  }

  /** The records after the finished audits have been collected. */
  function RecordsAfter(records: map<string, Record>, finished: set<string>, done: map<string, Option<Outcome>>): map<string, Record>
    requires finished <= done.Keys
  {
    map id | id in records.Keys + finished && (id in finished && done[id].None? ==> id in records) ::
      if id in finished && done[id].Some? then RecordOf(done[id].value) else records[id]
  }

  /** The audits a tick starts, in configuration order. */
  function PendingAfter(targets: seq<Target>, records: map<string, Record>, pending: map<string, string>, now: real): map<string, string> {
    if targets == [] then pending
    else
      var before := PendingAfter(targets[..|targets| - 1], records, pending, now);
      var t := targets[|targets| - 1];
      if Due(t, records, before, now) then before[t.id := CursorOf(records, t.id)] else before
  }

  /** Finished audits are recorded with their cursor, signature and time; a failed one leaves the record as it was. */
  lemma {:induction false} RecordsExactly(records: map<string, Record>, finished: set<string>, done: map<string, Option<Outcome>>)
    requires finished <= done.Keys
    ensures var after := RecordsAfter(records, finished, done);
            && (forall id | id in finished && done[id].Some? ::
                  var o := done[id].value;
                  id in after && after[id] == Record(o.report.nextCursor, o.signature, o.at))
            && (forall id | !(id in finished && done[id].Some?) ::
                  (id in after <==> id in records) && (id in records ==> after[id] == records[id]))
  {
  }

  /** Not under way, and never recorded, recorded with another signature, or recorded at least an interval ago. */
  predicate Wanted(t: Target, records: map<string, Record>, pending: map<string, string>, now: real) {
    && t.id !in pending
    && (t.id !in records || records[t.id].signature != t.signature || now - records[t.id].scannedAt >= t.interval)
  }

  ghost predicate WantedIn(targets: seq<Target>, id: string, records: map<string, Record>, pending: map<string, string>, now: real) {
    exists i | 0 <= i < |targets| :: targets[i].id == id && Wanted(targets[i], records, pending, now)
  }

  lemma WantedNext(targets: seq<Target>, t: Target, id: string, records: map<string, Record>, pending: map<string, string>, now: real)
    ensures WantedIn(targets + [t], id, records, pending, now) <==>
            WantedIn(targets, id, records, pending, now) || (t.id == id && Wanted(t, records, pending, now))
  {
    var all := targets + [t];
    assert all[|targets|] == t;
    if WantedIn(targets, id, records, pending, now) {
      var i :| 0 <= i < |targets| && targets[i].id == id && Wanted(targets[i], records, pending, now);
      assert all[i] == targets[i];
    }
  }

  /** A tick starts exactly the wanted audits, each behind its recorded cursor, and leaves those under way alone. */
  lemma {:induction false} PendingExactly(targets: seq<Target>, records: map<string, Record>, pending: map<string, string>, now: real)
    ensures var after := PendingAfter(targets, records, pending, now);
            && (forall id :: id in after <==> id in pending || WantedIn(targets, id, records, pending, now))
            && (forall id | id in pending :: after[id] == pending[id])
            && (forall id | id in after && id !in pending :: after[id] == if id in records then records[id].nextCursor else "")
    decreases |targets|
  {
    if targets != [] {
      var before, t := targets[..|targets| - 1], targets[|targets| - 1];
      PendingExactly(before, records, pending, now);
      assert targets == before + [t];
      forall id {
        WantedNext(before, t, id, records, pending, now);
      }
    }
  }

  // ----- when an audit may begin -----

  /** The last audit of the target that finished. */
  function LastFinish(steps: seq<Step>, id: string): Option<Outcome> {
    if steps == [] then None
    else
      var last := steps[|steps| - 1];
      if last.Finish? && last.target.id == id then Some(last.outcome) else LastFinish(steps[..|steps| - 1], id)
  }

  lemma {:induction false} LastFinishFrom(st: Step, rest: seq<Step>, id: string)
    ensures LastFinish([st] + rest, id) ==
            if LastFinish(rest, id).Some? then LastFinish(rest, id)
            else if st.Finish? && st.target.id == id then Some(st.outcome) else None
    decreases |rest|
  {
    var all := [st] + rest;
    if rest != [] {
      assert all[..|all| - 1] == [st] + rest[..|rest| - 1];
      LastFinishFrom(st, rest[..|rest| - 1], id);
    } else {
      assert all[..0] == [];
    }
  }

  lemma {:induction false} RecordsAreLast(q: State, steps: seq<Step>, q': State, id: string)
    requires Runs(q, steps, q')
    ensures match LastFinish(steps, id)
            case None => (id in q'.records <==> id in q.records) && (id in q.records ==> q'.records[id] == q.records[id])
            case Some(o) => id in q'.records && q'.records[id] == Record(o.report.nextCursor, o.signature, o.at)
    decreases |steps|
  {
    if steps != [] {
      RecordsAreLast(Next(q, steps[0]), steps[1..], q', id);
      LastFinishFrom(steps[0], steps[1..], id);
      assert steps == [steps[0]] + steps[1..];
    }
  }

  /**
   * At any point of any run from an empty store, with failed audits and crashes, an audit may begin if and
   * only if none of its target is under way, and none has finished, or the last one that finished saw another
   * signature or was at least an interval ago. It begins where that one stopped.
   */
  lemma {:induction false} BeginsExactly(q: State, steps: seq<Step>, q': State, t: Target, now: real)
    requires q.records == map[] && Runs(q, steps, q')
    ensures Allowed(q', Begin(t, now)) <==>
            t.id !in q'.pending &&
            match LastFinish(steps, t.id)
            case None => true
            case Some(o) => o.signature != t.signature || now - o.at >= t.interval
    ensures t.id in Next(q', Begin(t, now)).pending &&
            Next(q', Begin(t, now)).pending[t.id] ==
            match LastFinish(steps, t.id) { case None => "" case Some(o) => o.report.nextCursor }
  {
    RecordsAreLast(q, steps, q', t.id);
  }

  class EvidenceCoordinator {
    const store: AuditStore
    const targets: seq<Target>
    var pending: map<string, string>

    ghost function View(): State
      reads this, store
    {
      State(store.records, pending, store.history)
    }

    constructor (store: AuditStore, targets: seq<Target>)
      ensures this.store == store && this.targets == targets && pending == map[]
    {
      this.store, this.targets, pending := store, targets, map[];
    }

    /** The outcome of an audit fits the configured target and the cursor it was started with. */
    ghost predicate Fits(id: string, o: Outcome, startAfter: string) {
      exists i | 0 <= i < |targets| ::
        targets[i].id == id && targets[i].cfg.Valid() && Reports(targets[i].cfg, o.files, startAfter, o.turns, o.report)
    }

    method CollectOne(id: string, done: Option<Outcome>) returns (ghost step: Step)
      requires id in pending && (done.Some? ==> Fits(id, done.value, pending[id]))
      modifies this`pending, store
      ensures Allowed(old(View()), step) && View() == Next(old(View()), step)
      ensures pending == old(pending) - {id}
      ensures store.records == if done.Some? then old(store.records)[id := RecordOf(done.value)] else old(store.records)
    {
      ghost var startAfter := pending[id];
      pending := pending - {id};
      if done.None? {
        step := Fail(id);
        return;
      }
      ghost var i :| 0 <= i < |targets| && targets[i].id == id && targets[i].cfg.Valid()
                     && Reports(targets[i].cfg, done.value.files, startAfter, done.value.turns, done.value.report);
      step := Finish(targets[i], done.value);
      store.UpsertConstraintAudit(id, RecordOf(done.value), PassOf(startAfter, done.value));
    }

    lemma CollectedNext(records: map<string, Record>, gone: set<string>, done: map<string, Option<Outcome>>, id: string)
      requires gone <= done.Keys && id in done && id !in gone
      ensures RecordsAfter(records, gone + {id}, done) ==
              if done[id].Some? then RecordsAfter(records, gone, done)[id := RecordOf(done[id].value)]
              else RecordsAfter(records, gone, done)
    {
    }

    /** `done`: the futures that are done; None when the audit raised. */
    method CollectFinished(done: map<string, Option<Outcome>>) returns (ghost steps: seq<Step>)
      requires forall id | id in pending && id in done && done[id].Some? :: Fits(id, done[id].value, pending[id])
      modifies this`pending, store
      ensures Runs(old(View()), steps, View())
      ensures pending == old(pending) - done.Keys
      ensures store.records == RecordsAfter(old(store.records), old(pending).Keys * done.Keys, done)
    {
      steps := [];
      var todo := pending.Keys * done.Keys;
      ghost var q0, all, gone := View(), todo, {};
      while todo != {}
        invariant gone + todo == all && gone !! todo && pending == q0.pending - gone
        invariant store.records == RecordsAfter(q0.records, gone, done)
        invariant Runs(q0, steps, View())
        decreases todo
      {
        var id :| id in todo;
        CollectedNext(q0.records, gone, done, id);
        ghost var q := View();
        ghost var step := CollectOne(id, done[id]);
        Extend(Allows(), Leads(), q0, steps, q, step);
        steps, gone, todo := steps + [step], gone + {id}, todo - {id};
      }
      assert q0.pending - all == q0.pending - done.Keys;
    }

    /** `tick`: record what has finished, then start what is due, from the recorded cursors. */
    method Tick(now: real, done: map<string, Option<Outcome>>) returns (ghost steps: seq<Step>)
      requires forall id | id in pending && id in done && done[id].Some? :: Fits(id, done[id].value, pending[id])
      modifies this`pending, store
      ensures Runs(old(View()), steps, View())
      ensures store.records == RecordsAfter(old(store.records), old(pending).Keys * done.Keys, done)
      ensures pending == PendingAfter(targets, store.records, old(pending) - done.Keys, now)
    {
      ghost var q0 := View();
      steps := CollectFinished(done);
      ghost var kept, records := pending, store.records;
      assert targets[..0] == [];
      for i := 0 to |targets|
        invariant store.records == records && pending == PendingAfter(targets[..i], records, kept, now)
        invariant Runs(q0, steps, View())
      {
        assert targets[..i + 1][..i] == targets[..i];
        if targets[i].id !in pending {
          var due := IsDue(targets[i], now);
          if due {
            ghost var q := View();
            pending := pending[targets[i].id := if targets[i].id in store.records then store.records[targets[i].id].nextCursor else ""];
            Extend(Allows(), Leads(), q0, steps, q, Begin(targets[i], now));
            steps := steps + [Begin(targets[i], now)];
          }
        }
      }
      assert targets[..|targets|] == targets;
    }

    method IsDue(target: Target, now: real) returns (due: bool)
      ensures due == Due(target, store.records, pending, now)
    {
      if target.id in pending {
        return false;
      }
      if target.id !in store.records {
        return true;
      }
      var previous := store.records[target.id];
      if previous.signature != target.signature {
        return true;
      }
      return now - previous.scannedAt >= target.interval;
    }
  }
}
