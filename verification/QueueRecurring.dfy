// Recurring work over whole runs with crashes: numbered without gaps or duplicates,
// never two of a template active, and never closer together than the interval.
module QueueRecurring {
  import opened Basics
  import opened Text
  import opened TaskTable
  import opened QueueSystem
  import D = Dispatch
  import A = Agents
  import R = Recurring

  /** Only the seeder writes rows under recurring ids. */
  predicate KeepsNames(st: Step) { st.Submission? ==> !(PREFIX <= st.id) }

  lemma RecurringPrefix(t: string, n: nat)
    ensures PREFIX <= TaskId(t, n)
  {
    assert TaskId(t, n) == PREFIX + (t + "-" + SixDigits(n));
  }

  /** How many tasks of a template the store holds: the cursor, or one more after a crash between the two writes. */
  function Top(ts: Tasks, cs: R.Cursors, t: string): nat {
    R.SequenceOf(cs, t) + if R.NewId(cs, t) in ts then 1 else 0
  }

  ghost predicate CursorsSound(cs: R.Cursors) {
    forall t | t in cs :: cs[t].sequence >= 1 && cs[t].taskId == TaskId(t, cs[t].sequence)
  }

  ghost predicate Numbering(ts: Tasks, cs: R.Cursors) {
    && CursorsSound(cs)
    && (forall t, n: nat :: TaskId(t, n) in ts <==> 1 <= n <= Top(ts, cs, t))
    && (forall t, n: nat | 1 <= n < Top(ts, cs, t) :: !IsActive(ts, TaskId(t, n)))
  }

  ghost predicate SeedingSound(ts: Tasks, cs: R.Cursors, m: Option<R.Seeding>) {
    m.Some? ==> var sd := m.value; sd.sequence == R.SequenceOf(cs, sd.template) + 1 && TaskId(sd.template, sd.sequence) in ts
  }

  ghost predicate Numbered(s: System) {
    Numbering(s.tasks, s.cursors) && SeedingSound(s.tasks, s.cursors, s.seeding)
  }

  /** Steps that add no recurring row keep the numbering, because ended rows stay ended. */
  lemma OtherRows(ts: Tasks, ts': Tasks, cs: R.Cursors, m: Option<R.Seeding>)
    requires Numbering(ts, cs) && SeedingSound(ts, cs, m) && RowsMove(ts, ts')
    requires forall id | id in ts' && id !in ts :: !(PREFIX <= id)
    ensures Numbering(ts', cs) && SeedingSound(ts', cs, m)
  {
    forall t, n: nat ensures TaskId(t, n) in ts' <==> TaskId(t, n) in ts {
      RecurringPrefix(t, n);
    }
    assert forall t :: Top(ts', cs, t) == Top(ts, cs, t);
    forall t, n: nat | 1 <= n < Top(ts', cs, t) ensures !IsActive(ts', TaskId(t, n)) {
      assert TaskId(t, n) in ts && !IsActive(ts, TaskId(t, n));
    }
  }

  /** A new row under the next id of t raises the top of t to that number and no other top. */
  lemma NewTop(ts: Tasks, cs: R.Cursors, t: string, row: Task)
    requires Numbering(ts, cs) && R.NewId(cs, t) !in ts
    ensures var ts' := ts[R.NewId(cs, t) := row];
            && (forall u, n: nat :: TaskId(u, n) in ts' <==> TaskId(u, n) in ts || (u == t && n == R.SequenceOf(cs, t) + 1))
            && (forall u :: Top(ts', cs, u) == if u == t then R.SequenceOf(cs, t) + 1 else Top(ts, cs, u))
  {
    var k := R.SequenceOf(cs, t) + 1;
    var ts' := ts[R.NewId(cs, t) := row];
    forall u, n: nat ensures TaskId(u, n) in ts' <==> TaskId(u, n) in ts || (u == t && n == k) {
      if TaskId(u, n) == TaskId(t, k) {
        TaskIdInjective(u, n, t, k);
      }
    }
    forall u ensures Top(ts', cs, u) == if u == t then k else Top(ts, cs, u) {
      assert R.NewId(cs, u) in ts' <==> R.NewId(cs, u) in ts || u == t;
    }
  }

  lemma OtherId(u: string, n: nat, t: string, k: nat)
    requires u != t || n != k
    ensures TaskId(u, n) != TaskId(t, k)
  {
    if TaskId(u, n) == TaskId(t, k) {
      TaskIdInjective(u, n, t, k);
    }
  }

  lemma NewRowNumbered(ts: Tasks, cs: R.Cursors, t: string, row: Task)
    requires Numbering(ts, cs) && R.NewId(cs, t) !in ts && !R.PreviousActive(ts, cs, t)
    ensures Numbering(ts[R.NewId(cs, t) := row], cs)
  {
    NewTop(ts, cs, t, row);
    var k := R.SequenceOf(cs, t) + 1;
    var ts' := ts[R.NewId(cs, t) := row];
    assert Top(ts, cs, t) == k - 1;
    forall u, n: nat | 1 <= n < Top(ts', cs, u) ensures !IsActive(ts', TaskId(u, n)) {
      OtherId(u, n, t, k);
      if u == t && n == k - 1 {
        TaskIdNotEmpty(t, n);
        assert !IsActive(ts, cs[t].taskId);
      } else {
        assert n < Top(ts, cs, u);
      }
    }
  }

  lemma InsertNumbered(cfg: Config, s: System, t: string, now: real)
    requires Numbered(s) && R.Enabled(cfg.templates, s.tasks, s.cursors, s.seeding, R.Insert(t, now))
    ensures Numbered(Next(cfg, s, Seed(R.Insert(t, now))))
  {
    var ts' := R.Table(cfg.templates, s.tasks, s.cursors, R.Insert(t, now));
    var id := R.NewId(s.cursors, t);
    if id !in s.tasks {
      NewRowNumbered(s.tasks, s.cursors, t, ts'[id]);
      assert ts' == s.tasks[id := ts'[id]];
    }
  }

  lemma TaskIdNotEmpty(t: string, n: nat)
    ensures TaskId(t, n) != ""
  {
  }

  /** Writing the cursor after its insert changes what it says, not how many tasks there are. */
  lemma CursorCatchesUp(ts: Tasks, cs: R.Cursors, cs': R.Cursors, sd: R.Seeding, nextAt: real)
    requires Numbering(ts, cs) && SeedingSound(ts, cs, Some(sd))
    requires cs' == cs[sd.template := R.Cursor(TaskId(sd.template, sd.sequence), sd.sequence, nextAt)]
    ensures Numbering(ts, cs')
    ensures forall u :: R.SequenceOf(cs', u) == if u == sd.template then sd.sequence else R.SequenceOf(cs, u)
    ensures forall u :: Top(ts, cs', u) == Top(ts, cs, u)
  {
    var t, k := sd.template, sd.sequence;
    assert Top(ts, cs, t) == k;
    forall u ensures Top(ts, cs', u) == Top(ts, cs, u) {
      if u == t {
        assert TaskId(t, k + 1) !in ts;
      }
    }
    SameTops(ts, cs, cs');
  }

  lemma SameTops(ts: Tasks, cs: R.Cursors, cs': R.Cursors)
    requires Numbering(ts, cs) && CursorsSound(cs') && forall u :: Top(ts, cs', u) == Top(ts, cs, u)
    ensures Numbering(ts, cs')
  {
    forall u, n: nat ensures TaskId(u, n) in ts <==> 1 <= n <= Top(ts, cs', u) {
      assert Top(ts, cs', u) == Top(ts, cs, u);
    }
    forall u, n: nat | 1 <= n < Top(ts, cs', u) ensures !IsActive(ts, TaskId(u, n)) {
      assert Top(ts, cs', u) == Top(ts, cs, u);
    }
  }

  lemma AdvanceNumbered(cfg: Config, s: System)
    requires Numbered(s) && R.Enabled(cfg.templates, s.tasks, s.cursors, s.seeding, R.Advance)
    ensures Numbered(Next(cfg, s, Seed(R.Advance)))
  {
    var sd := s.seeding.value;
    var cs' := R.CursorsAfter(cfg.templates, s.cursors, s.seeding, R.Advance);
    CursorCatchesUp(s.tasks, s.cursors, cs', sd, sd.at + cfg.templates[sd.template].interval);
  }

  lemma StepNumbered(cfg: Config, s: System, st: Step)
    requires cfg.Valid() && Owned(cfg, s) && Numbered(s) && Enabled(cfg, s, st) && KeepsNames(st)
    ensures Numbered(Next(cfg, s, st))
  {
    match st
    case Seed(r) =>
      match r {
        case Insert(t, now) => InsertNumbered(cfg, s, t, now);
        case Advance => AdvanceNumbered(cfg, s);
        case Postpone(t, now) => PostponeNumbered(cfg, s, t, now);
      }
    case _ =>
      StepOwned(cfg, s, st);
      NewRows(cfg, s, st);
      OtherRows(s.tasks, Next(cfg, s, st).tasks, s.cursors, s.seeding);
  }

  lemma PostponeNumbered(cfg: Config, s: System, t: string, now: real)
    requires Numbered(s)
    ensures Numbered(Next(cfg, s, Seed(R.Postpone(t, now))))
  {
    var cs' := R.CursorsAfter(cfg.templates, s.cursors, s.seeding, R.Postpone(t, now));
    assert forall u :: R.SequenceOf(cs', u) == R.SequenceOf(s.cursors, u);
    assert forall u :: Top(s.tasks, cs', u) == Top(s.tasks, s.cursors, u);
  }

  lemma NewRows(cfg: Config, s: System, st: Step)
    requires cfg.Valid() && Owned(cfg, s) && Enabled(cfg, s, st) && KeepsNames(st) && !st.Seed?
    ensures forall id | id in Next(cfg, s, st).tasks && id !in s.tasks :: !(PREFIX <= id)
  {
    match st
    case Disp(d) => D.StepOwned(cfg.dispatch, s.tasks, s.disp, d);
    case Agent(a) =>
      if a.Create? {
        assert a.id[0] == A.NewReviewId(a.agent)[0] == 'a';
      }
    case _ =>
  }

  /**
   * Numbering over whole runs: the stored tasks of a template are exactly 1..k with k the cursor
   * or one more, and only the newest of them can be queued or running.
   */
  lemma {:induction false} NumberingAlways(cfg: Config, s: System, steps: seq<Step>)
    requires cfg.Valid() && Owned(cfg, s) && Numbered(s) && Runs(cfg, s, steps)
    requires forall st | st in steps :: KeepsNames(st)
    ensures Numbered(After(cfg, s, steps))
    decreases |steps|
  {
    if steps != [] {
      StepOwned(cfg, s, steps[0]);
      StepNumbered(cfg, s, steps[0]);
      assert forall st | st in steps[1..] :: st in steps;
      NumberingAlways(cfg, Next(cfg, s, steps[0]), steps[1..]);
    }
  }

  // ----- spacing -----

  /** The wall clock the seeder reads does not go back. */
  predicate Timely(s: System, st: Step) {
    st.Seed? && !st.r.Advance? ==> s.history.seedClock <= st.r.now
  }

  function TimeOf(created: map<string, real>, t: string, n: nat): real {
    if TaskId(t, n) in created then created[TaskId(t, n)] else 0.0
  }

  function CreatedAt(s: System, t: string, n: nat): real { TimeOf(s.history.created, t, n) }

  ghost predicate Recorded(s: System) {
    forall t, n: nat | 1 <= n <= Top(s.tasks, s.cursors, t) ::
      TaskId(t, n) in s.history.created && CreatedAt(s, t, n) <= s.history.seedClock
  }

  ghost predicate Apart(cfg: Config, s: System) {
    forall t, n: nat | t in cfg.templates && 1 <= n && n < Top(s.tasks, s.cursors, t) ::
      CreatedAt(s, t, n) + cfg.templates[t].interval <= CreatedAt(s, t, n + 1)
  }

  ghost predicate Waits(cfg: Config, s: System) {
    && (forall t | t in s.cursors && t in cfg.templates ::
          CreatedAt(s, t, s.cursors[t].sequence) + cfg.templates[t].interval <= s.cursors[t].nextAt)
    && (s.seeding.Some? ==>
          var sd := s.seeding.value;
          CreatedAt(s, sd.template, sd.sequence) <= sd.at && R.NextAt(s.cursors, sd.template) <= sd.at)
  }

  ghost predicate Spaced(cfg: Config, s: System) { Recorded(s) && Apart(cfg, s) && Waits(cfg, s) }

  /** Only the new row gets a new creation time. */
  lemma NewTime(created: map<string, real>, created': map<string, real>, t: string, k: nat, now: real)
    requires created' == created[TaskId(t, k) := now]
    ensures forall u, n: nat :: TimeOf(created', u, n) == if u == t && n == k then now else TimeOf(created, u, n)
  {
    forall u, n: nat ensures TimeOf(created', u, n) == if u == t && n == k then now else TimeOf(created, u, n) {
      if TaskId(u, n) == TaskId(t, k) {
        TaskIdInjective(u, n, t, k);
      }
    }
  }

  /** An insert that finds its row already there, after a crash, creates nothing. */
  lemma RepeatedInsertSpaced(cfg: Config, s: System, t: string, now: real)
    requires Numbered(s) && Spaced(cfg, s) && s.history.seedClock <= now && R.NewId(s.cursors, t) in s.tasks
    requires R.Enabled(cfg.templates, s.tasks, s.cursors, s.seeding, R.Insert(t, now))
    ensures Spaced(cfg, Next(cfg, s, Seed(R.Insert(t, now))))
  {
    var s' := Next(cfg, s, Seed(R.Insert(t, now)));
    var k := R.SequenceOf(s.cursors, t) + 1;
    assert s'.tasks == s.tasks && s'.cursors == s.cursors && s'.history.created == s.history.created;
    SpacingCarries(cfg, s, s');
    assert Top(s.tasks, s.cursors, t) == k;
    assert CreatedAt(s', t, k) <= now;
  }

  lemma NewRowSpaced(cfg: Config, s: System, s': System, t: string, now: real)
    requires Numbered(s) && Spaced(cfg, s) && s.history.seedClock <= now && t in cfg.templates
    requires R.NewId(s.cursors, t) !in s.tasks && R.NextAt(s.cursors, t) <= now
    requires s'.cursors == s.cursors && s'.seeding == Some(R.Seeding(t, R.SequenceOf(s.cursors, t) + 1, now))
    requires s'.history.seedClock == now && s'.history.created == s.history.created[R.NewId(s.cursors, t) := now]
    requires forall u :: Top(s'.tasks, s.cursors, u) ==
                         if u == t then R.SequenceOf(s.cursors, t) + 1 else Top(s.tasks, s.cursors, u)
    ensures Spaced(cfg, s')
  {
    var k := R.SequenceOf(s.cursors, t) + 1;
    NewTime(s.history.created, s'.history.created, t, k, now);
    assert Top(s.tasks, s.cursors, t) == k - 1;
    forall u, n: nat | 1 <= n <= Top(s'.tasks, s.cursors, u)
      ensures TaskId(u, n) in s'.history.created && CreatedAt(s', u, n) <= now
    {
      assert n <= Top(s.tasks, s.cursors, u) || (u == t && n == k);
    }
    forall u, n: nat | u in cfg.templates && 1 <= n && n < Top(s'.tasks, s.cursors, u)
      ensures CreatedAt(s', u, n) + cfg.templates[u].interval <= CreatedAt(s', u, n + 1)
    {
      if u == t && n + 1 == k {
        assert t in s.cursors && n == s.cursors[t].sequence;
      } else {
        assert n < Top(s.tasks, s.cursors, u);
      }
    }
    forall u | u in s'.cursors && u in cfg.templates
      ensures CreatedAt(s', u, s'.cursors[u].sequence) + cfg.templates[u].interval <= s'.cursors[u].nextAt
    {
      assert CreatedAt(s', u, s.cursors[u].sequence) == CreatedAt(s, u, s.cursors[u].sequence);
    }
  }

  lemma InsertSpaced(cfg: Config, s: System, t: string, now: real)
    requires cfg.Valid() && Numbered(s) && Spaced(cfg, s)
    requires R.Enabled(cfg.templates, s.tasks, s.cursors, s.seeding, R.Insert(t, now)) && s.history.seedClock <= now
    ensures Spaced(cfg, Next(cfg, s, Seed(R.Insert(t, now))))
  {
    var id := R.NewId(s.cursors, t);
    if id in s.tasks {
      RepeatedInsertSpaced(cfg, s, t, now);
    } else {
      var s' := Next(cfg, s, Seed(R.Insert(t, now)));
      assert s'.tasks == s.tasks[id := s'.tasks[id]];
      NewTop(s.tasks, s.cursors, t, s'.tasks[id]);
      NewRowSpaced(cfg, s, s', t, now);
    }
  }

  lemma AdvanceSpaced(cfg: Config, s: System)
    requires cfg.Valid() && Numbered(s) && Spaced(cfg, s)
    requires R.Enabled(cfg.templates, s.tasks, s.cursors, s.seeding, R.Advance)
    ensures Spaced(cfg, Next(cfg, s, Seed(R.Advance)))
  {
    var sd := s.seeding.value;
    var s' := Next(cfg, s, Seed(R.Advance));
    var nextAt := sd.at + cfg.templates[sd.template].interval;
    var cs' := s.cursors[sd.template := R.Cursor(TaskId(sd.template, sd.sequence), sd.sequence, nextAt)];
    assert s'.tasks == s.tasks && s'.cursors == cs' && s'.seeding == None;
    assert s'.history.created == s.history.created && s'.history.seedClock == s.history.seedClock;
    CursorCatchesUp(s.tasks, s.cursors, cs', sd, nextAt);
    SpacingCarries(cfg, s, s');
    CursorWaits(cfg, s, s', nextAt);
  }

  lemma CursorWaits(cfg: Config, s: System, s': System, nextAt: real)
    requires Waits(cfg, s) && s.seeding.Some? && s'.seeding == None && s'.history.created == s.history.created
    requires var sd := s.seeding.value;
             && sd.template in cfg.templates && nextAt == sd.at + cfg.templates[sd.template].interval
             && s'.cursors == s.cursors[sd.template := R.Cursor(TaskId(sd.template, sd.sequence), sd.sequence, nextAt)]
    ensures Waits(cfg, s')
  {
    var sd := s.seeding.value;
    forall t | t in s'.cursors && t in cfg.templates
      ensures CreatedAt(s', t, s'.cursors[t].sequence) + cfg.templates[t].interval <= s'.cursors[t].nextAt
    {
      assert CreatedAt(s', t, s'.cursors[t].sequence) == CreatedAt(s, t, s'.cursors[t].sequence);
      if t != sd.template {
        assert s'.cursors[t] == s.cursors[t];
      }
    }
  }

  /** Recorded creation times and their distances do not depend on the cursors beyond the tops. */
  lemma SpacingCarries(cfg: Config, s: System, s': System)
    requires Recorded(s) && Apart(cfg, s)
    requires s'.history.created == s.history.created && s'.history.seedClock >= s.history.seedClock
    requires forall u :: Top(s'.tasks, s'.cursors, u) == Top(s.tasks, s.cursors, u)
    ensures Recorded(s') && Apart(cfg, s')
  {
    forall u, n: nat | 1 <= n <= Top(s'.tasks, s'.cursors, u)
      ensures TaskId(u, n) in s'.history.created && CreatedAt(s', u, n) <= s'.history.seedClock
    {
      assert n <= Top(s.tasks, s.cursors, u);
    }
    forall u, n: nat | u in cfg.templates && 1 <= n && n < Top(s'.tasks, s'.cursors, u)
      ensures CreatedAt(s', u, n) + cfg.templates[u].interval <= CreatedAt(s', u, n + 1)
    {
      assert n < Top(s.tasks, s.cursors, u);
      assert CreatedAt(s', u, n + 1) == CreatedAt(s, u, n + 1);
    }
  }

  lemma PostponeSpaced(cfg: Config, s: System, t: string, now: real)
    requires cfg.Valid() && Numbered(s) && Spaced(cfg, s) && s.history.seedClock <= now
    requires R.Enabled(cfg.templates, s.tasks, s.cursors, s.seeding, R.Postpone(t, now))
    ensures Spaced(cfg, Next(cfg, s, Seed(R.Postpone(t, now))))
  {
    var s' := Next(cfg, s, Seed(R.Postpone(t, now)));
    assert forall u :: R.SequenceOf(s'.cursors, u) == R.SequenceOf(s.cursors, u);
    SpacingCarries(cfg, s, s');
  }

  lemma OtherSpaced(cfg: Config, s: System, s': System)
    requires Spaced(cfg, s) && s'.cursors == s.cursors && (s'.seeding == s.seeding || s'.seeding == None)
    requires s'.history.created == s.history.created && s'.history.seedClock == s.history.seedClock
    requires forall t :: Top(s'.tasks, s.cursors, t) == Top(s.tasks, s.cursors, t)
    ensures Spaced(cfg, s')
  {
    SpacingCarries(cfg, s, s');
  }

  lemma SameTop(ts: Tasks, ts': Tasks, cs: R.Cursors)
    requires RowsMove(ts, ts')
    requires forall id | id in ts' && id !in ts :: !(PREFIX <= id)
    ensures forall t :: Top(ts', cs, t) == Top(ts, cs, t)
  {
    forall t ensures Top(ts', cs, t) == Top(ts, cs, t) {
      RecurringPrefix(t, R.SequenceOf(cs, t) + 1);
    }
  }

  lemma StepSpaced(cfg: Config, s: System, st: Step)
    requires cfg.Valid() && Owned(cfg, s) && Numbered(s) && Spaced(cfg, s)
    requires Enabled(cfg, s, st) && KeepsNames(st) && Timely(s, st)
    ensures Spaced(cfg, Next(cfg, s, st))
  {
    match st
    case Seed(r) =>
      match r {
        case Insert(t, now) => InsertSpaced(cfg, s, t, now);
        case Advance => AdvanceSpaced(cfg, s);
        case Postpone(t, now) => PostponeSpaced(cfg, s, t, now);
      }
    case _ => UnseededSpaced(cfg, s, st);
  }

  lemma UnseededSpaced(cfg: Config, s: System, st: Step)
    requires cfg.Valid() && Owned(cfg, s) && Spaced(cfg, s) && Enabled(cfg, s, st) && KeepsNames(st) && !st.Seed?
    ensures Spaced(cfg, Next(cfg, s, st))
  {
    var s' := Next(cfg, s, st);
    StepOwned(cfg, s, st);
    NewRows(cfg, s, st);
    SameTop(s.tasks, s'.tasks, s.cursors);
    SeederUntouched(cfg, s, st);
    OtherSpaced(cfg, s, s');
  }

  lemma SeederUntouched(cfg: Config, s: System, st: Step)
    requires !st.Seed?
    ensures var s' := Next(cfg, s, st);
            && s'.cursors == s.cursors && (s'.seeding == s.seeding || s'.seeding == None)
            && s'.history.created == s.history.created && s'.history.seedClock == s.history.seedClock
  {
  }

  ghost predicate TimelyRun(cfg: Config, s: System, steps: seq<Step>)
    decreases |steps|
  {
    steps == [] || (Timely(s, steps[0]) && TimelyRun(cfg, Next(cfg, s, steps[0]), steps[1..]))
  }

  /** No catch-up bursts: successive tasks of a template are created at least one interval apart. */
  lemma {:induction false} SpacingAlways(cfg: Config, s: System, steps: seq<Step>)
    requires cfg.Valid() && Owned(cfg, s) && Numbered(s) && Spaced(cfg, s)
    requires Runs(cfg, s, steps) && TimelyRun(cfg, s, steps)
    requires forall st | st in steps :: KeepsNames(st)
    ensures Spaced(cfg, After(cfg, s, steps))
    decreases |steps|
  {
    if steps != [] {
      StepOwned(cfg, s, steps[0]);
      StepNumbered(cfg, s, steps[0]);
      StepSpaced(cfg, s, steps[0]);
      assert forall st | st in steps[1..] :: st in steps;
      SpacingAlways(cfg, Next(cfg, s, steps[0]), steps[1..]);
    }
  }

  /**
   * A due template with nothing unfinished gets its next number: a queued copy of the template, due at
   * once, named by the cursor, and one interval until the next.
   */
  lemma SeedsTheTemplate(cfg: Config, s: System, t: string, now: real)
    requires Numbered(s) && Enabled(cfg, s, Seed(R.Insert(t, now))) && R.NewId(s.cursors, t) !in s.tasks
    ensures var s1 := Next(cfg, s, Seed(R.Insert(t, now)));
            var s2 := Next(cfg, s1, Seed(R.Advance));
            && Enabled(cfg, s1, Seed(R.Advance))
            && t in s2.cursors && s2.cursors[t].sequence == R.SequenceOf(s.cursors, t) + 1
            && s2.cursors[t].taskId == TaskId(t, s2.cursors[t].sequence)
            && s2.cursors[t].nextAt == now + cfg.templates[t].interval
            && s2.tasks == s.tasks[s2.cursors[t].taskId :=
                 Task(cfg.templates[t].kind, cfg.templates[t].objective, cfg.templates[t].payload, Queued, now, 0, now)]
            && (forall u | u != t :: R.NextAt(s2.cursors, u) == R.NextAt(s.cursors, u))
  {
  }

  // ----- due times, with any clock -----

  /** A seeding under way was due when it began. */
  ghost predicate SeedingDue(s: System) {
    s.seeding.Some? ==> R.NextAt(s.cursors, s.seeding.value.template) <= s.seeding.value.at
  }

  predicate WritesCursor(s: System, st: Step, t: string) {
    st.Seed? && ((st.r.Advance? && s.seeding.Some? && s.seeding.value.template == t) || (st.r.Postpone? && st.r.template == t))
  }

  /** Every cursor write moves the next due time of its template strictly forward, and nothing else moves it. */
  lemma {:induction false} StepMovesDue(cfg: Config, s: System, st: Step, t: string)
    requires cfg.Valid() && SeedingDue(s) && Enabled(cfg, s, st)
    ensures SeedingDue(Next(cfg, s, st))
    ensures var due, due' := R.NextAt(s.cursors, t), R.NextAt(Next(cfg, s, st).cursors, t);
            if WritesCursor(s, st, t) then due' > due else due' == due
  {
    if !st.Seed? {
      SeederUntouched(cfg, s, st);
    }
  }

  /** Whether some step of a run writes the cursor of t. */
  ghost predicate WritesWithin(cfg: Config, s: System, steps: seq<Step>, t: string)
    decreases |steps|
  {
    steps != [] && (WritesCursor(s, steps[0], t) || WritesWithin(cfg, Next(cfg, s, steps[0]), steps[1..], t))
  }

  /** Over whole runs, whatever the clock does, a template's next due time rises exactly when its cursor is written. */
  lemma {:induction false} NextDueIncreases(cfg: Config, s: System, steps: seq<Step>, t: string)
    requires cfg.Valid() && SeedingDue(s) && Runs(cfg, s, steps)
    ensures SeedingDue(After(cfg, s, steps))
    ensures var due, due' := R.NextAt(s.cursors, t), R.NextAt(After(cfg, s, steps).cursors, t);
            if WritesWithin(cfg, s, steps, t) then due' > due else due' == due
    decreases |steps|
  {
    if steps != [] {
      StepMovesDue(cfg, s, steps[0], t);
      NextDueIncreases(cfg, Next(cfg, s, steps[0]), steps[1..], t);
    }
  }

  lemma EmptyStoreNumbered(cfg: Config)
    ensures Numbered(FIRST_STORE) && Spaced(cfg, FIRST_STORE) && SeedingDue(FIRST_STORE)
  {
  }

  // ----- who may write rows under recurring ids -----

  /**
   * A row from elsewhere under a fresh id keeps the numbering if and only if the id is no recurring id,
   * or it is the next one of a template with nothing unfinished.
   */
  lemma {:induction false} SubmissionKeepsNumbers(ts: Tasks, cs: R.Cursors, id: string, row: Task)
    requires Numbering(ts, cs) && id !in ts && row.status == Queued
    ensures Numbering(ts[id := row], cs) <==>
            forall t, n: nat | TaskId(t, n) == id :: n == R.SequenceOf(cs, t) + 1 && !R.PreviousActive(ts, cs, t)
  {
    if t, n: nat :| TaskId(t, n) == id {
      if n == R.SequenceOf(cs, t) + 1 && !R.PreviousActive(ts, cs, t) {
        NewRowNumbered(ts, cs, t, row);
        forall u, m: nat | TaskId(u, m) == id ensures u == t && m == n {
          TaskIdInjective(u, m, t, n);
        }
      } else {
        StrayBreaksNumbers(ts, cs, t, n, row);
      }
    } else {
      PlainIdKeepsNumbers(ts, cs, id, row);
    }
  }

  lemma PlainIdKeepsNumbers(ts: Tasks, cs: R.Cursors, id: string, row: Task)
    requires Numbering(ts, cs) && forall t, n: nat :: TaskId(t, n) != id
    ensures Numbering(ts[id := row], cs)
  {
    var ts' := ts[id := row];
    assert forall t, n: nat :: TaskId(t, n) in ts' <==> TaskId(t, n) in ts;
    forall t ensures Top(ts', cs, t) == Top(ts, cs, t) {
      assert R.NewId(cs, t) in ts' <==> R.NewId(cs, t) in ts;
    }
    forall t, n: nat | 1 <= n < Top(ts', cs, t) ensures !IsActive(ts', TaskId(t, n)) {
      assert n < Top(ts, cs, t) && TaskId(t, n) != id;
    }
  }

  lemma StrayBreaksNumbers(ts: Tasks, cs: R.Cursors, t: string, n: nat, row: Task)
    requires Numbering(ts, cs) && TaskId(t, n) !in ts && row.status == Queued
    requires !(n == R.SequenceOf(cs, t) + 1 && !R.PreviousActive(ts, cs, t))
    ensures !Numbering(ts[TaskId(t, n) := row], cs)
  {
    var ts', k := ts[TaskId(t, n) := row], R.SequenceOf(cs, t);
    assert n == 0 || n > Top(ts, cs, t) >= k;
    if n == k + 1 {
      assert TaskId(t, k) in ts && IsActive(ts', TaskId(t, k));
      NotNumbered(ts', cs, t, k);
    } else {
      NotNumbered(ts', cs, t, n);
    }
  }

  lemma NotNumbered(ts: Tasks, cs: R.Cursors, t: string, n: nat)
    requires TaskId(t, n) in ts
    requires !(1 <= n <= Top(ts, cs, t)) || (1 <= n < Top(ts, cs, t) && IsActive(ts, TaskId(t, n)))
    ensures !Numbering(ts, cs)
  {
  }

  /** A submission may choose any id. One that takes a later recurring id leaves a gap. */
  lemma SubmissionBreaksNumbers(cfg: Config)
    ensures var steps := [Boot(0.0)] + [Submission(TaskId("r", 2), "k", "o", map[], 0.0, 0.0)];
            Runs(cfg, FIRST_STORE, steps) && Numbered(FIRST_STORE) && !Numbered(After(cfg, FIRST_STORE, steps))
  {
    var sub := Submission(TaskId("r", 2), "k", "o", map[], 0.0, 0.0);
    var s1 := Next(cfg, FIRST_STORE, Boot(0.0));
    assert s1.up && s1.tasks == map[] && s1.cursors == map[];
    var s2 := Next(cfg, s1, sub);
    OneStep(cfg, s1, sub, []);
    assert [sub] + [] == [sub];
    OneStep(cfg, FIRST_STORE, Boot(0.0), [sub]);
    assert s2.tasks == s1.tasks[TaskId("r", 2) := Task("k", "o", map[], Queued, 0.0, 0, 0.0)];
    NothingNumbered();
    StrayBreaksNumbers(s1.tasks, s1.cursors, "r", 2, s2.tasks[TaskId("r", 2)]);
  }

  lemma NothingNumbered()
    ensures Numbering(map[], map[])
  {
  }
}
