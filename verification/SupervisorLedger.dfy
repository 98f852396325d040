// The event list of a supervisor is a faithful ledger, and the ledger bounds how
// often a worker is restarted, over every timed run of one manager life.
module SupervisorLedger {
  import opened Basics
  import opened Supervisor

  predicate IsRestart(e: Event) { e.kind == StateChange && e.next == Retrying }

  predicate IsReset(e: Event) { e.kind == BudgetReset }

  predicate IsBegin(e: Event) { e.kind in {WorkerStarted, WorkerAdopted} }

  // ----- folding the ledger -----

  function StateOf(ev: seq<Event>): JobState { if ev == [] then Queued else ev[|ev| - 1].next }

  function AttemptsOf(ev: seq<Event>, initial: nat): nat {
    if ev == [] then initial
    else AttemptsOf(ev[..|ev| - 1], initial) + if IsBegin(ev[|ev| - 1]) then 1 else 0
  }

  /** Retries since the last reset, counting the persisted ones until the first reset. */
  function RestartsOf(ev: seq<Event>, initial: nat): nat {
    if ev == [] then initial
    else if IsReset(ev[|ev| - 1]) then 0
    else RestartsOf(ev[..|ev| - 1], initial) + if IsRestart(ev[|ev| - 1]) then 1 else 0
  }

  /** When the present worker was obtained. */
  function LastBegin(ev: seq<Event>): Option<real> {
    if ev == [] then None
    else if IsBegin(ev[|ev| - 1]) then Some(ev[|ev| - 1].at)
    else LastBegin(ev[..|ev| - 1])
  }

  /** No retries have been left to forget since the last reset or the last worker. */
  predicate FreshBudget(ev: seq<Event>, initial: nat) {
    if ev == [] then initial == 0
    else if IsReset(ev[|ev| - 1]) then true
    else if IsBegin(ev[|ev| - 1]) then RestartsOf(ev[..|ev| - 1], initial) == 0
    else FreshBudget(ev[..|ev| - 1], initial)
  }

  ghost predicate Chained(ev: seq<Event>) {
    && (ev != [] ==> ev[0].previous == Queued)
    && forall i | 0 < i < |ev| :: ev[i].previous == ev[i - 1].next
  }

  ghost predicate Faithful(s: Sup, attempt0: nat, restarts0: nat) {
    && Chained(s.events)
    && s.state == StateOf(s.events)
    && s.attempt == AttemptsOf(s.events, attempt0)
    && s.restarts == RestartsOf(s.events, restarts0)
    && s.started == LastBegin(s.events)
    && s.budgetFresh == FreshBudget(s.events, restarts0)
  }

  // ----- the timed invariant -----

  ghost predicate Ascending(clock: real, times: seq<real>) {
    && (forall i | 0 <= i < |times| :: clock <= times[i])
    && (forall i, j | 0 <= i <= j < |times| :: times[i] <= times[j])
  }

  ghost predicate Sorted(ev: seq<Event>, clock: real) {
    && (forall i, j | 0 <= i <= j < |ev| :: ev[i].at <= ev[j].at)
    && (forall i | 0 <= i < |ev| :: ev[i].at <= clock)
  }

  ghost predicate ResetsApart(ev: seq<Event>, gap: real) {
    forall i, j | 0 <= i < j < |ev| && IsReset(ev[i]) && IsReset(ev[j]) :: ev[j].at - ev[i].at >= gap
  }

  /** No retry takes the count since the last reset beyond the cap. */
  ghost predicate Capped(ev: seq<Event>, restarts0: nat, cap: nat) {
    forall i | 0 <= i < |ev| && IsRestart(ev[i]) :: RestartsOf(ev[..i + 1], restarts0) <= cap
  }

  /** A reset that can still come is measured from a start after every earlier reset. */
  ghost predicate Anchored(s: Sup) {
    !s.budgetFresh && s.started.Some? ==>
      forall i | 0 <= i < |s.events| && IsReset(s.events[i]) :: s.events[i].at <= s.started.value
  }

  /** One manager life: its configuration, its persisted counters, and whether its clock is sane. */
  datatype Life = Life(spec: Spec, attempt0: nat, restarts0: nat, timed: bool)

  ghost predicate Books(life: Life, s: Sup, clock: real) {
    && Faithful(s, life.attempt0, life.restarts0)
    && Capped(s.events, life.restarts0, life.spec.maxRestarts)
    && (life.timed ==> Sorted(s.events, clock) && ResetsApart(s.events, life.spec.resetAfter) && Anchored(s))
  }

  // ----- each write to the ledger keeps the books -----

  lemma Folds(ev: seq<Event>, e: Event, attempt0: nat, restarts0: nat, cap: nat)
    requires Capped(ev, restarts0, cap)
    ensures AttemptsOf(ev + [e], attempt0) == AttemptsOf(ev, attempt0) + if IsBegin(e) then 1 else 0
    ensures RestartsOf(ev + [e], restarts0) ==
            if IsReset(e) then 0 else RestartsOf(ev, restarts0) + if IsRestart(e) then 1 else 0
    ensures LastBegin(ev + [e]) == if IsBegin(e) then Some(e.at) else LastBegin(ev)
    ensures FreshBudget(ev + [e], restarts0) ==
            if IsReset(e) then true else if IsBegin(e) then RestartsOf(ev, restarts0) == 0 else FreshBudget(ev, restarts0)
    ensures (IsRestart(e) ==> RestartsOf(ev, restarts0) < cap) ==> Capped(ev + [e], restarts0, cap)
  {
    var ev' := ev + [e];
    assert ev'[..|ev|] == ev && ev'[..|ev'|] == ev';
    forall i | 0 <= i < |ev| && IsRestart(ev'[i])
      ensures RestartsOf(ev'[..i + 1], restarts0) <= cap
    {
      assert ev'[..i + 1] == ev[..i + 1] && IsRestart(ev[i]);
    }
  }

  /** One appended event: a plain move, a retry, a reset or a begun attempt. */
  ghost predicate Writes(life: Life, s: Sup, s': Sup, kind: EventKind, at: real) {
    && s'.events == s.events + [Event(kind, s.state, s'.state, at)]
    && s'.attempt == s.attempt + (if kind in {WorkerStarted, WorkerAdopted} then 1 else 0)
    && s'.restarts == (if kind == BudgetReset then 0
                       else s.restarts + if kind == StateChange && s'.state == Retrying then 1 else 0)
    && (kind == StateChange && s'.state == Retrying ==> s.restarts < life.spec.maxRestarts)
    && (kind == BudgetReset ==>
          !s.budgetFresh && s.started.Some? && at - s.started.value >= life.spec.resetAfter)
    && s'.started == (if kind in {WorkerStarted, WorkerAdopted} then Some(at) else s.started)
    && s'.budgetFresh == (if kind == BudgetReset then true
                          else if kind in {WorkerStarted, WorkerAdopted} then s.restarts == 0 else s.budgetFresh)
  }

  lemma WritesKeepBooks(life: Life, s: Sup, clock: real, s': Sup, kind: EventKind, at: real)
    requires life.spec.Valid() && Books(life, s, clock) && (life.timed ==> clock <= at)
    requires Writes(life, s, s', kind, at)
    ensures Books(life, s', at)
  {
    var e := Event(kind, s.state, s'.state, at);
    Folds(s.events, e, life.attempt0, life.restarts0, life.spec.maxRestarts);
    if life.timed {
      WritesKeepTime(life, s, clock, s', e);
    }
  }

  lemma WritesKeepTime(life: Life, s: Sup, clock: real, s': Sup, e: Event)
    requires Sorted(s.events, clock) && ResetsApart(s.events, life.spec.resetAfter) && Anchored(s) && clock <= e.at
    requires e.next == s'.state && e.previous == s.state && Writes(life, s, s', e.kind, e.at)
    ensures Sorted(s'.events, e.at) && ResetsApart(s'.events, life.spec.resetAfter) && Anchored(s')
  {
    var ev, ev', n := s.events, s'.events, |s.events|;
    assert ev' == ev + [e];
    forall i, j | 0 <= i < j < |ev'| && IsReset(ev'[i]) && IsReset(ev'[j])
      ensures ev'[j].at - ev'[i].at >= life.spec.resetAfter
    {
      assert IsReset(ev[i]);
      if j < n {
        assert IsReset(ev[j]);
      }
    }
    forall i | 0 <= i < |ev'| && IsReset(ev'[i]) && !s'.budgetFresh && s'.started.Some?
      ensures ev'[i].at <= s'.started.value
    {
      if i < n {
        assert IsReset(ev[i]);
      }
    }
  }

  // ----- every operation is a sequence of such writes -----

  /** A claim that survives waiting and every single write. */
  ghost predicate Closed(life: Life, claim: (Sup, real) -> bool) {
    && (forall s, clock, at | claim(s, clock) && (life.timed ==> clock <= at) :: claim(s, at))
    && (forall s, clock, s', kind, at |
          claim(s, clock) && (life.timed ==> clock <= at) && Writes(life, s, s', kind, at) :: claim(s', at))
  }

  lemma ObserveKeeps(life: Life, claim: (Sup, real) -> bool, s: Sup, clock: real, r: Reading)
    requires life.spec.Valid() && Closed(life, claim) && claim(s, clock) && (life.timed ==> clock <= r.now <= r.graceNow)
    ensures claim(Observe(life.spec, s, r), r.graceNow)
  {
    var healthy := r.signals.Healthy();
    var s1 := MaybeReset(life.spec, s, healthy, r.now);
    if ResetDue(life.spec, s, healthy, r.now) {
      assert Writes(life, s, s1, BudgetReset, r.now);
    }
    assert claim(s1, r.now);
    if !Settled(s1.state) {
      var next := Judge(life.spec, s1, r.signals, r.graceNow);
      var kind := if next != s1.state then StateChange else HealthCheck;
      assert Writes(life, s1, Observe(life.spec, s, r), kind, r.graceNow);
    }
  }

  lemma StartKeeps(life: Life, claim: (Sup, real) -> bool, s: Sup, clock: real, f: Fate)
    requires life.spec.Valid() && Closed(life, claim) && claim(s, clock) && (life.timed ==> clock <= f.beginAt <= f.endAt)
    ensures claim(Start(s, f), f.endAt)
  {
    if Startable(s.state) {
      var s1 := Emit(s, StateChange, Starting, f.beginAt).(process := f.process);
      assert Writes(life, s, s1, StateChange, f.beginAt);
      assert claim(s1, f.beginAt);
      var kind := match f.how case Raised => StateChange case Spawned => WorkerStarted case Adopted => WorkerAdopted;
      assert Writes(life, s1, Start(s, f), kind, f.endAt);
    }
  }

  lemma RecoverKeeps(life: Life, claim: (Sup, real) -> bool, s: Sup, clock: real, r: Recovery)
    requires life.spec.Valid() && Closed(life, claim) && claim(s, clock)
    requires life.timed ==> clock <= r.reading.now <= r.reading.graceNow <= r.actAt <= r.fate.beginAt <= r.fate.endAt
    ensures claim(Recover(life.spec, s, r), r.fate.endAt)
  {
    ObserveKeeps(life, claim, s, clock, r.reading);
    var s1 := Observe(life.spec, s, r.reading);
    match CourseOf(life.spec, s1, r.reading.signals.Healthy(), r.confirmed)
    case Leave =>
    case Restart =>
      assert Writes(life, s1, Retry(s1, r.actAt), StateChange, r.actAt);
      StartKeeps(life, claim, Retry(s1, r.actAt), r.actAt, r.fate);
    case _ =>
      assert Writes(life, s1, Recover(life.spec, s, r), StateChange, r.actAt);
  }

  lemma ApplyKeeps(life: Life, claim: (Sup, real) -> bool, s: Sup, clock: real, op: Op)
    requires life.spec.Valid() && Closed(life, claim) && claim(s, clock) && (life.timed ==> Ascending(clock, Times(op)))
    ensures claim(Apply(life.spec, s, op), LastTime(clock, Times(op)))
  {
    var t := Times(op);
    match op
    case OpObserve(r) =>
      assert life.timed ==> clock <= t[0] <= t[1];
      ObserveKeeps(life, claim, s, clock, r);
    case OpRecover(r) =>
      assert life.timed ==> clock <= t[0] <= t[1] <= t[2] <= t[3] <= t[4];
      RecoverKeeps(life, claim, s, clock, r);
    case OpStart(f) =>
      assert life.timed ==> clock <= t[0] <= t[1];
      StartKeeps(life, claim, s, clock, f);
    case OpCancel(at) => assert Cancel(s, at) != s ==> Writes(life, s, Cancel(s, at), StateChange, at);
    case OpComplete(at) => assert Writes(life, s, MarkComplete(s, at), StateChange, at);
    case OpTick(tick) => TickKeeps(life, claim, s, clock, tick);
  }

  lemma TickKeeps(life: Life, claim: (Sup, real) -> bool, s: Sup, clock: real, t: Tick)
    requires life.spec.Valid() && Closed(life, claim) && claim(s, clock) && (life.timed ==> Ascending(clock, Times(OpTick(t))))
    ensures claim(TickJob(life.spec, s, t), t.recovery.fate.endAt)
  {
    var times := Times(OpTick(t));
    assert times[3..] == RecoveryTimes(t.recovery);
    assert times == [times[0], times[1], times[2], times[3], times[4], times[5], times[6], times[7]];
    var s1 := Observe(life.spec, s, t.first);
    assert life.timed ==> clock <= times[0] <= times[1] <= times[2] <= times[3] <= times[4] <= times[5] <= times[6] <= times[7];
    ObserveKeeps(life, claim, s, clock, t.first);
    if Recovers(life.spec, s, t) {
      RecoverKeeps(life, claim, s1, t.first.graceNow, t.recovery);
    }
  }

  // ----- every run -----

  function AllTimes(ops: seq<Op>): seq<real> {
    if ops == [] then [] else AllTimes(ops[..|ops| - 1]) + Times(ops[|ops| - 1])
  }

  function LastTime(clock: real, times: seq<real>): real {
    if times == [] then clock else times[|times| - 1]
  }

  lemma {:induction false} RunKeeps(life: Life, claim: (Sup, real) -> bool, ops: seq<Op>, clock: real)
    requires life.spec.Valid() && Closed(life, claim) && claim(Fresh(life.attempt0, life.restarts0), clock)
    requires life.timed ==> Ascending(clock, AllTimes(ops))
    ensures claim(Run(life.spec, Fresh(life.attempt0, life.restarts0), ops), LastTime(clock, AllTimes(ops)))
    decreases |ops|
  {
    if ops != [] {
      var before, op := ops[..|ops| - 1], ops[|ops| - 1];
      var a, b := AllTimes(before), Times(op);
      assert AllTimes(ops) == a + b;
      assert a == (a + b)[..|a|] && b == (a + b)[|a|..];
      RunKeeps(life, claim, before, clock);
      ApplyKeeps(life, claim, Run(life.spec, Fresh(life.attempt0, life.restarts0), before), LastTime(clock, a), op);
    }
  }

  lemma RunBooks(life: Life, ops: seq<Op>, clock: real)
    requires life.spec.Valid() && (life.timed ==> Ascending(clock, AllTimes(ops)))
    ensures Books(life, Run(life.spec, Fresh(life.attempt0, life.restarts0), ops), LastTime(clock, AllTimes(ops)))
  {
    var claim := (s: Sup, c: real) => Books(life, s, c);
    forall s, c, s', kind, at | claim(s, c) && (life.timed ==> c <= at) && Writes(life, s, s', kind, at)
      ensures claim(s', at)
    {
      WritesKeepBooks(life, s, c, s', kind, at);
    }
    RunKeeps(life, claim, ops, clock);
  }

  /** The ledger alone determines state, attempt and restart count, whatever the clock does. */
  lemma {:induction false} LedgerIsFaithful(spec: Spec, attempt0: nat, restarts0: nat, ops: seq<Op>)
    requires spec.Valid()
    ensures Faithful(Run(spec, Fresh(attempt0, restarts0), ops), attempt0, restarts0)
  {
    RunBooks(Life(spec, attempt0, restarts0, false), ops, 0.0);
  }

  /** Two budget resets are at least resetAfter apart. */
  lemma ResetsAreApart(spec: Spec, attempt0: nat, restarts0: nat, ops: seq<Op>, clock: real)
    requires spec.Valid() && Ascending(clock, AllTimes(ops))
    ensures ResetsApart(Run(spec, Fresh(attempt0, restarts0), ops).events, spec.resetAfter)
  {
    RunBooks(Life(spec, attempt0, restarts0, true), ops, clock);
  }

  // ----- counting restarts in windows of the ledger -----

  function Restarts(ev: seq<Event>, lo: nat, hi: nat): nat
    requires lo <= hi <= |ev|
    decreases hi
  {
    if lo == hi then 0 else Restarts(ev, lo, hi - 1) + if IsRestart(ev[hi - 1]) then 1 else 0
  }

  function Resets(ev: seq<Event>, lo: nat, hi: nat): nat
    requires lo <= hi <= |ev|
    decreases hi
  {
    if lo == hi then 0 else Resets(ev, lo, hi - 1) + if IsReset(ev[hi - 1]) then 1 else 0
  }

  /** Between resets at most `cap` restarts fit, so k resets leave room for (k + 1) * cap. */
  lemma {:induction false} RestartsBetweenResets(ev: seq<Event>, restarts0: nat, cap: nat, lo: nat, hi: nat)
    returns (sinceReset: nat)
    requires lo <= hi <= |ev| && Capped(ev, restarts0, cap)
    ensures sinceReset <= cap && sinceReset <= RestartsOf(ev[..hi], restarts0)
    ensures Restarts(ev, lo, hi) <= cap * Resets(ev, lo, hi) + sinceReset
    decreases hi
  {
    sinceReset := 0;
    if lo < hi {
      var before := RestartsBetweenResets(ev, restarts0, cap, lo, hi - 1);
      assert ev[..hi][..hi - 1] == ev[..hi - 1];
      var e := ev[hi - 1];
      var k := Resets(ev, lo, hi - 1);
      if IsReset(e) {
        assert cap * (k + 1) == cap * k + cap;
      } else {
        sinceReset := before + if IsRestart(e) then 1 else 0;
        assert IsRestart(e) ==> RestartsOf(ev[..hi - 1 + 1], restarts0) <= cap;
      }
    }
  }

  function Multiple(k: nat, gap: real): real { if k == 0 then 0.0 else Multiple(k - 1, gap) + gap }

  /** k + 1 resets span at least k gaps. */
  lemma {:induction false} ResetsSpan(ev: seq<Event>, gap: real, lo: nat, hi: nat) returns (first: nat, last: nat)
    requires lo <= hi <= |ev| && ResetsApart(ev, gap)
    ensures Resets(ev, lo, hi) > 0 ==>
              && lo <= first <= last < hi && IsReset(ev[first]) && IsReset(ev[last])
              && ev[last].at - ev[first].at >= Multiple(Resets(ev, lo, hi) - 1, gap)
    decreases hi
  {
    first, last := lo, lo;
    if lo < hi {
      first, last := ResetsSpan(ev, gap, lo, hi - 1);
      if IsReset(ev[hi - 1]) {
        first := if Resets(ev, lo, hi - 1) == 0 then hi - 1 else first;
        last := hi - 1;
      }
    }
  }

  /** Restarts recorded with a time in [a, b]. */
  function RestartsWithin(ev: seq<Event>, a: real, b: real): nat {
    if ev == [] then 0
    else
      var e := ev[|ev| - 1];
      RestartsWithin(ev[..|ev| - 1], a, b) + if IsRestart(e) && a <= e.at <= b then 1 else 0
  }

  /** In a time-sorted ledger the events of a window are a contiguous slice. */
  lemma {:induction false} WindowIsSlice(ev: seq<Event>, clock: real, a: real, b: real) returns (lo: nat, hi: nat)
    requires Sorted(ev, clock) && a <= b
    ensures lo <= hi <= |ev|
    ensures forall i | 0 <= i < |ev| :: (i < lo <==> ev[i].at < a) && (i < hi <==> ev[i].at <= b)
    ensures RestartsWithin(ev, a, b) == Restarts(ev, lo, hi)
    decreases |ev|
  {
    lo, hi := 0, 0;
    if ev != [] {
      var n := |ev| - 1;
      lo, hi := WindowIsSlice(ev[..n], clock, a, b);
      SliceOfPrefix(ev, n, lo, hi);
      assert forall i | 0 <= i < n :: ev[..n][i] == ev[i];
      if ev[n].at < a {
        lo, hi := n + 1, n + 1;
      } else if ev[n].at <= b {
        hi := n + 1;
      }
    }
  }

  lemma {:induction false} SliceOfPrefix(ev: seq<Event>, n: nat, lo: nat, hi: nat)
    requires lo <= hi <= n <= |ev|
    ensures Restarts(ev[..n], lo, hi) == Restarts(ev, lo, hi)
    decreases hi
  {
    if lo < hi {
      SliceOfPrefix(ev, n, lo, hi - 1);
    }
  }

  /** Resets that lie in a window of length w. */
  lemma ResetsInWindow(ev: seq<Event>, gap: real, lo: nat, hi: nat, a: real, w: real)
    requires lo <= hi <= |ev| && ResetsApart(ev, gap) && gap > 0.0 && w >= 0.0
    requires forall i | lo <= i < hi :: a <= ev[i].at <= a + w
    ensures Resets(ev, lo, hi) <= 1 + (w / gap).Floor
  {
    var first, last := ResetsSpan(ev, gap, lo, hi);
    MultiplesWithin(if Resets(ev, lo, hi) > 0 then Resets(ev, lo, hi) - 1 else 0, gap, w);
  }

  lemma {:induction false} MultiplesWithin(k: nat, gap: real, w: real)
    requires gap > 0.0 && w >= 0.0 && Multiple(k, gap) <= w
    ensures k <= (w / gap).Floor
    decreases k
  {
    if k == 0 {
      assert w / gap >= 0.0;
    } else {
      MultiplePositive(k - 1, gap);
      MultiplesWithin(k - 1, gap, w - gap);
      OneLess(w, gap);
    }
  }

  lemma {:induction false} MultiplePositive(k: nat, gap: real)
    requires gap > 0.0
    ensures Multiple(k, gap) >= 0.0
  {
    if k > 0 {
      MultiplePositive(k - 1, gap);
    }
  }

  lemma OneLess(w: real, gap: real)
    requires gap > 0.0
    ensures (w / gap).Floor == ((w - gap) / gap).Floor + 1
  {
    var q, p := (w - gap) / gap, w / gap;
    assert (q + 1.0) * gap == w == p * gap;
    SameMultiple(q + 1.0, p, gap);
    FloorPlusOne(q);
  }

  lemma SameMultiple(x: real, y: real, gap: real)
    requires gap > 0.0 && x * gap == y * gap
    ensures x == y
  {
    assert (x - y) * gap == 0.0;
  }

  lemma FloorPlusOne(q: real)
    ensures (q + 1.0).Floor == q.Floor + 1
  {
  }

  lemma {:induction false} Scale(m: nat, a: nat, b: int)
    requires a + 1 <= b
    ensures m * a + m <= m * b
    decreases m
  {
    if m > 0 {
      Scale(m - 1, a, b);
      assert m * a == (m - 1) * a + a && m * b == (m - 1) * b + b;
    }
  }

  /** The window bound for any ledger that is sorted, capped and has its resets apart. */
  lemma WindowBound(ev: seq<Event>, restarts0: nat, cap: nat, gap: real, clock: real, a: real, w: real)
    requires Sorted(ev, clock) && Capped(ev, restarts0, cap) && ResetsApart(ev, gap) && gap > 0.0 && w >= 0.0
    ensures RestartsWithin(ev, a, a + w) <= cap * (2 + (w / gap).Floor)
  {
    var lo, hi := WindowIsSlice(ev, clock, a, a + w);
    var open := RestartsBetweenResets(ev, restarts0, cap, lo, hi);
    ResetsInWindow(ev, gap, lo, hi, a, w);
    Scale(cap, Resets(ev, lo, hi), 2 + (w / gap).Floor);
  }

  /**
   * Any window of length w holds at most maxRestarts * (2 + floor(w / resetAfter)) restarts,
   * whatever health readings, terminations and starts report.
   */
  lemma RestartsInAnyWindow(spec: Spec, attempt0: nat, restarts0: nat, ops: seq<Op>, clock: real, a: real, w: real)
    requires spec.Valid() && Ascending(clock, AllTimes(ops)) && w >= 0.0
    ensures RestartsWithin(Run(spec, Fresh(attempt0, restarts0), ops).events, a, a + w)
            <= spec.maxRestarts * (2 + (w / spec.resetAfter).Floor)
  {
    var ev, end := TimedLedger(spec, attempt0, restarts0, ops, clock);
    WindowBound(ev, restarts0, spec.maxRestarts, spec.resetAfter, end, a, w);
  }

  lemma TimedLedger(spec: Spec, attempt0: nat, restarts0: nat, ops: seq<Op>, clock: real) returns (ev: seq<Event>, end: real)
    requires spec.Valid() && Ascending(clock, AllTimes(ops))
    ensures ev == Run(spec, Fresh(attempt0, restarts0), ops).events
    ensures Sorted(ev, end) && Capped(ev, restarts0, spec.maxRestarts) && ResetsApart(ev, spec.resetAfter)
  {
    RunBooks(Life(spec, attempt0, restarts0, true), ops, clock);
    ev, end := Run(spec, Fresh(attempt0, restarts0), ops).events, LastTime(clock, AllTimes(ops));
  }
}
