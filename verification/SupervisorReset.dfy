// Exactly when the retry budget is reset, as a statement about the ledger, and which
// unhealthy readings can lie between the start of a worker and the reset.
module SupervisorReset {
  import opened Basics
  import opened Supervisor
  import opened SupervisorLedger
  import opened SupervisorEscalation

  // ----- when a reset comes -----

  /** The worker obtained at i is still the present one, had retries behind it, and saw no reset. */
  ghost predicate OpenBegin(ev: seq<Event>, restarts0: nat, i: nat) {
    && i < |ev| && IsBegin(ev[i]) && RestartsOf(ev[..i], restarts0) > 0
    && forall j | i < j < |ev| :: !IsBegin(ev[j]) && !IsReset(ev[j])
  }

  lemma OpenBeginNext(ev: seq<Event>, e: Event, restarts0: nat, i: nat)
    requires i < |ev|
    ensures OpenBegin(ev + [e], restarts0, i) <==> OpenBegin(ev, restarts0, i) && !IsBegin(e) && !IsReset(e)
  {
    var all := ev + [e];
    assert all[..i] == ev[..i] && all[i] == ev[i] && all[|ev|] == e;
    if OpenBegin(all, restarts0, i) {
      forall j | i < j < |ev| ensures !IsBegin(ev[j]) && !IsReset(ev[j]) {
        assert all[j] == ev[j];
      }
    }
  }

  /** The supervisor's two flags say whether there is such a worker, and since when. */
  lemma {:induction false} FlagsFindBegin(ev: seq<Event>, restarts0: nat)
    ensures (exists i: nat :: OpenBegin(ev, restarts0, i)) <==> LastBegin(ev).Some? && !FreshBudget(ev, restarts0)
    ensures forall i: nat | OpenBegin(ev, restarts0, i) :: LastBegin(ev) == Some(ev[i].at) && RestartsOf(ev, restarts0) > 0
    decreases |ev|
  {
    if ev != [] {
      var init, e := ev[..|ev| - 1], ev[|ev| - 1];
      assert ev == init + [e];
      FlagsFindBegin(init, restarts0);
      forall i: nat | i < |init|
        ensures OpenBegin(ev, restarts0, i) <==> OpenBegin(init, restarts0, i) && !IsBegin(e) && !IsReset(e)
      {
        OpenBeginNext(init, e, restarts0, i);
      }
      assert OpenBegin(ev, restarts0, |init|) <==> IsBegin(e) && RestartsOf(init, restarts0) > 0;
      if LastBegin(ev).Some? && !FreshBudget(ev, restarts0) && !IsBegin(e) {
        var i: nat :| OpenBegin(init, restarts0, i);
        assert OpenBegin(ev, restarts0, i);
      }
    }
  }

  ghost predicate Resets(before: seq<Event>, after: seq<Event>) {
    exists k :: |before| <= k < |after| && IsReset(after[k])
  }

  lemma ObserveResets(spec: Spec, s: Sup, r: Reading)
    ensures Resets(s.events, Observe(spec, s, r).events) <==> ResetDue(spec, s, r.signals.Healthy(), r.now)
  {
    var healthy := r.signals.Healthy();
    var ev, s1, s' := s.events, MaybeReset(spec, s, healthy, r.now), Observe(spec, s, r);
    assert |s1.events| <= |s'.events| && s'.events[..|s1.events|] == s1.events;
    if ResetDue(spec, s, healthy, r.now) {
      assert s'.events[|ev|] == s1.events[|ev|] && IsReset(s'.events[|ev|]);
    } else {
      assert forall k | |ev| <= k < |s'.events| :: k == |ev| && !IsReset(s'.events[k]);
    }
  }

  /**
   * At any point of any life an observation resets the budget if and only if the reading is healthy and
   * the ledger ends with a worker obtained at least resetAfter ago, with retries behind it and no reset
   * since. No reading taken in between matters.
   */
  lemma {:induction false} ResetExactly(spec: Spec, attempt0: nat, restarts0: nat, ops: seq<Op>, r: Reading)
    requires spec.Valid()
    ensures var s := Run(spec, Fresh(attempt0, restarts0), ops);
            Resets(s.events, Observe(spec, s, r).events) <==>
            r.signals.Healthy()
            && exists i: nat :: OpenBegin(s.events, restarts0, i) && r.now - s.events[i].at >= spec.resetAfter
  {
    var s := Run(spec, Fresh(attempt0, restarts0), ops);
    LedgerIsFaithful(spec, attempt0, restarts0, ops);
    ObserveResets(spec, s, r);
    FlagsFindBegin(s.events, restarts0);
    if ResetDue(spec, s, r.signals.Healthy(), r.now) {
      var i: nat :| OpenBegin(s.events, restarts0, i);
      assert r.now - s.events[i].at >= spec.resetAfter;
    }
  }

  // ----- what can lie in between -----

  /** A tick that leaves the job with the worker it has. */
  predicate Tolerates(spec: Spec, s: Sup, t: Tick) {
    || Settled(s.state)
    || t.first.signals.Healthy()
    || (t.first.signals.alive && InGrace(spec, s, t.first.graceNow)) || InGrace(spec, s, t.graceNow)
    || t.recovery.reading.signals.Healthy()
    || s.restarts >= spec.maxRestarts || !t.recovery.confirmed
    || t.recovery.fate.how == Raised
  }

  lemma TickTolerates(spec: Spec, s: Sup, t: Tick)
    requires t.autoRecover && InOrder(t)
    ensures TickJob(spec, s, t).attempt == s.attempt + if Tolerates(spec, s, t) then 0 else 1
  {
    var s1 := Observe(spec, s, t.first);
    assert s1.attempt == s.attempt && s1.started == s.started;
    if Recovers(spec, s, t) {
      var s2 := Observe(spec, s1, t.recovery.reading);
      assert s2.attempt == s.attempt && (!t.recovery.reading.signals.Healthy() ==> s2.restarts == s.restarts);
    }
  }

  lemma {:induction false} RunTicksPush(spec: Spec, s: Sup, ticks: seq<Tick>, t: Tick)
    ensures RunTicks(spec, s, ticks + [t]) == TickJob(spec, RunTicks(spec, s, ticks), t)
    decreases |ticks|
  {
    if ticks == [] {
      assert RunTicks(spec, s, [t]) == RunTicks(spec, TickJob(spec, s, t), [t][1..]);
    } else {
      assert (ticks + [t])[1..] == ticks[1..] + [t];
      RunTicksPush(spec, TickJob(spec, s, ticks[0]), ticks[1..], t);
    }
  }

  ghost predicate ToleratesAll(spec: Spec, s: Sup, ticks: seq<Tick>) {
    forall k | 0 <= k < |ticks| :: Tolerates(spec, RunTicks(spec, s, ticks[..k]), ticks[k])
  }

  /**
   * The worker outlives a stretch of ticks if and only if each unhealthy tick falls into startup grace,
   * is taken back by the second reading, finds the job finished or its retries used up, or fails to stop
   * the old worker or to start a new one. Readings of all these kinds can precede a reset.
   */
  lemma {:induction false} SameWorkerExactly(spec: Spec, s: Sup, ticks: seq<Tick>)
    requires forall t | t in ticks :: t.autoRecover && InOrder(t)
    ensures RunTicks(spec, s, ticks).attempt >= s.attempt
    ensures RunTicks(spec, s, ticks).attempt == s.attempt <==> ToleratesAll(spec, s, ticks)
    decreases |ticks|
  {
    if ticks != [] {
      var init, t := ticks[..|ticks| - 1], ticks[|ticks| - 1];
      assert ticks == init + [t] && t in ticks && forall u | u in init :: u in ticks;
      SameWorkerExactly(spec, s, init);
      RunTicksPush(spec, s, init, t);
      TickTolerates(spec, RunTicks(spec, s, init), t);
      ToleratesNext(spec, s, init, t);
    }
  }

  lemma ToleratesNext(spec: Spec, s: Sup, ticks: seq<Tick>, t: Tick)
    ensures ToleratesAll(spec, s, ticks + [t]) <==>
            ToleratesAll(spec, s, ticks) && Tolerates(spec, RunTicks(spec, s, ticks), t)
  {
    var all := ticks + [t];
    assert forall k | 0 <= k < |ticks| :: all[..k] == ticks[..k] && all[k] == ticks[k];
    assert all[..|ticks|] == ticks && all[|ticks|] == t;
    if ToleratesAll(spec, s, all) {
      forall k | 0 <= k < |ticks| ensures Tolerates(spec, RunTicks(spec, s, ticks[..k]), ticks[k]) {
        assert Tolerates(spec, RunTicks(spec, s, all[..k]), all[k]);
      }
      assert Tolerates(spec, RunTicks(spec, s, all[..|ticks|]), all[|ticks|]);
    }
  }

  // ----- the documented condition fails -----

  const DOC: Spec := Spec(3, 100.0, 5.0)
  const WELL: Signals := Signals(true, true, true)
  const STALE: Signals := Signals(true, false, true)
  const UNUSED: Recovery := Recovery(Reading(WELL, 50.0, 50.0), true, 50.0, Fate(Raised, None, 50.0, 50.0))
  const BEGUN: Sup := Start(Fresh(1, 1), Fate(Spawned, Some(Own(7)), 0.0, 0.0))

  /**
   * The documentation asks for a continuously healthy interval. Here a tick at time 50 finds the worker
   * stalled, its recovery finds it healthy again and leaves it, and the tick at time 100 resets.
   */
  lemma ResetDespiteStall()
    ensures var ticks := [Tick(Reading(STALE, 50.0, 50.0), true, 50.0, UNUSED)]
                         + [Tick(Reading(WELL, 100.0, 100.0), true, 100.0, UNUSED)];
            var s := RunTicks(DOC, BEGUN, ticks);
            && BEGUN.restarts == 1 && s.restarts == 0 && s.attempt == BEGUN.attempt
            && Resets(BEGUN.events, s.events)
            && exists i :: |BEGUN.events| <= i < |s.events| && s.events[i].next == Stalled
  {
    var a, b := Tick(Reading(STALE, 50.0, 50.0), true, 50.0, UNUSED), Tick(Reading(WELL, 100.0, 100.0), true, 100.0, UNUSED);
    var s1 := TickJob(DOC, BEGUN, a);
    var s2 := TickJob(DOC, s1, b);
    RunTicksPush(DOC, BEGUN, [a], b);
    assert RunTicks(DOC, BEGUN, [a]) == RunTicks(DOC, s1, [a][1..]) == s1;
    var n := |BEGUN.events|;
    StalledAndBack();
    assert s2.events[..n + 2] == s1.events;
    assert s2.events[n] == s1.events[n];
    assert IsReset(s2.events[n + 2]);
  }

  lemma StalledAndBack()
    ensures var s1 := TickJob(DOC, BEGUN, Tick(Reading(STALE, 50.0, 50.0), true, 50.0, UNUSED));
            && |s1.events| == |BEGUN.events| + 2 && s1.events[|BEGUN.events|].next == Stalled
            && s1.state == Running && s1.restarts == 1 && !s1.budgetFresh && s1.started == Some(0.0)
            && s1.attempt == BEGUN.attempt
  {
  }
}
