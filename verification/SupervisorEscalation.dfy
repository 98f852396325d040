// Bounded escalation: a worker that stays unhealthy is retried only as often as
// its budget allows, and an escalated job stays where it is for the rest of the life.
module SupervisorEscalation {
  import opened Basics
  import opened Supervisor
  import opened SupervisorLedger

  // ----- what single calls decide -----

  /** All three signals are good. */
  predicate Well(r: Reading) { r.signals.alive && r.signals.heartbeat && r.signals.resource }

  /** The event that obtained the present worker. */
  ghost predicate Obtained(ev: seq<Event>, i: nat) {
    i < |ev| && IsBegin(ev[i]) && forall j | i < j < |ev| :: !IsBegin(ev[j])
  }

  /** The present worker was obtained less than the startup grace ago. */
  ghost predicate Young(ev: seq<Event>, grace: real, now: real) { exists i: nat :: Obtained(ev, i) && now - ev[i].at < grace }

  lemma ObtainedNext(ev: seq<Event>, e: Event, i: nat)
    ensures Obtained(ev + [e], i) <==> if IsBegin(e) then i == |ev| else Obtained(ev, i)
  {
    var all := ev + [e];
    assert all[|ev|] == e && forall j | 0 <= j < |ev| :: all[j] == ev[j];
    if i < |ev| && Obtained(all, i) {
      assert forall j | i < j < |ev| :: !IsBegin(all[j]);
    }
  }

  lemma {:induction false} FindsWorker(ev: seq<Event>)
    ensures forall i: nat | Obtained(ev, i) :: LastBegin(ev) == Some(ev[i].at)
    ensures LastBegin(ev).Some? ==> exists i: nat :: Obtained(ev, i)
    decreases |ev|
  {
    if ev != [] {
      var init, e := ev[..|ev| - 1], ev[|ev| - 1];
      assert ev == init + [e];
      FindsWorker(init);
      forall i: nat ensures Obtained(ev, i) <==> if IsBegin(e) then i == |init| else Obtained(init, i) {
        ObtainedNext(init, e, i);
      }
      assert IsBegin(e) ==> Obtained(ev, |init|);
    }
  }

  lemma LastBeginExactly(ev: seq<Event>, grace: real, now: real)
    ensures Young(ev, grace, now) <==> LastBegin(ev).Some? && now - LastBegin(ev).value < grace
  {
    FindsWorker(ev);
  }

  /**
   * At any point of any life an observation of an unfinished job reads its state off the signals and the
   * age of the worker in the ledger, records it, as a health check exactly when the state stays the same,
   * and touches neither process nor attempts.
   */
  lemma {:induction false} ObservedStates(spec: Spec, attempt0: nat, restarts0: nat, ops: seq<Op>, r: Reading)
    requires spec.Valid()
    ensures var s := Run(spec, Fresh(attempt0, restarts0), ops);
            var s', young := Observe(spec, s, r), Young(s.events, spec.grace, r.graceNow);
            if s.state in {Complete, Cancelled, Escalated} then s'.state == s.state
            else
              && (s'.state == Running <==> Well(r))
              && (s'.state == Failed <==> !r.signals.alive)
              && (s'.state == Verifying <==> r.signals.alive && !Well(r) && young)
              && (s'.state == Stalled <==> r.signals.alive && !Well(r) && !young)
              && s'.events != []
              && s'.events[|s'.events| - 1] ==
                 Event(if s'.state == s.state then HealthCheck else StateChange, s.state, s'.state, r.graceNow)
    ensures var s := Run(spec, Fresh(attempt0, restarts0), ops);
            var s' := Observe(spec, s, r);
            s'.attempt == s.attempt && s'.process == s.process && s'.started == s.started
            && (s'.restarts == s.restarts || (s'.restarts == 0 && Well(r)))
  {
    LedgerIsFaithful(spec, attempt0, restarts0, ops);
    var s := Run(spec, Fresh(attempt0, restarts0), ops);
    LastBeginExactly(s.events, spec.grace, r.graceNow);
  }

  /**
   * At any point of any life a tick recovers the job exactly when recovery is wanted, the job is unfinished,
   * the first reading is unhealthy, and the worker is past its startup grace, when the tick decides and,
   * unless it is dead, already when it was read.
   */
  lemma {:induction false} TickRecoversExactly(spec: Spec, attempt0: nat, restarts0: nat, ops: seq<Op>, t: Tick)
    requires spec.Valid()
    ensures var s := Run(spec, Fresh(attempt0, restarts0), ops);
            var s1 := Observe(spec, s, t.first);
            TickJob(spec, s, t) ==
            if && t.autoRecover && s.state !in {Complete, Cancelled, Escalated} && !Well(t.first)
               && !Young(s.events, spec.grace, t.graceNow)
               && (t.first.signals.alive ==> !Young(s.events, spec.grace, t.first.graceNow))
            then Recover(spec, s1, t.recovery) else s1
  {
    LedgerIsFaithful(spec, attempt0, restarts0, ops);
    var s := Run(spec, Fresh(attempt0, restarts0), ops);
    LastBeginExactly(s.events, spec.grace, t.graceNow);
    LastBeginExactly(s.events, spec.grace, t.first.graceNow);
  }

  /** A job is never escalated while its readings are healthy, and then spends neither retries nor attempts. */
  lemma HealthyTickIsFree(spec: Spec, s: Sup, t: Tick)
    requires !Settled(s.state) && Well(t.first)
    ensures var s' := TickJob(spec, s, t);
            s'.state == Running && s'.restarts <= s.restarts && s'.attempt == s.attempt && s'.process == s.process
  {
  }

  /**
   * A recovery of an ailing job spends exactly one retry and then runs exactly when the start succeeded,
   * or escalates it for lack of retries or of a confirmed termination.
   */
  lemma RecoveryOutcome(spec: Spec, s: Sup, r: Recovery)
    requires s.state !in {Complete, Cancelled, Escalated} && !Well(r.reading)
    requires r.reading.signals.alive && s.started.Some? ==> r.reading.graceNow - s.started.value >= spec.grace
    ensures var s' := Recover(spec, s, r);
            && (s'.state == Escalated <==> s.restarts >= spec.maxRestarts || !r.confirmed)
            && (s'.state != Escalated ==>
                  && s'.restarts == s.restarts + 1
                  && (s'.state == Verifying <==> r.fate.how != Raised)
                  && (s'.state == Failed <==> r.fate.how == Raised)
                  && s'.attempt == s.attempt + (if r.fate.how == Raised then 0 else 1)
                  && (r.fate.how != Raised ==> s'.started == Some(r.fate.endAt) && !s'.budgetFresh))
            && (s'.state == Escalated ==> s'.restarts == s.restarts && s'.attempt == s.attempt && s'.process == s.process)
  {
  }

  // ----- bounded escalation -----

  /** Retries the budget still allows. */
  function Left(spec: Spec, s: Sup): nat { Max(0, spec.maxRestarts - s.restarts) }

  predicate Ailing(t: Tick) {
    t.autoRecover && !t.first.signals.Healthy() && !t.recovery.reading.signals.Healthy()
  }

  /** The clock readings of one tick do not go back. */
  predicate InOrder(t: Tick) {
    t.first.graceNow <= t.graceNow <= t.recovery.reading.graceNow
  }

  function RunTicks(spec: Spec, s: Sup, ticks: seq<Tick>): Sup
    decreases |ticks|
  {
    if ticks == [] then s else RunTicks(spec, TickJob(spec, s, ticks[0]), ticks[1..])
  }

  /** Ticks of the run that begin outside the startup grace of the current worker. */
  function TicksOutsideGrace(spec: Spec, s: Sup, ticks: seq<Tick>): nat
    decreases |ticks|
  {
    if ticks == [] then 0
    else
      (if InGrace(spec, s, ticks[0].first.graceNow) then 0 else 1)
      + TicksOutsideGrace(spec, TickJob(spec, s, ticks[0]), ticks[1..])
  }

  lemma AilingTick(spec: Spec, s: Sup, t: Tick)
    requires Ailing(t) && InOrder(t) && !Settled(s.state)
    ensures var s' := TickJob(spec, s, t);
            || s'.state == Escalated
            || (!Settled(s'.state)
                && if InGrace(spec, s, t.first.graceNow) then Left(spec, s') <= Left(spec, s)
                   else Left(spec, s') < Left(spec, s))
  {
    var s1 := Observe(spec, s, t.first);
    assert s1.restarts == s.restarts && s1.started == s.started;
    if Recovers(spec, s, t) {
      var s2 := Observe(spec, s1, t.recovery.reading);
      assert s2.restarts == s.restarts && s2.state in {Failed, Stalled};
    }
  }

  /** Escalated is final for ticks, observations, recoveries and starts. */
  lemma EscalatedStays(spec: Spec, s: Sup, op: Op)
    requires s.state == Escalated && !op.OpCancel? && !op.OpComplete?
    ensures var s' := Apply(spec, s, op);
            && s'.state == Escalated && s'.process == s.process && s'.attempt == s.attempt
            && forall i | |s.events| <= i < |s'.events| :: IsReset(s'.events[i])
  {
  }

  lemma {:induction false} EscalatedStaysForever(spec: Spec, s: Sup, ops: seq<Op>)
    requires s.state == Escalated && forall op | op in ops :: !op.OpCancel? && !op.OpComplete?
    ensures var s' := Run(spec, s, ops);
            s'.state == Escalated && s'.process == s.process && s'.attempt == s.attempt
    decreases |ops|
  {
    if ops != [] {
      EscalatedStaysForever(spec, s, ops[..|ops| - 1]);
      EscalatedStays(spec, Run(spec, s, ops[..|ops| - 1]), ops[|ops| - 1]);
    }
  }

  /**
   * If every reading is unhealthy, max(0, maxRestarts - restarts) + 1 ticks outside startup
   * grace reach Escalated, however spawns, adoptions and terminations turn out.
   */
  lemma {:induction false} EscalatesWithinBudget(spec: Spec, s: Sup, ticks: seq<Tick>)
    requires !Settled(s.state) || s.state == Escalated
    requires forall t | t in ticks :: Ailing(t) && InOrder(t)
    requires TicksOutsideGrace(spec, s, ticks) >= Left(spec, s) + 1 || s.state == Escalated
    ensures RunTicks(spec, s, ticks).state == Escalated
    decreases |ticks|
  {
    if ticks != [] {
      assert forall t | t in ticks[1..] :: t in ticks;
      if s.state == Escalated {
        EscalatedStays(spec, s, OpTick(ticks[0]));
      } else {
        AilingTick(spec, s, ticks[0]);
      }
      EscalatesWithinBudget(spec, TickJob(spec, s, ticks[0]), ticks[1..]);
    }
  }

  /** Fewer ticks do not escalate a worker whose terminations are confirmed. */
  lemma {:induction false} NotBefore(spec: Spec, s: Sup, ticks: seq<Tick>)
    requires !Settled(s.state)
    requires forall t | t in ticks :: t.recovery.confirmed
    requires |ticks| <= Left(spec, s)
    ensures !Settled(RunTicks(spec, s, ticks).state)
    decreases |ticks|
  {
    if ticks != [] {
      var s' := TickJob(spec, s, ticks[0]);
      TickSpendsAtMostOne(spec, s, ticks[0]);
      assert forall t | t in ticks[1..] :: t in ticks;
      NotBefore(spec, s', ticks[1..]);
    }
  }

  lemma TickSpendsAtMostOne(spec: Spec, s: Sup, t: Tick)
    requires !Settled(s.state) && t.recovery.confirmed && Left(spec, s) > 0
    ensures var s' := TickJob(spec, s, t); !Settled(s'.state) && Left(spec, s') >= Left(spec, s) - 1
  {
  }
}
