// What one dispatcher step does to the rows, told in their fields: which work a claim
// hands out, what a handler's reply means, and how work is given back.
module DispatchResults {
  import opened Basics
  import opened TaskTable
  import opened Dispatch
  import Text

  /** Queued, due and of a kind the dispatcher may take. */
  predicate Ripe(cfg: Config, t: Task, now: real) {
    t.status == Queued && t.scheduledAt <= now && t.kind !in cfg.reserved
  }

  predicate Earlier(ts: Tasks, a: string, b: string)
    requires a in ts && b in ts
  {
    ts[a].scheduledAt < ts[b].scheduledAt || (ts[a].scheduledAt == ts[b].scheduledAt && Text.Less(a, b))
  }

  /** The limit given, kept between 1 and 100 and within the free slots. */
  function Allowed(cfg: Config, m: Mem, limit: int): int {
    var wanted := if limit < 1 then 1 else if limit > 100 then 100 else limit;
    var free := cfg.maxInFlight - |m.pending|;
    if cfg.background && free < wanted then free else wanted
  }

  /**
   * A claim hands out ripe rows only, in order of schedule and id, and the earliest ones: a ripe row is
   * left only when as many as allowed come before it. The handed rows run with one more attempt.
   */
  lemma {:induction false} ClaimExactly(cfg: Config, ts: Tasks, m: Mem, ids: seq<string>, limit: int, now: real)
    requires Enabled(cfg, ts, m, ClaimStep(ids, limit, now))
    ensures |ids| <= Allowed(cfg, m, limit)
    ensures forall i | 0 <= i < |ids| :: ids[i] in ts && Ripe(cfg, ts[ids[i]], now)
    ensures forall i, j | 0 <= i < j < |ids| :: ids[i] != ids[j] && Earlier(ts, ids[i], ids[j])
    ensures forall id | id in ts && Ripe(cfg, ts[id], now) && id !in ids ::
              |ids| == Allowed(cfg, m, limit) && forall i | 0 <= i < |ids| :: Earlier(ts, ids[i], id)
    ensures var ts' := Table(cfg, ts, m, ClaimStep(ids, limit, now));
            && ts'.Keys == ts.Keys
            && (forall id | id in ts && id !in ids :: ts'[id] == ts[id])
            && (forall id | id in ids :: ts'[id] == ts[id].(status := Running, attempts := ts[id].attempts + 1, updated := now))
    ensures var ts', batch := Table(cfg, ts, m, ClaimStep(ids, limit, now)), Memory(cfg, ts, m, ClaimStep(ids, limit, now)).batch;
            |batch| == |ids| && forall i | 0 <= i < |ids| ::
              batch[i] == Item(ids[i], ts'[ids[i]].kind, ts'[ids[i]].objective, ts'[ids[i]].payload, ts'[ids[i]].attempts)
  {
    assert forall i | 0 <= i < |ids| :: Due(ts, ids[i], now, cfg.reserved);
    assert forall id | id in ids :: Due(ts, id, now, cfg.reserved);
    assert forall id | id in ts && Ripe(cfg, ts[id], now) :: Due(ts, id, now, cfg.reserved);
    assert Limit(cfg, m, limit) == Allowed(cfg, m, limit);
    SelectionDistinct(ts, now, cfg.reserved, Limit(cfg, m, limit), ids);
  }

  /** The row a step is about. */
  function Subject(m: Mem, st: Step): string
    requires st.Collect? || st.Release? || ((st.Settle? || st.Defer?) && m.batch != [])
  {
    if st.Collect? || st.Release? then st.id else m.batch[0].id
  }

  predicate OnlyChanges(ts: Tasks, ts': Tasks, id: string) {
    && ts'.Keys == ts.Keys && id in ts && SameWork(ts[id], ts'[id]) && ts'[id].attempts == ts[id].attempts
    && forall o | o in ts && o != id :: ts'[o] == ts[o]
  }

  /**
   * A handler's reply decides about its running row and no other: it completes or fails exactly when the
   * handler says so, is tried again exactly when a retry is asked for (or an error occurs) below the
   * attempt limit, after the delay that goes with it, and is escalated otherwise.
   */
  lemma {:induction false} ReplyDecides(cfg: Config, ts: Tasks, m: Mem, st: Step)
    requires cfg.Valid() && Owned(cfg, ts, m) && Enabled(cfg, ts, m, st) && (st.Settle? || st.Collect?)
    ensures var id, ts', reply := Subject(m, st), Table(cfg, ts, m, st), st.reply;
            && OnlyChanges(ts, ts', id)
            && var row, more := ts'[id], ts[id].attempts < cfg.maxAttempts;
            && (row.status == Complete <==> reply.Returned? && reply.ask == AskComplete)
            && (row.status == Failed <==> reply.Returned? && reply.ask == AskFailed)
            && (row.status == Queued <==> more && (reply.Raised? || reply.ask in {AskRetry, Unsupported}))
            && (row.status == Escalated <==>
                  (reply.Returned? && reply.ask == AskEscalated)
                  || (!more && (reply.Raised? || reply.ask in {AskRetry, Unsupported})))
            && row.scheduledAt ==
               if row.status != Queued then ts[id].scheduledAt
               else if reply.Raised? || reply.ask == Unsupported then st.now + cfg.deferDelay
               else if reply.retryAfter < 0.1 then st.now + 0.1 else st.now + reply.retryAfter
  {
    var id := Subject(m, st);
    assert IsRunning(ts, id) && ts[id].attempts == (if st.Collect? then m.pending[id].attempts else m.batch[0].attempts) by {
      assert Matches(ts, cfg, if st.Collect? then m.pending[id] else m.batch[0]);
    }
    OutcomeDecides(cfg, ts, id, ts[id].attempts, st.reply, st.now);
    JudgeEnds(cfg, ts, id, ts[id].attempts, st.reply, st.now);
  }

  /** Work without a handler waits for the deferral delay, and work given back at a close is due at once. */
  lemma {:induction false} GivenBack(cfg: Config, ts: Tasks, m: Mem, st: Step)
    requires Owned(cfg, ts, m) && Enabled(cfg, ts, m, st) && (st.Defer? || st.Release?)
    ensures var id, ts' := Subject(m, st), Table(cfg, ts, m, st);
            && OnlyChanges(ts, ts', id) && ts'[id].status == Queued
            && ts'[id].scheduledAt == if st.Release? then st.now else st.now + cfg.deferDelay
    ensures Subject(m, st) !in Memory(cfg, ts, m, st).pending
    ensures st.Defer? ==> Memory(cfg, ts, m, st).batch == m.batch[1..]
  {
    assert Matches(ts, cfg, if st.Release? then m.pending[st.id] else m.batch[0]);
  }
}
