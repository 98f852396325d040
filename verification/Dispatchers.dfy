// The dispatcher objects of manager/dispatcher.py. Every call is proved to be a run of
// the dispatch machine, and which run it is.
module Dispatchers {
  import opened Basics
  import opened TaskTable
  import opened Dispatch
  import opened StateStores

  /** `_apply_outcome`; false when it raises, which it does before any write. */
  method ApplyOutcome(scheduler: WorkScheduler, cfg: Config, item: Item, ask: Ask, retryAfter: real, current: real)
    returns (applied: bool)
    modifies scheduler.store`tasks
    ensures applied == (ask != Unsupported)
    ensures applied ==>
              scheduler.store.tasks ==
              Apply(old(scheduler.store.tasks), item.id, Judge(cfg, item.attempts, Returned(ask, retryAfter)), current)
    ensures !applied ==> scheduler.store.tasks == old(scheduler.store.tasks)
  {
    if ask == Unsupported {
      return false;
    }
    if ask == AskComplete {
      scheduler.CompleteTask(item.id, current);
    } else if ask == AskRetry {
      var delay := RealMax(0.1, retryAfter);
      if item.attempts >= cfg.maxAttempts {
        scheduler.Escalate(item.id, current);
      } else {
        scheduler.Defer(item.id, current + delay, current);
      }
    } else if ask == AskFailed {
      scheduler.Fail(item.id, None, current);
    } else {
      scheduler.Escalate(item.id, current);
    }
    return true;
  }

  method ApplyError(scheduler: WorkScheduler, cfg: Config, item: Item, current: real)
    modifies scheduler.store`tasks
    ensures scheduler.store.tasks == Apply(old(scheduler.store.tasks), item.id, OnError(cfg, item.attempts), current)
  {
    if item.attempts >= cfg.maxAttempts {
      scheduler.Escalate(item.id, current);
    } else {
      scheduler.Defer(item.id, current + cfg.deferDelay, current);
    }
  }

  /** Apply a handler's outcome, and its error when it raised or asked for something unsupported. */
  method ApplyReply(scheduler: WorkScheduler, cfg: Config, item: Item, reply: Reply, current: real)
    modifies scheduler.store`tasks
    ensures scheduler.store.tasks ==
            Apply(old(scheduler.store.tasks), item.id, Judge(cfg, item.attempts, reply), current)
  {
    var applied := false;
    if reply.Returned? {
      applied := ApplyOutcome(scheduler, cfg, item, reply.ask, reply.retryAfter, current);
    }
    if !applied {
      ApplyError(scheduler, cfg, item, current);
    }
  }

  /** What the synchronous dispatcher does with one claimed item. */
  function Handled(cfg: Config, item: Item, run: Item -> Reply, now: real): Step {
    if item.kind in cfg.handlers then Settle(run(item), now) else Defer(now)
  }

  /** What the background dispatcher does with it. */
  function Placed(cfg: Config, item: Item, now: real): Step {
    if item.kind in cfg.handlers then Submit else Defer(now)
  }

  lemma Without(m: map<string, Item>, gone: set<string>, id: string)
    ensures (m - gone) - {id} == m - (gone + {id})
    ensures id in m && id !in gone ==> id in m - gone
  {
  }

  lemma CollectRuns(cfg: Config, ts0: Tasks, m0: Mem, steps: seq<Step>, ts: Tasks, pending: map<string, Item>, id: string,
                    reply: Reply, now: real, ts': Tasks)
    requires id in pending && Runs(cfg, ts0, m0, steps, ts, Mem([], pending, false))
    requires ts' == Apply(ts, id, Judge(cfg, pending[id].attempts, reply), now)
    ensures Runs(cfg, ts0, m0, steps + [Collect(id, reply, now)], ts', Mem([], pending - {id}, false))
  {
    RunsExtend(cfg, ts0, m0, steps, ts, Mem([], pending, false), Collect(id, reply, now));
  }

  ghost predicate Gathered(ids: seq<string>, steps: seq<Step>, finished: map<string, Reply>, now: real) {
    |steps| == |ids| && forall i | 0 <= i < |ids| :: ids[i] in finished && steps[i] == Collect(ids[i], finished[ids[i]], now)
  }

  lemma GatheredNext(ids: seq<string>, steps: seq<Step>, finished: map<string, Reply>, now: real, id: string)
    requires Gathered(ids, steps, finished, now) && id in finished
    ensures Gathered(ids + [id], steps + [Collect(id, finished[id], now)], finished, now)
  {
  }

  lemma HandledRuns(cfg: Config, ts0: Tasks, m0: Mem, steps: seq<Step>, ts: Tasks, items: seq<Item>, i: nat,
                    run: Item -> Reply, now: real, ts': Tasks)
    requires i < |items| && !cfg.background && Runs(cfg, ts0, m0, steps, ts, Mem(items[i..], map[], false))
    requires ts' == Table(cfg, ts, Mem(items[i..], map[], false), Handled(cfg, items[i], run, now))
    ensures Runs(cfg, ts0, m0, steps + [Handled(cfg, items[i], run, now)], ts', Mem(items[i + 1..], map[], false))
  {
    var m := Mem(items[i..], map[], false);
    assert m.batch[0] == items[i] && m.batch[1..] == items[i + 1..];
    RunsExtend(cfg, ts0, m0, steps, ts, m, Handled(cfg, items[i], run, now));
  }

  lemma PlacedRuns(cfg: Config, ts0: Tasks, m0: Mem, steps: seq<Step>, ts: Tasks, items: seq<Item>, i: nat, now: real,
                   pending: map<string, Item>, closed: bool, ts': Tasks, pending': map<string, Item>)
    requires i < |items| && cfg.background && Runs(cfg, ts0, m0, steps, ts, Mem(items[i..], pending, closed))
    requires ts' == if items[i].kind in cfg.handlers then ts
                    else Finish(ts, items[i].id, Queued, Some(now + cfg.deferDelay), now)
    requires pending' == if items[i].kind in cfg.handlers then pending[items[i].id := items[i]] else pending
    ensures Runs(cfg, ts0, m0, steps + [Placed(cfg, items[i], now)], ts', Mem(items[i + 1..], pending', closed))
  {
    var m := Mem(items[i..], pending, closed);
    assert m.batch[0] == items[i] && m.batch[1..] == items[i + 1..];
    RunsExtend(cfg, ts0, m0, steps, ts, m, Placed(cfg, items[i], now));
  }

  lemma ClaimRuns(cfg: Config, ts: Tasks, m: Mem, ids: seq<string>, limit: int, now: real)
    requires m.batch == [] && !m.closed && (cfg.background ==> Room(cfg, m) > 0)
    requires Selection(ts, now, cfg.reserved, Limit(cfg, m, limit), ids)
    ensures forall id | id in ids :: id in ts
    ensures Runs(cfg, ts, m, [ClaimStep(ids, limit, now)], Claim(ts, ids, now),
                 Mem(Items(Claim(ts, ids, now), ids), m.pending, m.closed))
  {
    assert forall id | id in ids :: Due(ts, id, now, cfg.reserved);
    RunsExtend(cfg, ts, m, [], ts, m, ClaimStep(ids, limit, now));
    assert [] + [ClaimStep(ids, limit, now)] == [ClaimStep(ids, limit, now)];
  }

  class WorkDispatcher {
    const scheduler: WorkScheduler
    const cfg: Config

    constructor (scheduler: WorkScheduler, cfg: Config)
      requires cfg.Valid() && !cfg.background
      ensures this.scheduler == scheduler && this.cfg == cfg
    {
      this.scheduler, this.cfg := scheduler, cfg;
    }

    /** Run the handler of one claimed item, or put the item back when nobody handles its kind. */
    method Handle(item: Item, now: real, run: Item -> Reply)
      modifies scheduler.store`tasks
      ensures scheduler.store.tasks ==
              if item.kind in cfg.handlers
              then Apply(old(scheduler.store.tasks), item.id, Judge(cfg, item.attempts, run(item)), now)
              else Finish(old(scheduler.store.tasks), item.id, Queued, Some(now + cfg.deferDelay), now)
    {
      if item.kind !in cfg.handlers {
        scheduler.Defer(item.id, now + cfg.deferDelay, now);
      } else {
        ApplyReply(scheduler, cfg, item, run(item), now);
      }
    }

    /** Handle the claimed items in order. */
    method HandleAll(items: seq<Item>, now: real, run: Item -> Reply) returns (ghost steps: seq<Step>)
      requires !cfg.background
      modifies scheduler.store`tasks
      ensures Runs(cfg, old(scheduler.store.tasks), Mem(items, map[], false), steps, scheduler.store.tasks, IDLE)
      ensures |steps| == |items| && forall j | 0 <= j < |items| :: steps[j] == Handled(cfg, items[j], run, now)
    {
      ghost var ts0, m0 := scheduler.store.tasks, Mem(items, map[], false);
      steps := [];
      for i := 0 to |items|
        invariant |steps| == i && forall j | 0 <= j < i :: steps[j] == Handled(cfg, items[j], run, now)
        invariant Runs(cfg, ts0, m0, steps, scheduler.store.tasks, Mem(items[i..], map[], false))
      {
        ghost var ts := scheduler.store.tasks;
        Handle(items[i], now, run);
        HandledRuns(cfg, ts0, m0, steps, ts, items, i, run, now, scheduler.store.tasks);
        steps := steps + [Handled(cfg, items[i], run, now)];
      }
    }

    /** Claim due work and run its handlers; `run` is whatever the registered handlers do. */
    method Dispatch(limit: int, now: real, run: Item -> Reply) returns (ghost ids: seq<string>, ghost steps: seq<Step>)
      requires !cfg.background
      modifies scheduler.store`tasks
      ensures Runs(cfg, old(scheduler.store.tasks), IDLE, steps, scheduler.store.tasks, IDLE)
      ensures |steps| == |ids| + 1 && steps[0] == ClaimStep(ids, limit, now)
      ensures forall id | id in ids :: id in old(scheduler.store.tasks)
      ensures forall i | 0 <= i < |ids| ::
                steps[i + 1] == Handled(cfg, Items(Claim(old(scheduler.store.tasks), ids, now), ids)[i], run, now)
    {
      ghost var ts0 := scheduler.store.tasks;
      var items: seq<Item>;
      items, ids := scheduler.store.ClaimDueTasks(limit, now, cfg.reserved);
      ClaimRuns(cfg, ts0, IDLE, ids, limit, now);
      ghost var ts1, claim := scheduler.store.tasks, ClaimStep(ids, limit, now);
      ghost var handled := HandleAll(items, now, run);
      RunsJoin(cfg, ts0, IDLE, [claim], ts1, Mem(items, map[], false), handled, scheduler.store.tasks, IDLE);
      steps := [claim] + handled;
    }
  }

  class BackgroundWorkDispatcher {
    const scheduler: WorkScheduler
    const cfg: Config
    var pending: map<string, Item>
    var closed: bool

    ghost function View(): Mem
      reads this
    {
      Mem([], pending, closed)
    }

    constructor (scheduler: WorkScheduler, cfg: Config)
      requires cfg.Valid() && cfg.background
      ensures this.scheduler == scheduler && this.cfg == cfg && View() == IDLE
    {
      this.scheduler, this.cfg := scheduler, cfg;
      pending, closed := map[], false;
    }

    /** Each finished handler is collected once, in any order. */
    ghost predicate CollectsOf(ids: seq<string>, steps: seq<Step>, was: map<string, Item>, finished: map<string, Reply>, now: real) {
      && multiset(ids) == multiset(was.Keys * finished.Keys)
      && Gathered(ids, steps, finished, now)
    }

    method CollectOne(id: string, reply: Reply, now: real)
      requires id in pending && !closed
      modifies scheduler.store`tasks, this`pending
      ensures pending == old(pending) - {id}
      ensures scheduler.store.tasks ==
              Apply(old(scheduler.store.tasks), id, Judge(cfg, old(pending)[id].attempts, reply), now)
    {
      var item := pending[id];
      pending := pending - {id};
      ApplyReplyTo(id, item, reply, now);
    }

    method ApplyReplyTo(id: string, item: Item, reply: Reply, now: real)
      modifies scheduler.store`tasks
      ensures scheduler.store.tasks == Apply(old(scheduler.store.tasks), id, Judge(cfg, item.attempts, reply), now)
    {
      ApplyReply(scheduler, cfg, item.(id := id), reply, now);
    }

    /** `finished`: the futures that are done, with what their handlers returned. */
    method CollectCompleted(finished: map<string, Reply>, now: real) returns (ghost ids: seq<string>, ghost steps: seq<Step>)
      requires !closed
      modifies scheduler.store`tasks, this`pending
      ensures Runs(cfg, old(scheduler.store.tasks), old(View()), steps, scheduler.store.tasks, View())
      ensures CollectsOf(ids, steps, old(pending), finished, now)
      ensures pending == old(pending) - finished.Keys
    {
      ids, steps := [], [];
      ghost var ts0, m0 := scheduler.store.tasks, View();
      ghost var all, gone := pending.Keys * finished.Keys, {};
      var todo := pending.Keys * finished.Keys;
      while todo != {}
        invariant gone + todo == all && gone !! todo && pending == m0.pending - gone && !closed
        invariant Runs(cfg, ts0, m0, steps, scheduler.store.tasks, Mem([], pending, false))
        invariant multiset(ids) + multiset(todo) == multiset(all)
        invariant Gathered(ids, steps, finished, now)
        decreases todo
      {
        var id :| id in todo;
        TakeOne(ids, todo, all, id);
        Without(m0.pending, gone, id);
        ghost var ts, was := scheduler.store.tasks, pending;
        CollectOne(id, finished[id], now);
        CollectRuns(cfg, ts0, m0, steps, ts, was, id, finished[id], now, scheduler.store.tasks);
        GatheredNext(ids, steps, finished, now, id);
        steps := steps + [Collect(id, finished[id], now)];
        ids, gone, todo := ids + [id], gone + {id}, todo - {id};
      }
      assert m0.pending - all == m0.pending - finished.Keys;
    }

    /** Hand one claimed item to the pool, or put it back when nobody handles its kind. */
    method Place(item: Item, now: real)
      modifies scheduler.store`tasks, this`pending
      ensures scheduler.store.tasks ==
              if item.kind in cfg.handlers then old(scheduler.store.tasks)
              else Finish(old(scheduler.store.tasks), item.id, Queued, Some(now + cfg.deferDelay), now)
      ensures pending == if item.kind in cfg.handlers then old(pending)[item.id := item] else old(pending)
    {
      if item.kind !in cfg.handlers {
        scheduler.Defer(item.id, now + cfg.deferDelay, now);
      } else {
        pending := pending[item.id := item];
      }
    }

    /** Claim work for the free slots and place every claimed item. */
    method ClaimWork(limit: int, now: real) returns (ghost ids: seq<string>, ghost steps: seq<Step>)
      requires cfg.background && !closed && |pending| < cfg.maxInFlight
      modifies scheduler.store`tasks, this`pending
      ensures Runs(cfg, old(scheduler.store.tasks), old(View()), steps, scheduler.store.tasks, View())
      ensures |steps| == |ids| + 1
      ensures steps[0] == ClaimStep(ids, Min(limit, cfg.maxInFlight - old(|pending|)), now)
      ensures forall i | 0 < i < |steps| :: steps[i] == Submit || steps[i] == Defer(now)
    {
      ghost var ts0, m0 := scheduler.store.tasks, View();
      var available := cfg.maxInFlight - |pending|;
      var items: seq<Item>;
      items, ids := scheduler.store.ClaimDueTasks(Min(limit, available), now, cfg.reserved);
      ClaimRuns(cfg, ts0, m0, ids, Min(limit, available), now);
      ghost var claim := ClaimStep(ids, Min(limit, available), now);
      steps := [claim];
      for i := 0 to |items|
        invariant |steps| == i + 1 && steps[0] == claim
        invariant forall j | 0 < j < |steps| :: steps[j] == Submit || steps[j] == Defer(now)
        invariant Runs(cfg, ts0, m0, steps, scheduler.store.tasks, Mem(items[i..], pending, closed))
      {
        ghost var ts, was := scheduler.store.tasks, pending;
        Place(items[i], now);
        PlacedRuns(cfg, ts0, m0, steps, ts, items, i, now, was, closed, scheduler.store.tasks, pending);
        steps := steps + [Placed(cfg, items[i], now)];
      }
      assert items[|items|..] == [];
    }

    /** Collect finished handlers, then claim for the free slots only. */
    method Dispatch(limit: int, now: real, finished: map<string, Reply>)
      returns (ghost done: seq<string>, ghost collects: seq<Step>, ghost ids: seq<string>, ghost places: seq<Step>)
      requires cfg.background
      modifies scheduler.store`tasks, this`pending
      ensures Runs(cfg, old(scheduler.store.tasks), old(View()), collects + places, scheduler.store.tasks, View())
      ensures closed ==> collects == [] && places == []
      ensures !closed ==>
                var kept := |old(pending) - finished.Keys|;
                && CollectsOf(done, collects, old(pending), finished, now)
                && (kept >= cfg.maxInFlight ==> places == [])
                && (kept < cfg.maxInFlight ==>
                      && |places| == |ids| + 1
                      && places[0] == ClaimStep(ids, Min(limit, cfg.maxInFlight - kept), now)
                      && forall i | 0 < i < |places| :: places[i] == Submit || places[i] == Defer(now))
    {
      done, collects, ids, places := [], [], [], [];
      if closed {
        return;
      }
      ghost var ts0, m0 := scheduler.store.tasks, View();
      done, collects := CollectCompleted(finished, now);
      assert collects + [] == collects;
      if cfg.maxInFlight - |pending| <= 0 {
        return;
      }
      ghost var ts1, m1 := scheduler.store.tasks, View();
      ids, places := ClaimWork(limit, now);
      RunsJoin(cfg, ts0, m0, collects, ts1, m1, places, scheduler.store.tasks, View());
    }

    /** Put every kept item back into the queue. */
    method ReleaseAll(now: real) returns (ghost ids: seq<string>, ghost steps: seq<Step>)
      requires closed
      modifies scheduler.store`tasks, this`pending
      ensures Runs(cfg, old(scheduler.store.tasks), old(View()), steps, scheduler.store.tasks, View())
      ensures pending == map[]
      ensures multiset(ids) == multiset(old(pending).Keys)
      ensures |steps| == |ids| && forall i | 0 <= i < |ids| :: steps[i] == Release(ids[i], now)
    {
      ids, steps := [], [];
      ghost var ts0, m0 := scheduler.store.tasks, View();
      ghost var left := pending;
      var todo := pending.Keys;
      while todo != {}
        invariant left.Keys == todo
        invariant Runs(cfg, ts0, m0, steps, scheduler.store.tasks, Mem([], left, true))
        invariant multiset(ids) + multiset(todo) == multiset(m0.pending.Keys)
        invariant |steps| == |ids| && forall i | 0 <= i < |ids| :: steps[i] == Release(ids[i], now)
        decreases todo
      {
        var id :| id in todo;
        TakeOne(ids, todo, m0.pending.Keys, id);
        ghost var ts, m := scheduler.store.tasks, Mem([], left, true);
        scheduler.Defer(id, now, now);
        RunsExtend(cfg, ts0, m0, steps, ts, m, Release(id, now));
        steps := steps + [Release(id, now)];
        ids := ids + [id];
        left := left - {id};
        todo := todo - {id};
      }
      pending := map[];
      assert left == map[];
    }

    /** Requeue what has not finished and take no more work. */
    method Close(finished: map<string, Reply>, now: real)
      returns (ghost done: seq<string>, ghost collects: seq<Step>, ghost ids: seq<string>, ghost releases: seq<Step>)
      requires cfg.background
      modifies scheduler.store`tasks, this`pending, this`closed
      ensures old(closed) ==> unchanged(this) && unchanged(scheduler.store)
      ensures !old(closed) ==>
                && Runs(cfg, old(scheduler.store.tasks), old(View()), collects + [Shut] + releases,
                        scheduler.store.tasks, View())
                && View() == Mem([], map[], true)
                && CollectsOf(done, collects, old(pending), finished, now)
                && multiset(ids) == multiset((old(pending) - finished.Keys).Keys)
                && |releases| == |ids|
                && forall i | 0 <= i < |ids| :: releases[i] == Release(ids[i], now)
    {
      done, collects, ids, releases := [], [], [], [];
      if closed {
        return;
      }
      ghost var ts0, m0 := scheduler.store.tasks, View();
      done, collects := CollectCompleted(finished, now);
      RunsExtend(cfg, ts0, m0, collects, scheduler.store.tasks, View(), Shut);
      closed := true;
      ghost var ts1, m1 := scheduler.store.tasks, View();
      ids, releases := ReleaseAll(now);
      RunsJoin(cfg, ts0, m0, collects + [Shut], ts1, m1, releases, scheduler.store.tasks, View());
    }
  }
}
