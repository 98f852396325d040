// The tasks table and the recurring cursors of manager/state_store.py as an object,
// and the scheduler of manager/scheduler.py that maps queue verbs onto it.
module StateStores {
  import opened Basics
  import opened TaskTable
  import D = Dispatch
  import R = Recurring

  class StateStore {
    var tasks: Tasks
    var cursors: R.Cursors

    constructor ()
      ensures tasks == map[] && cursors == map[]
    {
      tasks, cursors := map[], map[];
    }

    method EnqueueTask(id: string, kind: string, objective: string, payload: Payload, scheduledAt: Option<real>, now: real)
      modifies this`tasks
      ensures tasks == Enqueue(old(tasks), id, kind, objective, payload,
                               if scheduledAt.Some? then scheduledAt.value else now, now)
    {
      if id !in tasks {
        var at := if scheduledAt.Some? then scheduledAt.value else now;
        tasks := tasks[id := Task(kind, objective, payload, Queued, at, 0, now)];
      }
    }

    /** The first of some rows in SQL order. */
    method First(rows: set<string>) returns (first: string)
      requires rows != {} && rows <= tasks.Keys
      ensures first in rows
      ensures forall id | id in rows && id != first :: Before(tasks, first, id)
    {
      first :| first in rows;
      var rest := rows - {first};
      while rest != {}
        invariant rest <= rows && first in rows && first !in rest
        invariant forall id | id in rows && id !in rest && id != first :: Before(tasks, first, id)
        decreases rest
      {
        var id :| id in rest;
        rest := rest - {id};
        BeforeTotal(tasks, first, id);
        if Before(tasks, id, first) {
          forall o | o in rows && o !in rest && o != id ensures Before(tasks, id, o) {
            if o != first {
              BeforeTransitive(tasks, id, first, o);
            }
          }
          first := id;
        }
      }
    }

    /** SELECT ... ORDER BY scheduled_at, task_id LIMIT n over the due rows. */
    method SelectDue(limit: nat, now: real, excluded: set<string>) returns (ids: seq<string>)
      ensures Selection(tasks, now, excluded, limit, ids)
    {
      ids := [];
      var rest := set id | id in tasks && Due(tasks, id, now, excluded);
      while rest != {} && |ids| < limit
        invariant |ids| <= limit
        invariant forall id :: Due(tasks, id, now, excluded) <==> id in rest || id in ids
        invariant forall i | 0 <= i < |ids| :: Due(tasks, ids[i], now, excluded) && ids[i] !in rest
        invariant forall i, j | 0 <= i < j < |ids| :: Before(tasks, ids[i], ids[j])
        invariant forall i, id | 0 <= i < |ids| && id in rest :: id in tasks && Before(tasks, ids[i], id)
        decreases rest
      {
        assert rest <= tasks.Keys;
        var first := First(rest);
        rest := rest - {first};
        ids := ids + [first];
      }
    }

    method ClaimDueTasks(limit: int, now: real, excluded: set<string>) returns (claimed: seq<D.Item>, ghost ids: seq<string>)
      modifies this`tasks
      ensures Selection(old(tasks), now, excluded, ClaimLimit(limit), ids)
      ensures tasks == Claim(old(tasks), ids, now) && claimed == D.Items(tasks, ids)
    {
      var rows := SelectDue(ClaimLimit(limit), now, excluded);
      ids := rows;
      SelectionDistinct(tasks, now, excluded, ClaimLimit(limit), rows);
      claimed := [];
      for i := 0 to |rows|
        invariant tasks == Claim(old(tasks), rows[..i], now)
        invariant |claimed| == i
        invariant forall j | 0 <= j < i :: claimed[j] == D.ItemOf(rows[j], tasks[rows[j]])
      {
        assert rows[..i + 1] == rows[..i] + [rows[i]];
        assert rows[i] !in rows[..i];
        tasks := tasks[rows[i] := Started(tasks[rows[i]], now)];
        claimed := claimed + [D.ItemOf(rows[i], tasks[rows[i]])];
      }
      assert rows[..|rows|] == rows;
    }

    method FindQueuedTask(kind: string, key: string, value: string) returns (found: Option<string>)
      ensures Found(tasks, kind, key, value, found)
    {
      var rows := set id | id in tasks && QueuedReview(tasks, id, kind, key, value);
      if rows == {} {
        assert forall id | QueuedReview(tasks, id, kind, key, value) :: id in rows;
        found := None;
      } else {
        var first := First(rows);
        found := Some(first);
      }
    }

    method TaskStatus(id: string) returns (status: Option<Status>)
      ensures status == if id in tasks then Some(tasks[id].status) else None
    {
      status := if id in tasks then Some(tasks[id].status) else None;
    }

    method StartTask(id: string, now: real) returns (started: bool)
      modifies this`tasks
      ensures tasks == Start(old(tasks), id, now) && started == IsQueued(old(tasks), id)
    {
      started := id in tasks && tasks[id].status == Queued;
      if started {
        tasks := tasks[id := Started(tasks[id], now)];
      }
    }

    method RequeueRunningTasks(now: real) returns (count: nat)
      modifies this`tasks
      ensures tasks == Requeue(old(tasks), now)
      ensures count == |set id | id in old(tasks) && old(tasks)[id].status == Running|
    {
      var rows := set id | id in tasks && tasks[id].status == Running;
      count := |rows|;
      var rest := rows;
      while rest != {}
        invariant rest <= rows && tasks.Keys == old(tasks).Keys
        invariant forall id | id in tasks ::
                    tasks[id] == if id in rows && id !in rest then Requeue(old(tasks), now)[id] else old(tasks)[id]
        decreases rest
      {
        var id :| id in rest;
        rest := rest - {id};
        tasks := tasks[id := tasks[id].(status := Queued, scheduledAt := now, updated := now)];
      }
    }

    method FinishTask(id: string, status: Status, scheduledAt: Option<real>, now: real)
      modifies this`tasks
      ensures tasks == Finish(old(tasks), id, status, scheduledAt, now)
    {
      if id in tasks {
        var row := tasks[id].(status := status, updated := now);
        tasks := tasks[id := if scheduledAt.Some? then row.(scheduledAt := scheduledAt.value) else row];
      }
    }

    method SetCursor(template: string, cursor: R.Cursor)
      modifies this`cursors
      ensures cursors == old(cursors)[template := cursor]
    {
      cursors := cursors[template := cursor];
    }
  }

  class WorkScheduler {
    const store: StateStore

    constructor (store: StateStore)
      ensures this.store == store
    {
      this.store := store;
    }

    method CompleteTask(id: string, now: real)
      modifies store`tasks
      ensures store.tasks == Finish(old(store.tasks), id, Complete, None, now)
    {
      store.FinishTask(id, Complete, None, now);
    }

    /** `fail`: with a retry time the task is queued again. */
    method Fail(id: string, retryAt: Option<real>, now: real)
      modifies store`tasks
      ensures store.tasks == Finish(old(store.tasks), id, if retryAt.Some? then Queued else Failed, retryAt, now)
    {
      if retryAt.Some? {
        store.FinishTask(id, Queued, retryAt, now);
        return;
      }
      store.FinishTask(id, Failed, None, now);
    }

    method Defer(id: string, retryAt: real, now: real)
      modifies store`tasks
      ensures store.tasks == Finish(old(store.tasks), id, Queued, Some(retryAt), now)
    {
      store.FinishTask(id, Queued, Some(retryAt), now);
    }

    method Escalate(id: string, now: real)
      modifies store`tasks
      ensures store.tasks == Finish(old(store.tasks), id, Escalated, None, now)
    {
      store.FinishTask(id, Escalated, None, now);
    }
  }
}
