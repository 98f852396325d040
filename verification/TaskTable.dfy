// The durable tasks table: each store method as one atomic step on a map of rows.
module TaskTable {
  import opened Basics
  import opened Text

  datatype Status = Queued | Running | Complete | Failed | Escalated | Cancelled

  type Payload = map<string, string>

  datatype Task = Task(
    kind: string, objective: string, payload: Payload,
    status: Status, scheduledAt: real, attempts: nat, updated: real)

  type Tasks = map<string, Task>

  predicate Active(s: Status) { s == Queued || s == Running }

  predicate IsRunning(ts: Tasks, id: string) { id in ts && ts[id].status == Running }

  predicate IsQueued(ts: Tasks, id: string) { id in ts && ts[id].status == Queued }

  predicate IsActive(ts: Tasks, id: string) { id in ts && Active(ts[id].status) }

  // ----- store methods -----

  /** INSERT ... ON CONFLICT DO NOTHING. */
  function Enqueue(ts: Tasks, id: string, kind: string, objective: string, payload: Payload, at: real, now: real): Tasks {
    if id in ts then ts else ts[id := Task(kind, objective, payload, Queued, at, 0, now)]
  }

  function Started(t: Task, now: real): Task {
    t.(status := Running, attempts := t.attempts + 1, updated := now)
  }

  /** The guarded UPDATE of start_task; it changes nothing unless the row is QUEUED. */
  function Start(ts: Tasks, id: string, now: real): Tasks {
    if IsQueued(ts, id) then ts[id := Started(ts[id], now)] else ts
  }

  /** The unguarded UPDATE of finish_task. */
  function Finish(ts: Tasks, id: string, status: Status, at: Option<real>, now: real): Tasks {
    if id !in ts then ts
    else
      var t := ts[id].(status := status, updated := now);
      ts[id := if at.Some? then t.(scheduledAt := at.value) else t]
  }

  /** requeue_running_tasks. */
  function Requeue(ts: Tasks, now: real): Tasks {
    map id | id in ts ::
      if ts[id].status == Running then ts[id].(status := Queued, scheduledAt := now, updated := now) else ts[id]
  }

  /** The UPDATEs of claim_due_tasks for the selected rows. */
  function Claim(ts: Tasks, ids: seq<string>, now: real): Tasks {
    map id | id in ts :: if id in ids then Started(ts[id], now) else ts[id]
  }

  // ----- which rows a claim selects -----

  predicate Due(ts: Tasks, id: string, now: real, excluded: set<string>) {
    id in ts && ts[id].status == Queued && ts[id].scheduledAt <= now && ts[id].kind !in excluded
  }

  /** ORDER BY scheduled_at, task_id. */
  predicate Before(ts: Tasks, a: string, b: string)
    requires a in ts && b in ts
  {
    ts[a].scheduledAt < ts[b].scheduledAt || (ts[a].scheduledAt == ts[b].scheduledAt && Less(a, b))
  }

  function ClaimLimit(limit: int): nat { Max(1, Min(limit, 100)) }

  /** The rows SELECT ... LIMIT returns: the first due rows in order, and all of them if they fit. */
  ghost predicate Selection(ts: Tasks, now: real, excluded: set<string>, limit: nat, ids: seq<string>) {
    && |ids| <= limit
    && (forall i | 0 <= i < |ids| :: Due(ts, ids[i], now, excluded))
    && (forall i, j | 0 <= i < j < |ids| :: Before(ts, ids[i], ids[j]))
    && (forall id | Due(ts, id, now, excluded) && id !in ids ::
          |ids| == limit && forall i | 0 <= i < |ids| :: Before(ts, ids[i], id))
  }

  predicate QueuedReview(ts: Tasks, id: string, kind: string, key: string, value: string) {
    IsQueued(ts, id) && ts[id].kind == kind && PayloadText(ts[id].payload, key) == value
  }

  function PayloadText(p: Payload, key: string): string { if key in p then p[key] else "" }

  /** find_queued_task: the first matching QUEUED row in order, if any. */
  ghost predicate Found(ts: Tasks, kind: string, key: string, value: string, r: Option<string>) {
    match r
    case None => forall id :: !QueuedReview(ts, id, kind, key, value)
    case Some(id) =>
      && QueuedReview(ts, id, kind, key, value)
      && forall other | QueuedReview(ts, other, kind, key, value) && other != id :: Before(ts, id, other)
  }

  // ----- the order is total, so selections are unique -----

  lemma BeforeTotal(ts: Tasks, a: string, b: string)
    requires a in ts && b in ts && a != b
    ensures Before(ts, a, b) <==> !Before(ts, b, a)
  {
    LessTotal(a, b);
    if Less(a, b) {
      LessAsymmetric(a, b);
    } else {
      LessAsymmetric(b, a);
    }
  }

  lemma BeforeIrreflexive(ts: Tasks, a: string)
    requires a in ts
    ensures !Before(ts, a, a)
  {
    if Less(a, a) {
      LessAsymmetric(a, a);
    }
  }

  lemma BeforeTransitive(ts: Tasks, a: string, b: string, c: string)
    requires a in ts && b in ts && c in ts && Before(ts, a, b) && Before(ts, b, c)
    ensures Before(ts, a, c)
  {
    if Less(a, b) && Less(b, c) {
      LessTransitive(a, b, c);
    }
  }

  lemma SelectionDistinct(ts: Tasks, now: real, excluded: set<string>, limit: nat, ids: seq<string>)
    requires Selection(ts, now, excluded, limit, ids)
    ensures forall i, j | 0 <= i < j < |ids| :: ids[i] != ids[j]
  {
    forall i, j | 0 <= i < j < |ids| ensures ids[i] != ids[j] {
      BeforeIrreflexive(ts, ids[i]);
    }
  }

  /** A claim never comes back empty while a row is due. */
  lemma ClaimMakesProgress(ts: Tasks, now: real, excluded: set<string>, limit: int, ids: seq<string>, id: string)
    requires Selection(ts, now, excluded, ClaimLimit(limit), ids) && Due(ts, id, now, excluded)
    ensures ids != []
  {
  }

  // ----- the life of a row -----

  predicate SameWork(a: Task, b: Task) {
    a.kind == b.kind && a.objective == b.objective && a.payload == b.payload
  }

  /** The only moves a row may make: claimed or started, then requeued or ended. */
  predicate Moves(a: Task, b: Task) {
    || a == b
    || (SameWork(a, b) && a.status == Queued && b.status == Running && b.attempts == a.attempts + 1)
    || (SameWork(a, b) && a.status == Running && b.status in {Queued, Complete, Failed, Escalated}
        && b.attempts == a.attempts)
  }

  /** Rows are never lost and only move as allowed; new rows begin QUEUED and untried. */
  ghost predicate RowsMove(a: Tasks, b: Tasks) {
    && (forall id | id in a :: id in b && Moves(a[id], b[id]))
    && (forall id | id in b && id !in a :: b[id].status == Queued && b[id].attempts == 0)
  }
}
