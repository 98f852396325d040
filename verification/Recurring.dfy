// The recurring task seeder of manager/recurring.py: a durable cursor per template
// and an idempotent queue insert, with a crash possible between the two writes.
module Recurring {
  import opened Basics
  import opened Text
  import opened TaskTable
  import opened Chains

  datatype Template = Template(kind: string, objective: string, payload: Payload, interval: real)

  datatype Cursor = Cursor(taskId: string, sequence: nat, nextAt: real)

  type Cursors = map<string, Cursor>

  /** The insert has been made and the cursor write is still to come. */
  datatype Seeding = Seeding(template: string, sequence: nat, at: real)

  datatype Step = Postpone(template: string, now: real) | Insert(template: string, now: real) | Advance

  function NextAt(cs: Cursors, t: string): real { if t in cs then cs[t].nextAt else 0.0 }

  function SequenceOf(cs: Cursors, t: string): nat { if t in cs then cs[t].sequence else 0 }

  predicate PreviousActive(ts: Tasks, cs: Cursors, t: string) {
    t in cs && cs[t].taskId != "" && IsActive(ts, cs[t].taskId)
  }

  predicate Enabled(templates: map<string, Template>, ts: Tasks, cs: Cursors, m: Option<Seeding>, st: Step) {
    match st
    case Postpone(t, now) =>
      m == None && t in templates && NextAt(cs, t) <= now && PreviousActive(ts, cs, t)
    case Insert(t, now) =>
      m == None && t in templates && NextAt(cs, t) <= now && !PreviousActive(ts, cs, t)
    case Advance => m.Some? && m.value.template in templates
  }

  function NewId(cs: Cursors, t: string): string { TaskId(t, SequenceOf(cs, t) + 1) }

  function Table(templates: map<string, Template>, ts: Tasks, cs: Cursors, st: Step): Tasks {
    match st
    case Insert(t, now) =>
      if t in templates
      then Enqueue(ts, NewId(cs, t), templates[t].kind, templates[t].objective, templates[t].payload, now, now)
      else ts
    case _ => ts
  }

  function CursorsAfter(templates: map<string, Template>, cs: Cursors, m: Option<Seeding>, st: Step): Cursors {
    match st
    case Postpone(t, now) =>
      if t in templates && t in cs then cs[t := cs[t].(nextAt := now + RealMin(templates[t].interval, 60.0))] else cs
    case Advance =>
      if m.Some? && m.value.template in templates then
        var s := m.value;
        cs[s.template := Cursor(TaskId(s.template, s.sequence), s.sequence, s.at + templates[s.template].interval)]
      else cs
    case Insert(_, _) => cs
  }

  function Memory(cs: Cursors, m: Option<Seeding>, st: Step): Option<Seeding> {
    match st
    case Insert(t, now) => Some(Seeding(t, SequenceOf(cs, t) + 1, now))
    case Advance => None
    case Postpone(_, _) => m
  }

  // ----- executions of several steps -----

  datatype State = State(tasks: Tasks, cursors: Cursors, seeding: Option<Seeding>)

  predicate Allowed(templates: map<string, Template>, q: State, st: Step) {
    Enabled(templates, q.tasks, q.cursors, q.seeding, st)
  }

  function Next(templates: map<string, Template>, q: State, st: Step): State {
    State(Table(templates, q.tasks, q.cursors, st), CursorsAfter(templates, q.cursors, q.seeding, st),
          Memory(q.cursors, q.seeding, st))
  }

  ghost function Allows(templates: map<string, Template>): (State, Step) -> bool {
    (q: State, st: Step) => Allowed(templates, q, st)
  }

  ghost function Leads(templates: map<string, Template>): (State, Step) -> State {
    (q: State, st: Step) => Next(templates, q, st)
  }

  ghost predicate Runs(templates: map<string, Template>, q: State, steps: seq<Step>, q': State) {
    Chain(Allows(templates), Leads(templates), q, steps, q')
  }
}
