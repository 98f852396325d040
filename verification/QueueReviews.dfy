// Agent reviews over whole runs: at most one unfinished review per agent, so an
// interrupted review is resumed and never duplicated.
module QueueReviews {
  import opened Basics
  import opened TaskTable
  import opened QueueSystem
  import D = Dispatch
  import A = Agents
  import R = Recurring

  predicate ActiveReview(ts: Tasks, id: string, agent: string) { A.IsReview(ts, id, agent) && IsActive(ts, id) }

  ghost predicate OneReviewEach(ts: Tasks) {
    forall i, j | i in ts && j in ts && ActiveReview(ts, i, A.OwnerOf(ts[i])) && ActiveReview(ts, j, A.OwnerOf(ts[i])) ::
      i == j
  }

  /** Nobody else writes reviews: other submissions and recurring templates use other kinds. */
  predicate KeepsKind(st: Step) { st.Submission? ==> st.kind != A.REVIEW }

  ghost predicate TemplatesKeepKind(cfg: Config) {
    forall t | t in cfg.templates :: cfg.templates[t].kind != A.REVIEW
  }

  lemma NoNewReviews(ts: Tasks, ts': Tasks)
    requires OneReviewEach(ts) && RowsMove(ts, ts')
    requires forall id | id in ts' && id !in ts :: ts'[id].kind != A.REVIEW
    ensures OneReviewEach(ts')
  {
    forall i, j | i in ts' && j in ts' && ActiveReview(ts', i, A.OwnerOf(ts'[i])) && ActiveReview(ts', j, A.OwnerOf(ts'[i]))
      ensures i == j
    {
      assert ActiveReview(ts, i, A.OwnerOf(ts[i])) && ActiveReview(ts, j, A.OwnerOf(ts[i]));
    }
  }

  /**
   * Enqueueing keeps one review per agent exactly when it adds no review for an agent that has an
   * unfinished one. The seeder does not check this: a template of the review kind can break it.
   */
  lemma EnqueueKeepsOneEach(ts: Tasks, id: string, kind: string, objective: string, payload: Payload, at: real, now: real)
    requires OneReviewEach(ts)
    ensures OneReviewEach(Enqueue(ts, id, kind, objective, payload, at, now)) <==>
            || id in ts || kind != A.REVIEW
            || (forall o | o in ts :: !ActiveReview(ts, o, PayloadText(payload, A.OWNER)))
  {
    var ts' := Enqueue(ts, id, kind, objective, payload, at, now);
    if id !in ts {
      var agent := PayloadText(payload, A.OWNER);
      if kind != A.REVIEW {
        NoNewReviews(ts, ts');
      } else if o :| o in ts && ActiveReview(ts, o, agent) {
        assert ActiveReview(ts', id, A.OwnerOf(ts'[id])) && ActiveReview(ts', o, A.OwnerOf(ts'[id]));
      } else {
        forall i, j | i in ts' && j in ts' && ActiveReview(ts', i, A.OwnerOf(ts'[i])) && ActiveReview(ts', j, A.OwnerOf(ts'[i]))
          ensures i == j
        {
          assert i != id ==> ActiveReview(ts, i, A.OwnerOf(ts[i]));
          assert j != id ==> ActiveReview(ts, j, A.OwnerOf(ts[j]));
        }
      }
    }
  }

  lemma CoordinatorKeepsOneEach(ts: Tasks, m: A.Mem, a: A.Step)
    requires A.Owned(ts, m) && A.Enabled(ts, m, a) && OneReviewEach(ts)
    ensures OneReviewEach(A.Table(ts, m, a))
  {
    A.StepOwned(ts, m, a);
    match a
    case Create(agent, id, objective, now) =>
      forall o | o in ts ensures !ActiveReview(ts, o, agent) {
        assert !QueuedReview(ts, o, A.REVIEW, A.OWNER, agent);
        assert IsRunning(ts, o) && A.IsReview(ts, o, agent) ==> A.Owns(m, agent, o);
      }
      EnqueueKeepsOneEach(ts, id, A.REVIEW, objective, map[A.OWNER := agent], now, now);
    case _ => NoNewReviews(ts, A.Table(ts, m, a));
  }

  lemma StepKeepsOneEach(cfg: Config, s: System, st: Step)
    requires cfg.Valid() && TemplatesKeepKind(cfg) && KeepsKind(st)
    requires Owned(cfg, s) && OneReviewEach(s.tasks) && Enabled(cfg, s, st)
    ensures OneReviewEach(Next(cfg, s, st).tasks)
  {
    match st
    case Agent(a) => CoordinatorKeepsOneEach(s.tasks, s.agents, a);
    case Disp(d) =>
      D.StepOwned(cfg.dispatch, s.tasks, s.disp, d);
      NoNewReviews(s.tasks, D.Table(cfg.dispatch, s.tasks, s.disp, d));
    case _ =>
      StepOwned(cfg, s, st);
      NoNewReviews(s.tasks, Next(cfg, s, st).tasks);
  }

  /** Crashes, clean closes and restarts included: no agent ever has two unfinished reviews. */
  lemma {:induction false} OneReviewEachAlways(cfg: Config, s: System, steps: seq<Step>)
    requires cfg.Valid() && TemplatesKeepKind(cfg) && Owned(cfg, s) && OneReviewEach(s.tasks) && Runs(cfg, s, steps)
    requires forall st | st in steps :: KeepsKind(st)
    ensures OneReviewEach(After(cfg, s, steps).tasks)
    decreases |steps|
  {
    if steps != [] {
      StepOwned(cfg, s, steps[0]);
      StepKeepsOneEach(cfg, s, steps[0]);
      assert forall st | st in steps[1..] :: st in steps;
      OneReviewEachAlways(cfg, Next(cfg, s, steps[0]), steps[1..]);
    }
  }

  /** After a restart the interrupted review is the only one its agent can start. */
  lemma InterruptedReviewIsResumed(cfg: Config, s: System, agent: string, id: string, now: real, a: A.Step)
    requires cfg.Valid() && Down(s) && OneReviewEach(s.tasks)
    requires A.IsReview(s.tasks, id, agent) && IsRunning(s.tasks, id)
    requires var up := Next(cfg, s, Boot(now)); A.Enabled(up.tasks, up.agents, a)
    requires (a.Create? && a.agent == agent) || (a.Resume? && a.agent == agent)
    ensures a == A.Resume(agent, id)
  {
    var up := Next(cfg, s, Boot(now));
    assert QueuedReview(up.tasks, id, A.REVIEW, A.OWNER, agent);
    if a.Resume? {
      assert ActiveReview(s.tasks, a.id, agent) && ActiveReview(s.tasks, id, agent);
    }
  }

  /** The seeder keeps one review per agent if and only if it adds none for an agent with an unfinished one. */
  lemma SeedKeepsOneEach(cfg: Config, s: System, t: string, now: real)
    requires OneReviewEach(s.tasks) && Enabled(cfg, s, Seed(R.Insert(t, now)))
    ensures OneReviewEach(Next(cfg, s, Seed(R.Insert(t, now))).tasks) <==>
            || R.NewId(s.cursors, t) in s.tasks || cfg.templates[t].kind != A.REVIEW
            || (forall o | o in s.tasks :: !ActiveReview(s.tasks, o, PayloadText(cfg.templates[t].payload, A.OWNER)))
  {
    var template := cfg.templates[t];
    EnqueueKeepsOneEach(s.tasks, R.NewId(s.cursors, t), template.kind, template.objective, template.payload, now, now);
  }

  const REVIEWS: R.Template := R.Template(A.REVIEW, "o", map[A.OWNER := "x"], 60.0)
  const NEW_REVIEW: A.Step := A.Create("x", "agent-task-x-1", "o", 0.0)
  /**
   * A recurring template of the review kind breaks it: from an empty store the agent enqueues its review,
   * the seeder enqueues another, and the agent has two unfinished reviews.
   */
  lemma ReviewTemplateBreaksIt(dispatch: D.Config)
    requires dispatch.Valid() && dispatch.reserved == {A.REVIEW}
    ensures var cfg := Config(dispatch, map["r" := REVIEWS]);
            var steps := [Boot(0.0)] + ([Agent(NEW_REVIEW)] + [Seed(R.Insert("r", 1.0))]);
            && cfg.Valid() && Runs(cfg, FIRST_STORE, steps)
            && OneReviewEach(FIRST_STORE.tasks) && !OneReviewEach(After(cfg, FIRST_STORE, steps).tasks)
  {
    var cfg := Config(dispatch, map["r" := REVIEWS]);
    var s1 := Next(cfg, FIRST_STORE, Boot(0.0));
    assert s1.up && s1.tasks == map[] && s1.cursors == map[] && s1.seeding == None && s1.agents == A.IDLE;
    FirstReview(cfg, s1);
    var s2 := Next(cfg, s1, Agent(NEW_REVIEW));
    SecondReview(cfg, s2);
    OneStep(cfg, s2, Seed(R.Insert("r", 1.0)), []);
    assert [Seed(R.Insert("r", 1.0))] + [] == [Seed(R.Insert("r", 1.0))];
    OneStep(cfg, s1, Agent(NEW_REVIEW), [Seed(R.Insert("r", 1.0))]);
    OneStep(cfg, FIRST_STORE, Boot(0.0), [Agent(NEW_REVIEW)] + [Seed(R.Insert("r", 1.0))]);
  }

  lemma FirstReview(cfg: Config, s: System)
    requires s.up && s.tasks == map[] && s.agents == A.IDLE
    ensures Enabled(cfg, s, Agent(NEW_REVIEW))
    ensures var s' := Next(cfg, s, Agent(NEW_REVIEW));
            && s'.tasks == map["agent-task-x-1" := Task(A.REVIEW, "o", map[A.OWNER := "x"], Queued, 0.0, 0, 0.0)]
            && s'.up && s'.cursors == s.cursors && s'.seeding == s.seeding
  {
    assert A.NewReviewId("x") == "agent-task-x-";
    assert "agent-task-x-" <= "agent-task-x-1";
  }

  lemma SecondReview(cfg: Config, s: System)
    requires s.up && s.cursors == map[] && s.seeding == None && "r" in cfg.templates && cfg.templates["r"] == REVIEWS
    requires s.tasks == map["agent-task-x-1" := Task(A.REVIEW, "o", map[A.OWNER := "x"], Queued, 0.0, 0, 0.0)]
    ensures Enabled(cfg, s, Seed(R.Insert("r", 1.0)))
    ensures !OneReviewEach(Next(cfg, s, Seed(R.Insert("r", 1.0))).tasks)
  {
    assert "agent-task-x-1" in s.tasks && ActiveReview(s.tasks, "agent-task-x-1", "x");
    assert R.NewId(s.cursors, "r")[0] == 'r' && "agent-task-x-1"[0] == 'a';
    SeedKeepsOneEach(cfg, s, "r", 1.0);
  }
}
