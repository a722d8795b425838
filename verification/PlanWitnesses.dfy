/** Runs from empty tables in which the queue does what its callers might not expect. */
module PlanWitnesses {
  import opened Basics
  import opened DependencyGraph
  import opened PlanTables
  import opened PlanSpec
  import opened PlanInvariants
  import opened PlanOperations
  import opened PlanRuns
  import opened PlanSafety
  import opened PlanEvidence
  import opened PlanProgress

  const CRITERIA: seq<string> := ["works"]

  function OneTaskRequest(task: int, key: string): CreateRequest {
    CreateRequest("app", "Objective", CRITERIA, [TaskChoice(task, "{}")], 0, [], key)
  }

  function OneTaskPlan(project: int): Plan {
    Plan(project, "Objective", Criteria(CRITERIA), Queued, 0, false, 1)
  }

  lemma RequestFits(s: Store, task: int, project: int, except: int)
    requires 0 < task && task in s.tasks && s.tasks[task] == Some(project) && !Taken(s, task, except)
    ensures var tasks := [TaskChoice(task, "{}")];
      && (forall key: string :: |key| <= 120 ==>
            ShapeError("app", "Objective", CRITERIA, Ids(tasks), [], key).None?
            && ShapeError("-", "Objective", CRITERIA, Ids(tasks), [], key).None?)
      && TaskProjectError(s.tasks, project, Ids(tasks)).None? && AvailabilityError(s, Ids(tasks), except).None?
      && RowsFor(tasks) == [TaskRow(task, 1, "{}")]
  {
    assert Ids([TaskChoice(task, "{}")]) == [task] && [task][..0] == [];
    assert TaskIdsError([task]).None?;
    assert "works" in Criteria(CRITERIA) by {
      assert NonEmpty("works") && "works" in CRITERIA;
    }
    assert |"Objective"| == 9;
  }

  /** Creating a plan for one task of the project that no open plan has. */
  lemma OneTaskPlanIsCreated(s: Store, c: Call, task: int, key: string)
    requires Valid(s) && "app" in s.projects && c == CreatePlan(OneTaskRequest(task, key)) && |key| <= 120
    requires key !in s.operations
    requires 0 < task && task in s.tasks && s.tasks[task] == Some(s.projects["app"]) && !Taken(s, task, -1)
    ensures var t := Apply(s, c).store;
      && Apply(s, c).outcome == Done(s.nextPlan, true)
      && t == s.(plans := s.plans[s.nextPlan := OneTaskPlan(s.projects["app"])],
                 deps := s.deps[s.nextPlan := []], history := t.history,
                 taskRows := s.taskRows[s.nextPlan := [TaskRow(task, 1, "{}")]], operations := t.operations,
                 nextPlan := s.nextPlan + 1)
      && (key == "" ==> t.operations == s.operations)
  {
    RequestFits(s, task, s.projects["app"], -1);
    assert FreshDependencyError(s, s.projects["app"], Dedup([])).None?;
    CreateCases(s, OneTaskRequest(task, key));
  }

  // One project with two tasks

  const SETUP: seq<Call> := [RegisterProject("app"), CreateTask(Some(1)), CreateTask(Some(1))]

  const READY :=
    EMPTY.(projects := map["app" := 1], tasks := map[1 := Some(1), 2 := Some(1)], nextProject := 2, nextTask := 3)

  lemma Setup()
    ensures Reached(SETUP) == READY && Valid(READY)
  {
    hide Valid, Shaped, HistoryOk;
    EmptyIsValid();
    var a, b: Call := RegisterProject("app"), CreateTask(Some(1));
    RunFrom(EMPTY, a, [b, b]);
    var s := Apply(EMPTY, a).store;
    assert [a] + [b, b] == SETUP;
    RunFrom(s, b, [b]);
    assert [b] + [b] == [b, b];
    var t := Apply(s, b).store;
    RunFrom(t, b, []);
    assert [b] + [] == [b];
    assert Apply(t, b).store.tasks == map[1 := Some(1), 2 := Some(1)];
  }

  lemma NobodyHasTasks(s: Store, task: int, except: int)
    requires s.taskRows == map[]
    ensures !Taken(s, task, except)
  {
  }

  /** Each task has its own queued plan. */
  const TWO_PLANS: seq<Call> := SETUP + [CreatePlan(OneTaskRequest(1, ""))] + [CreatePlan(OneTaskRequest(2, ""))]

  lemma TwoQueuedPlans()
    ensures var s := Reached(TWO_PLANS);
      && s.plans == map[1 := OneTaskPlan(1), 2 := OneTaskPlan(1)] && s.merged == {} && s.integrations == map[]
      && s.deps == map[1 := [], 2 := []]
  {
    hide Apply, Valid, Run;
    EmptyIsValid();
    Setup();
    var first, second := CreatePlan(OneTaskRequest(1, "")), CreatePlan(OneTaskRequest(2, ""));
    RunOne(EMPTY, SETUP, first);
    RunOne(EMPTY, SETUP + [first], second);
    NobodyHasTasks(READY, 1, -1);
    OneTaskPlanIsCreated(READY, first, 1, "");
    TwoCreated(Reached(SETUP + [first]), second);
  }

  lemma TwoCreated(t: Store, second: Call)
    requires Valid(t) && second == CreatePlan(OneTaskRequest(2, "")) && t.projects == map["app" := 1]
    requires t.tasks == map[1 := Some(1), 2 := Some(1)] && t.nextPlan == 2 && t.integrations == map[]
    requires t.plans == map[1 := OneTaskPlan(1)] && t.taskRows == map[1 := [TaskRow(1, 1, "{}")]]
    requires t.operations == map[] && t.deps == map[1 := []]
    ensures var u := Apply(t, second).store;
      && u.plans == map[1 := OneTaskPlan(1), 2 := OneTaskPlan(1)] && u.merged == t.merged && u.integrations == map[]
      && u.deps == map[1 := [], 2 := []]
  {
    forall p, x | HasTask(t, p, x) ensures x == 1 {
    }
    OneTaskPlanIsCreated(t, second, 2, "");
  }

  /**
   Two plain status writes to admitted, as the integration builder issues them, put two plans of one
   project into the lease.
   */
  lemma BargingBreaksTheLease()
    ensures !Exclusive(Reached(TWO_PLANS + [SetStatus(1, Admitted)] + [SetStatus(2, Admitted)]))
  {
    hide Shaped, HistoryOk, LinksOk;
    EmptyIsValid();
    TwoQueuedPlans();
    var s := Reached(TWO_PLANS);
    hide Run, Transition;
    var first, second := SetStatus(1, Admitted), SetStatus(2, Admitted);
    assert forall j :: !OccupiedOther(s, 1, j);
    ExclusiveStep(s, first);
    MoveOnSettled(s, first, 1, Admitted);
    RunOne(EMPTY, TWO_PLANS, first);
    var t := Reached(TWO_PLANS + [first]);
    assert OccupiedOther(t, 2, 1);
    ExclusiveStep(t, second);
    RunOne(EMPTY, TWO_PLANS + [first], second);
  }

  // A plan that runs ahead of its dependency

  /** The second plan depends on the first. */
  const DEPENDENT: seq<Call> := TWO_PLANS + [AddDependency(2, 1)]

  lemma NoWayBack(g: Graph)
    requires g == map[1 := [], 2 := []]
    ensures !Reaches(g, 1, 2)
  {
    if Reaches(g, 1, 2) {
      var p :| PathBetween(g, p, 1, 2);
      ClosedTrapsPath(g, {1}, p);
    }
  }

  lemma SecondDependsOnFirst(s: Store)
    requires Shaped(s) && s.plans == map[1 := OneTaskPlan(1), 2 := OneTaskPlan(1)] && s.merged == {}
    requires s.deps == map[1 := [], 2 := []]
    ensures var t := Apply(s, AddDependency(2, 1)).store;
      t.plans == s.plans && t.merged == {} && t.deps == map[1 := [], 2 := [1]]
  {
    NoWayBack(s.deps);
    hide Reaches, Shaped;
    var linked := Relinked(s, 2, [1], DependencyAdded(1));
    DependencyIsWritten(s);
    assert linked.merged == {} && Reconcile(linked, 2) == linked;
    assert linked.plans == s.plans;
  }

  lemma DependencyIsWritten(s: Store)
    requires Shaped(s) && s.plans == map[1 := OneTaskPlan(1), 2 := OneTaskPlan(1)]
    requires s.deps == map[1 := [], 2 := []] && !Reaches(s.deps, 1, 2)
    ensures Apply(s, AddDependency(2, 1)).store == Reconcile(Relinked(s, 2, [1], DependencyAdded(1)), 2)
  {
    hide Relinked, Reconcile, Reaches;
    assert [] + [1] == [1];
    assert Apply(s, AddDependency(2, 1)) == Depend(s, 2, 1);
    hide Apply;
  }

  lemma SecondIsUnready(t: Store)
    requires t.plans == map[1 := OneTaskPlan(1), 2 := OneTaskPlan(1)] && t.merged == {}
    requires t.deps == map[1 := [], 2 := [1]]
    ensures Warranted(t) && AdmitsUnready(t, SetStatus(2, Admitted))
  {
    assert Edge(t.deps, 2, 1);
  }

  lemma DependentPlans()
    ensures var t := Reached(DEPENDENT);
      && t.plans == map[1 := OneTaskPlan(1), 2 := OneTaskPlan(1)] && t.merged == {}
      && t.deps == map[1 := [], 2 := [1]]
  {
    EmptyIsValid();
    TwoQueuedPlans();
    var s := Reached(TWO_PLANS);
    ValidIsShaped(s);
    hide Apply, Valid, Shaped, Run;
    RunOne(EMPTY, TWO_PLANS, AddDependency(2, 1));
    SecondDependsOnFirst(s);
  }

  /** A direct write admits the second plan while the first, which it waits for, has not been started. */
  lemma DirectAdmissionRunsAhead()
    ensures AdmitsUnready(Reached(DEPENDENT), SetStatus(2, Admitted))
    ensures !Warranted(Reached(DEPENDENT + [SetStatus(2, Admitted)]))
  {
    EmptyIsValid();
    DependentPlans();
    var t := Reached(DEPENDENT);
    ValidIsShaped(t);
    hide Apply, Valid, Shaped, Run, Warranted, AdmitsUnready;
    SecondIsUnready(t);
    WarrantStep(t, SetStatus(2, Admitted));
    RunOne(EMPTY, DEPENDENT, SetStatus(2, Admitted));
  }

  // A checkpoint that disagrees with its plan for ever

  const STALE := IntegrationRequest(1, 1, 7, "branch", "tree", "tree")

  lemma StaleCheckpoint(more: seq<Call>)
    ensures var t := Run(Reached(TWO_PLANS), [CreateIntegration(STALE)] + more);
      1 in t.plans && 1 in t.integrations && t.integrations[1].planRevision != t.plans[1].revision
  {
    TwoQueuedPlans();
    var s := Reached(TWO_PLANS);
    assert s.plans[1] == OneTaskPlan(1);
    assert Integrate(s, STALE).outcome == Done(1, true);
    CheckpointRevisionAgreement(s, STALE, more);
  }

  // A keyed creation that cannot be repeated

  const REPLAN := ReplanRequest(1, "Objective", CRITERIA, [TaskChoice(2, "{}")], "")

  const IDLE := TaskState(false, false, true)

  lemma NoOtherPlan(t: Store, task: int)
    requires t.plans == map[1 := OneTaskPlan(1)]
    ensures !Taken(t, task, 1)
  {
  }

  lemma ReplannedAway(t: Store)
    requires Shaped(t) && t.tasks == map[1 := Some(1), 2 := Some(1)]
    requires t.plans == map[1 := OneTaskPlan(1)] && t.integrations == map[]
    ensures var u := Apply(t, ReplanPlan(REPLAN)).store;
      u.tasks == t.tasks && u.taskRows == t.taskRows[1 := [TaskRow(2, 1, "{}")]]
  {
    hide Replan, ShapeError, TaskProjectError, AvailabilityError, Ids, RowsFor, Taken, Shaped;
    NoOtherPlan(t, 2);
    RequestFits(t, 2, 1, 1);
    ReplanFits(t);
    assert Apply(t, ReplanPlan(REPLAN)) == Replan(t, REPLAN);
  }

  /** The replan passes every check, so it rewrites the task rows. */
  lemma ReplanFits(t: Store)
    requires Shaped(t) && 1 in t.plans && t.plans[1] == OneTaskPlan(1) && t.integrations == map[]
    requires var r := REPLAN;
      && ShapeError("-", r.objective, r.criteria, Ids(r.tasks), [], r.key).None?
      && TaskProjectError(t.tasks, 1, Ids(r.tasks)).None? && AvailabilityError(t, Ids(r.tasks), 1).None?
    ensures var u := Replan(t, REPLAN).store;
      u.tasks == t.tasks && u.taskRows == t.taskRows[1 := RowsFor(REPLAN.tasks)]
  {
    hide ShapeError, TaskProjectError, AvailabilityError, Ids, RowsFor;
  }

  lemma TaskDeleted(u: Store)
    requires 1 in u.tasks && u.taskRows == map[1 := [TaskRow(2, 1, "{}")]]
    ensures 1 !in DropTask(u, 1, IDLE).store.tasks
  {
    forall p ensures !HasTask(u, p, 1) {
    }
  }

  lemma KeyedPlanIsCreated(create: Call)
    requires create == CreatePlan(OneTaskRequest(1, "key"))
    ensures Valid(READY) && Applied(READY, create) && Apply(READY, create).outcome == Done(1, true)
    ensures var t := Apply(READY, create).store;
      && Valid(t) && t.tasks == READY.tasks && t.plans == map[1 := OneTaskPlan(1)]
      && t.taskRows == map[1 := [TaskRow(1, 1, "{}")]] && t.integrations == map[]
  {
    Setup();
    NobodyHasTasks(READY, 1, -1);
    OneTaskPlanIsCreated(READY, create, 1, "key");
    ApplyFollows(READY, create);
  }

  lemma ValidIsShaped(s: Store)
    requires Valid(s)
    ensures Shaped(s)
  {
  }

  lemma ThreeCalls(s: Store, a: Call, b: Call, c: Call)
    requires Valid(s)
    ensures var t := Apply(s, a).store;
      && Valid(t) && Valid(Apply(t, b).store)
      && Run(s, [a] + [b, c]) == Apply(Apply(t, b).store, c).store
  {
    hide Apply, Valid, Shaped;
    ValidIsShaped(s);
    RunFrom(s, a, [b, c]);
    var t := Apply(s, a).store;
    ValidIsShaped(t);
    RunFrom(t, b, [c]);
    assert [b] + [c] == [b, c];
    var u := Apply(t, b).store;
    ValidIsShaped(u);
    RunFrom(u, c, []);
    assert [c] + [] == [c];
  }

  lemma ItsTaskIsDeleted(create: Call)
    requires create == CreatePlan(OneTaskRequest(1, "key")) && Valid(READY)
    ensures 1 !in Run(READY, [create] + [ReplanPlan(REPLAN), DeleteTask(1, IDLE)]).tasks
  {
    KeyedPlanIsCreated(create);
    var t := Apply(READY, create).store;
    ThreeCalls(READY, create, ReplanPlan(REPLAN), DeleteTask(1, IDLE));
    DeletedAfterReplan(t);
  }

  lemma DeletedAfterReplan(t: Store)
    requires Valid(t) && t.tasks == map[1 := Some(1), 2 := Some(1)] && t.plans == map[1 := OneTaskPlan(1)]
    requires t.taskRows == map[1 := [TaskRow(1, 1, "{}")]] && t.integrations == map[]
    ensures Valid(Apply(t, ReplanPlan(REPLAN)).store)
    ensures 1 !in Apply(Apply(t, ReplanPlan(REPLAN)).store, DeleteTask(1, IDLE)).store.tasks
  {
    hide Valid, Shaped, Replan, DropTask;
    ValidIsShaped(t);
    ApplyFollows(t, ReplanPlan(REPLAN));
    ReplannedAway(t);
    ValidIsShaped(Apply(t, ReplanPlan(REPLAN)).store);
    TaskDeleted(Apply(t, ReplanPlan(REPLAN)).store);
  }

  /**
   A plan is created under a key, replanned without its task, and the task is deleted: repeating the
   creation then fails, although its key is spent.
   */
  lemma RepeatedCreationCanFail(create: Call)
    requires create == CreatePlan(OneTaskRequest(1, "key"))
    ensures Valid(READY) && Applied(READY, create)
    ensures var t := Run(READY, [create] + [ReplanPlan(REPLAN), DeleteTask(1, IDLE)]);
      "key" in t.operations && Apply(t, create).outcome != Done(t.operations["key"].plan, false)
  {
    KeyedPlanIsCreated(create);
    ItsTaskIsDeleted(create);
    hide Apply, Valid, Run;
    var between := [ReplanPlan(REPLAN), DeleteTask(1, IDLE)];
    assert Ids(create.create.tasks)[0] == 1 && 1 in Ids(create.create.tasks);
    KeyIsSpentOnce(READY, create, between, create);
    RepeatedCreateReads(READY, create, between);
  }
}
