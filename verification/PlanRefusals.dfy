/** A refused request is refused for a reason that holds: what each complaint about one says. */
module PlanRefusals {
  import opened Basics
  import opened PlanTables
  import opened PlanSpec
  import opened PlanRequests

  /** What a complaint about the tasks or the dependencies of a request says. */
  ghost predicate Explains(s: Store, e: Error, project: int, ids: seq<int>, except: int, dependsOn: seq<int>) {
    match e
    case BadTaskId => exists t :: t in ids && t <= 0
    case DuplicateTask(t) => exists i, j :: 0 <= i < j < |ids| && ids[i] == t && ids[j] == t
    case UnknownTask(t) => t in ids && t !in s.tasks
    case TaskOutsideProject(t) => t in ids && t in s.tasks && s.tasks[t] != Some(project)
    case TaskTaken(t) => t in ids && exists p :: p != except && WorkedOn(s, p, t)
    case SelfDependency => s.nextPlan in dependsOn
    case UnknownPlan(d) => d in dependsOn && d !in s.plans
    case CrossProjectDependency(d) => d in dependsOn && d in s.plans && s.plans[d].project != project
    case _ => false
  }

  /** A complaint about some of the tasks is one about all of them. */
  lemma ExplainsMore(s: Store, project: int, ids: seq<int>, except: int, ds: seq<int>)
    requires ids != []
    ensures forall e ::
      Explains(s, e, project, ids[..|ids| - 1], except, ds) ==> Explains(s, e, project, ids, except, ds)
  {
    var init := ids[..|ids| - 1];
    forall e | Explains(s, e, project, init, except, ds) ensures Explains(s, e, project, ids, except, ds) {
      if e.DuplicateTask? {
        var i, j :| 0 <= i < j < |init| && init[i] == e.task && init[j] == e.task;
        assert ids[i] == e.task && ids[j] == e.task;
      }
      if e.BadTaskId? {
        var t :| t in init && t <= 0;
        assert t in ids;
      }
    }
  }

  lemma {:induction false} IdsComplaint(s: Store, project: int, ids: seq<int>, except: int, ds: seq<int>)
    ensures TaskIdsError(ids).Some? ==> Explains(s, TaskIdsError(ids).value, project, ids, except, ds)
    ensures TaskIdsError(ids).Some? ==> TaskIdsError(ids).value.BadTaskId? || TaskIdsError(ids).value.DuplicateTask?
  {
    if ids != [] {
      var init, last := ids[..|ids| - 1], ids[|ids| - 1];
      IdsComplaint(s, project, init, except, ds);
      ExplainsMore(s, project, ids, except, ds);
      assert last in ids;
      if TaskIdsError(init).None? && last > 0 && last in init {
        var i :| 0 <= i < |init| && init[i] == last;
        assert ids[i] == last && ids[|init|] == last;
      }
    }
  }

  lemma {:induction false} TasksComplaint(s: Store, project: int, ids: seq<int>, except: int, ds: seq<int>)
    ensures var e := TaskProjectError(s.tasks, project, ids); e.Some? ==> Explains(s, e.value, project, ids, except, ds)
  {
    if ids != [] {
      TasksComplaint(s, project, ids[..|ids| - 1], except, ds);
      ExplainsMore(s, project, ids, except, ds);
    }
  }

  lemma {:induction false} AvailabilityComplaint(s: Store, project: int, ids: seq<int>, except: int, ds: seq<int>)
    ensures var e := AvailabilityError(s, ids, except); e.Some? ==> Explains(s, e.value, project, ids, except, ds)
  {
    if ids != [] {
      AvailabilityComplaint(s, project, ids[..|ids| - 1], except, ds);
      ExplainsMore(s, project, ids, except, ds);
      TakenIsWorkedOn(s, ids[|ids| - 1], except);
      hide Taken, WorkedOn;
    }
  }

  lemma {:induction false} DependencyComplaint(s: Store, project: int, ids: seq<int>, except: int, ds: seq<int>)
    ensures var e := FreshDependencyError(s, project, ds); e.Some? ==> Explains(s, e.value, project, ids, except, ds)
  {
    if ds != [] {
      DependencyComplaint(s, project, ids, except, ds[..|ds| - 1]);
    }
  }

  /** What a complaint about the shape of a request says. */
  ghost predicate ShapeExplains(e: Error, projectKey: string, objective: string, criteria: seq<string>, ids: seq<int>,
                             dependsOn: seq<int>, key: string)
  {
    match e
    case ProjectRequired => projectKey == ""
    case BadTaskId => exists t :: t in ids && t <= 0
    case DuplicateTask(t) => exists i, j :: 0 <= i < j < |ids| && ids[i] == t && ids[j] == t
    case BadDependencyId => exists d :: d in dependsOn && d <= 0
    case ObjectiveTooShort => |objective| < 8
    case NoCriteria => forall c :: c in criteria ==> c == ""
    case NoTasks => ids == []
    case KeyTooLong => |key| > 120
    case _ => false
  }

  lemma ShapeComplaint(projectKey: string, objective: string, criteria: seq<string>, ids: seq<int>,
                       dependsOn: seq<int>, key: string)
    ensures var e := ShapeError(projectKey, objective, criteria, ids, dependsOn, key);
      e.Some? ==> ShapeExplains(e.value, projectKey, objective, criteria, ids, dependsOn, key)
  {
    IdsComplaint(EMPTY, 0, ids, -1, []);
    CriteriaSaySomething(criteria);
    hide TaskIdsError, Criteria;
  }

  /** A refused creation names something that is wrong with the request. */
  lemma CreationRefusal(s: Store, r: CreateRequest)
    requires Shaped(s) && Apply(s, CreatePlan(r)).outcome.Failed?
    ensures var e, ids := Apply(s, CreatePlan(r)).outcome.error, Ids(r.tasks);
      || ShapeExplains(e, r.projectKey, r.objective, r.criteria, ids, r.dependsOn, r.key)
      || (e == UnknownProject && r.projectKey !in s.projects)
      || (e == KeyReused && r.key != "" && r.key in s.operations)
      || (r.projectKey in s.projects && Explains(s, e, s.projects[r.projectKey], ids, -1, r.dependsOn))
  {
    var ids := Ids(r.tasks);
    assert Apply(s, CreatePlan(r)) == Create(s, r);
    hide Apply;
    ShapeComplaint(r.projectKey, r.objective, r.criteria, ids, r.dependsOn, r.key);
    if r.projectKey in s.projects {
      var project := s.projects[r.projectKey];
      TasksComplaint(s, project, ids, -1, r.dependsOn);
      AvailabilityComplaint(s, project, ids, -1, r.dependsOn);
      DependencyComplaint(s, project, ids, -1, Dedup(r.dependsOn));
      DedupExplains(s, project, ids, -1, r.dependsOn);
    }
    hide Shaped, ShapeError, TaskProjectError, AvailabilityError, FreshDependencyError, Explains, ShapeExplains;
    hide WithNewPlan, Remember, Dedup;
  }

  lemma DedupExplains(s: Store, project: int, ids: seq<int>, except: int, ds: seq<int>)
    ensures forall e :: Explains(s, e, project, ids, except, Dedup(ds)) ==> Explains(s, e, project, ids, except, ds)
  {
    hide Dedup;
  }

  /** So does a refused replan. */
  lemma ReplanRefusal(s: Store, r: ReplanRequest)
    requires Shaped(s) && Apply(s, ReplanPlan(r)).outcome.Failed?
    ensures var e, ids := Apply(s, ReplanPlan(r)).outcome.error, Ids(r.tasks);
      || ShapeExplains(e, "-", r.objective, r.criteria, ids, [], r.key)
      || (e == UnknownPlan(r.plan) && r.plan !in s.plans)
      || (e == KeyReused && r.key != "" && r.key in s.operations)
      || (r.plan in s.plans && e == PlanTerminal(s.plans[r.plan].status)
          && s.plans[r.plan].status in {Completed, Cancelled})
      || (e == IntegrationStarted && r.plan in s.integrations)
      || (r.plan in s.plans && Explains(s, e, s.plans[r.plan].project, ids, r.plan, []))
  {
    var ids := Ids(r.tasks);
    assert Apply(s, ReplanPlan(r)) == Replan(s, r);
    hide Apply;
    ShapeComplaint("-", r.objective, r.criteria, ids, [], r.key);
    if r.plan in s.plans {
      TasksComplaint(s, s.plans[r.plan].project, ids, r.plan, []);
      AvailabilityComplaint(s, s.plans[r.plan].project, ids, r.plan, []);
    }
    hide Shaped, ShapeError, TaskProjectError, AvailabilityError, Explains, ShapeExplains;
    hide Retasked, Remember, Reconcile;
  }
}
