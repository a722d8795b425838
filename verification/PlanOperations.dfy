/** Every call on the tables leads from valid tables to valid tables that remember the earlier ones. */
module PlanOperations {
  import opened Basics
  import opened DependencyGraph
  import opened PlanTables
  import opened PlanSpec
  import opened PlanInvariants

  /** A plain logged write followed by the reconciling read of the answer. */
  lemma WriteFollows(s: Store, id: int, q: Plan, action: Action)
    requires Valid(s) && id in s.plans && PlainChange(s.plans[id], q, action)
    ensures Follows(s, Write(s, id, q, action).store)
  {
    PlainWrite(s, id, q, action);
    ReconcileAfter(s, Log(s, id, q, action), id);
  }

  /** A call that may fail, read, or write once. */
  lemma CallFollows(s: Store, id: int, step: Step, q: Plan, action: Action)
    requires Valid(s)
    requires step.store == s
      || (id in s.plans && step == Read(s, id))
      || (id in s.plans && step == Write(s, id, q, action) && PlainChange(s.plans[id], q, action))
    ensures Follows(s, step.store)
  {
    if step.store == s {
      LaterReflexive(s);
    } else if step == Read(s, id) {
      ReconcileFollows(s, id);
    } else {
      WriteFollows(s, id, q, action);
    }
  }

  lemma TransitionFollows(s: Store, id: int, to: Status)
    requires Valid(s)
    ensures Follows(s, Transition(s, id, to).store)
  {
    var q := if id in s.plans then s.plans[id].(status := to) else NO_PLAN;
    CallFollows(s, id, Transition(s, id, to), q, StatusChanged);
  }

  const NO_PLAN := Plan(0, "", [], Queued, 0, false, 0)

  lemma PauseFollows(s: Store, id: int)
    requires Valid(s)
    ensures Follows(s, Pause(s, id).store)
  {
    var q := if id in s.plans then s.plans[id].(paused := true) else NO_PLAN;
    CallFollows(s, id, Pause(s, id), q, Paused);
  }

  lemma ResumeFollows(s: Store, id: int)
    requires Valid(s)
    ensures Follows(s, Resume(s, id).store)
  {
    var q := if id in s.plans then s.plans[id].(paused := false) else NO_PLAN;
    CallFollows(s, id, Resume(s, id), q, Resumed);
  }

  lemma PrioritizeFollows(s: Store, id: int, priority: int)
    requires Valid(s)
    ensures Follows(s, Prioritize(s, id, priority).store)
  {
    hide LinksOk, EdgesOk, Mergeable, PlanLater;
    var p := if id in s.plans then s.plans[id] else NO_PLAN;
    CallFollows(s, id, Prioritize(s, id, priority), p.(priority := priority), PrioritySet(p.priority, priority));
  }

  lemma CancelFollows(s: Store, id: int)
    requires Valid(s)
    ensures Follows(s, Cancel(s, id).store)
  {
    var q := if id in s.plans then s.plans[id].(status := Cancelled) else NO_PLAN;
    CallFollows(s, id, Cancel(s, id), q, CancelRequested);
  }

  lemma CompleteFollows(s: Store, id: int)
    requires Valid(s)
    ensures Follows(s, Complete(s, id).store)
  {
    var q := if id in s.plans then s.plans[id].(status := Completed) else NO_PLAN;
    CallFollows(s, id, Complete(s, id), q, ReconciledAfterFeatureMerge);
  }

  lemma EvaluateFollows(s: Store, id: int)
    requires Valid(s)
    ensures Follows(s, Evaluate(s, id).store)
  {
    LaterReflexive(s);
    if id in s.plans {
      ReconcileSetFollows(s, Touched(s, id));
    }
  }

  lemma AdmitFollows(s: Store, id: int)
    requires Valid(s)
    ensures Follows(s, Admit(s, id).store)
  {
    hide ReconcileSet, Judge, EdgesOk, LinksOk, TaskListOk, HistoryOk, PlanLater, Mergeable;
    if id !in s.plans {
      LaterReflexive(s);
    } else if Occupied(s.plans[id].status) || s.plans[id].status == Completed {
      ReconcileFollows(s, id);
    } else {
      ReconcileSetFollows(s, Touched(s, id));
      TransitionAfter(s, ReconcileSet(s, Touched(s, id)), id);
    }
  }

  lemma TransitionAfter(s: Store, t: Store, id: int)
    requires Follows(s, t)
    ensures Follows(s, Transition(t, id, Admitted).store)
  {
    TransitionFollows(t, id, Admitted);
    FollowsTransitive(s, t, Transition(t, id, Admitted).store);
  }

  // Dependencies

  lemma EdgeAdded(s: Store, id: int, on: int)
    requires Shaped(s) && id in s.plans && on in s.plans
    ensures Shaped(s.(deps := s.deps[id := s.deps[id] + [on]]))
    ensures Extends(s.deps, s.deps[id := s.deps[id] + [on]], id, on)
  {
    var g := s.deps[id := s.deps[id] + [on]];
    forall a, b ensures Edge(g, a, b) <==> Edge(s.deps, a, b) || (a == id && b == on) {
    }
  }

  lemma EdgeRemoved(s: Store, id: int, on: int)
    requires Shaped(s) && id in s.plans
    ensures Shaped(s.(deps := s.deps[id := Keep(s.deps[id], d => d != on)]))
    ensures forall a, b :: Edge(s.deps[id := Keep(s.deps[id], d => d != on)], a, b)
              <==> Edge(s.deps, a, b) && !(a == id && b == on)
  {
    var g := s.deps[id := Keep(s.deps[id], d => d != on)];
    assert forall a, b :: Edge(g, a, b) ==> Edge(s.deps, a, b);
  }

  ghost predicate LinkChange(old_: seq<int>, ds: seq<int>, action: Action) {
    || (action.DependencyAdded? && ds == old_ + [action.on])
    || (action.DependencyRemoved? && ds == Keep(old_, d => d != action.on))
  }

  lemma RelinkedLater(s: Store, id: int, ds: seq<int>, action: Action)
    requires Shaped(s) && id in s.plans && Shaped(Relinked(s, id, ds, action))
    requires LinkChange(s.deps[id], ds, action)
    ensures Later(s, Relinked(s, id, ds, action))
  {
    var row := HistoryRow(Some(s.plans[id].status), s.plans[id].status, action);
    OneRow(ViewOf(s.plans[id]), s.deps[id], row);
    assert LoggedWrite(s, Relinked(s, id, ds, action), id, row);
    LoggedWriteLater(s, Relinked(s, id, ds, action), id, row);
  }

  lemma RelinkedFollows(s: Store, id: int, ds: seq<int>, action: Action)
    requires Valid(s) && id in s.plans && Shaped(Relinked(s, id, ds, action))
    requires LinkChange(s.deps[id], ds, action) && EdgesOk(Relinked(s, id, ds, action))
    ensures Follows(s, Relinked(s, id, ds, action))
  {
    var t := Relinked(s, id, ds, action);
    RelinkedLater(s, id, ds, action);
    HistoriesCarry(s, t);
    TaskListsCarry(s, t);
    OpenShrinks(s, t);
    LinksCarry(s, t);
    Assemble(s, t);
  }

  lemma AddedEdgeOk(s: Store, id: int, on: int)
    requires Shaped(s) && EdgesOk(s) && id in s.plans && on in s.plans && s.plans[id].project == s.plans[on].project
    requires !Reaches(s.deps, on, id) && on !in s.deps[id]
    ensures var t := Relinked(s, id, s.deps[id] + [on], DependencyAdded(on)); Shaped(t) && EdgesOk(t)
  {
    var t := Relinked(s, id, s.deps[id] + [on], DependencyAdded(on));
    EdgeAdded(s, id, on);
    GuardIsExact(s.deps, t.deps, id, on);
  }

  lemma DependFollows(s: Store, id: int, on: int)
    requires Valid(s)
    ensures Follows(s, Depend(s, id, on).store)
  {
    if Depend(s, id, on).outcome.Done? {
      AddedEdgeOk(s, id, on);
      RelinkedFollows(s, id, s.deps[id] + [on], DependencyAdded(on));
      ReconcileAfter(s, Relinked(s, id, s.deps[id] + [on], DependencyAdded(on)), id);
    } else {
      LaterReflexive(s);
    }
  }

  lemma RemovedEdgeOk(s: Store, id: int, on: int)
    requires Shaped(s) && EdgesOk(s) && id in s.plans
    ensures var t := Relinked(s, id, Keep(s.deps[id], d => d != on), DependencyRemoved(on)); Shaped(t) && EdgesOk(t)
  {
    var t := Relinked(s, id, Keep(s.deps[id], d => d != on), DependencyRemoved(on));
    EdgeRemoved(s, id, on);
    SubgraphAcyclic(t.deps, s.deps);
    KeepNoDup(s.deps[id], d => d != on);
  }

  lemma UndependFollows(s: Store, id: int, on: int)
    requires Valid(s)
    ensures Follows(s, Undepend(s, id, on).store)
  {
    if id in s.plans {
      var ds := Keep(s.deps[id], d => d != on);
      RemovedEdgeOk(s, id, on);
      RelinkedFollows(s, id, ds, DependencyRemoved(on));
      ReconcileAfter(s, Relinked(s, id, ds, DependencyRemoved(on)), id);
    } else {
      LaterReflexive(s);
    }
  }

  // Request validation, read as facts

  lemma {:induction false} TaskIdsDistinct(ids: seq<int>)
    requires TaskIdsError(ids).None?
    ensures NoDup(ids)
  {
    if ids != [] {
      TaskIdsDistinct(ids[..|ids| - 1]);
    }
  }

  lemma {:induction false} TasksInProject(tasks: map<int, Option<int>>, project: int, ids: seq<int>)
    ensures TaskProjectError(tasks, project, ids).None?
      <==> forall t :: t in ids ==> t in tasks && tasks[t] == Some(project)
  {
    if ids != [] {
      TasksInProject(tasks, project, ids[..|ids| - 1]);
      assert forall t :: t in ids <==> t in ids[..|ids| - 1] || t == ids[|ids| - 1];
    }
  }

  lemma {:induction false} TasksAvailable(s: Store, ids: seq<int>, except: int)
    ensures AvailabilityError(s, ids, except).None? <==> forall t :: t in ids ==> !Taken(s, t, except)
  {
    if ids != [] {
      TasksAvailable(s, ids[..|ids| - 1], except);
      assert forall t :: t in ids <==> t in ids[..|ids| - 1] || t == ids[|ids| - 1];
    }
  }

  lemma {:induction false} FreshDependenciesKnown(s: Store, project: int, ds: seq<int>)
    ensures FreshDependencyError(s, project, ds).None?
      <==> forall d :: d in ds ==> d != s.nextPlan && d in s.plans && s.plans[d].project == project
  {
    if ds != [] {
      var init, last := ds[..|ds| - 1], ds[|ds| - 1];
      FreshDependenciesKnown(s, project, init);
      assert forall d :: d in ds <==> d in init || d == last;
    }
  }

  /** The rows of a valid request form a numbered task list naming exactly the requested tasks. */
  lemma RowsAreNumbered(tasks: seq<TaskChoice>)
    requires TaskIdsError(Ids(tasks)).None?
    ensures Numbered(RowsFor(tasks))
    ensures forall r :: r in RowsFor(tasks) ==> r.task in Ids(tasks)
  {
    TaskIdsDistinct(Ids(tasks));
    forall r | r in RowsFor(tasks) ensures r.task in Ids(tasks) {
      var i :| 0 <= i < |tasks| && RowsFor(tasks)[i] == r;
      assert Ids(tasks)[i] == r.task;
    }
  }

  // Creation

  /** No search from an existing plan ever meets a plan that is being created. */
  lemma FreshPlanHasNoCycle(g: Graph, newId: int, d: int)
    requires d != newId && forall a, b :: Edge(g, a, b) ==> b != newId
    ensures !Reaches(g, d, newId)
  {
    forall p ensures !PathBetween(g, p, d, newId) {
      if IsPath(g, p) && |p| > 1 {
        assert Edge(g, p[|p| - 2], p[|p| - 2 + 1]);
      }
    }
  }

  lemma {:induction false} PathAvoidsFresh(g: Graph, h: Graph, newId: int, p: seq<int>)
    requires forall a, b :: Edge(h, a, b) ==> b != newId
    requires forall a, b :: a != newId ==> (Edge(h, a, b) <==> Edge(g, a, b))
    requires IsPath(h, p) && p[0] != newId
    ensures IsPath(g, p)
  {
    forall i | 0 <= i < |p| - 1 ensures Edge(g, p[i], p[i + 1]) {
      assert Edge(h, p[i], p[i + 1]);
      assert i > 0 ==> Edge(h, p[i - 1], p[i - 1 + 1]);
    }
  }

  lemma FreshPlanAcyclic(g: Graph, h: Graph, newId: int)
    requires Acyclic(g)
    requires forall a, b :: Edge(h, a, b) ==> b != newId
    requires forall a, b :: a != newId ==> (Edge(h, a, b) <==> Edge(g, a, b))
    ensures Acyclic(h)
  {
    forall a, b | Edge(h, a, b) ensures !Reaches(h, b, a) {
      if Reaches(h, b, a) {
        var p :| PathBetween(h, p, b, a);
        PathAvoidsFresh(g, h, newId, p);
        assert PathBetween(g, p, b, a);
        if a == newId {
          FreshPlanHasNoCycle(h, newId, b);
        }
      }
    }
  }

  lemma NewPlanShaped(s: Store, p: Plan, tasks: seq<TaskChoice>, ds: seq<int>)
    requires Shaped(s) && forall d :: d in ds ==> d in s.plans
    ensures Shaped(WithNewPlan(s, p, tasks, ds))
  {
    var t := WithNewPlan(s, p, tasks, ds);
    forall a, b | Edge(t.deps, a, b) ensures b in t.plans {
      assert a != s.nextPlan ==> Edge(s.deps, a, b);
    }
  }

  lemma NewPlanLater(s: Store, p: Plan, tasks: seq<TaskChoice>, ds: seq<int>)
    requires Shaped(s) && Shaped(WithNewPlan(s, p, tasks, ds))
    ensures Later(s, WithNewPlan(s, p, tasks, ds))
  {
    UntouchedLater(s, WithNewPlan(s, p, tasks, ds));
  }

  /** Tables in which the rows of the earlier plans are the same are later tables. */
  lemma UntouchedLater(s: Store, t: Store)
    requires Shaped(s) && Shaped(t) && s.nextPlan <= t.nextPlan
    requires forall k :: k in s.projects ==> k in t.projects && t.projects[k] == s.projects[k]
    requires forall j :: j in s.plans ==> j in t.plans && t.plans[j] == s.plans[j]
    requires forall j :: j in s.plans ==> t.history[j] == s.history[j] && t.deps[j] == s.deps[j]
    requires forall j :: j in s.plans ==> t.taskRows[j] == s.taskRows[j]
    requires forall k :: k in s.operations ==> k in t.operations && t.operations[k] == s.operations[k]
    requires forall id :: id in s.integrations ==> id in t.integrations && t.integrations[id] == s.integrations[id]
    ensures Later(s, t)
  {
    forall j | j in s.plans ensures PlanLater(s, t, j) {
      assert s.history[j] == s.history[j] + [];
      assert Logged(s, t, j, []);
    }
  }

  lemma NewPlanEdges(s: Store, p: Plan, tasks: seq<TaskChoice>, ds: seq<int>)
    requires Valid(s) && NoDup(ds)
    requires forall d :: d in ds ==> d in s.plans && s.plans[d].project == p.project
    ensures EdgesOk(WithNewPlan(s, p, tasks, ds))
  {
    var t := WithNewPlan(s, p, tasks, ds);
    forall a, b | Edge(t.deps, a, b) ensures b in s.plans && b != s.nextPlan {
      assert a != s.nextPlan ==> Edge(s.deps, a, b);
    }
    assert forall a, b :: a != s.nextPlan ==> (Edge(t.deps, a, b) <==> Edge(s.deps, a, b));
    FreshPlanAcyclic(s.deps, t.deps, s.nextPlan);
  }

  lemma NewPlanRows(s: Store, p: Plan, tasks: seq<TaskChoice>, ds: seq<int>)
    requires Valid(s) && forall d :: d in ds ==> d in s.plans
    requires TaskIdsError(Ids(tasks)).None? && TaskProjectError(s.tasks, p.project, Ids(tasks)).None?
    requires ViewOf(p) == Birth(p.priority)
    ensures var t := WithNewPlan(s, p, tasks, ds);
      forall j :: j in t.plans ==> HistoryOk(t, j) && TaskListOk(t, j)
  {
    var t := WithNewPlan(s, p, tasks, ds);
    NewPlanShaped(s, p, tasks, ds);
    NewPlanLater(s, p, tasks, ds);
    RowsAreNumbered(tasks);
    TasksInProject(s.tasks, p.project, Ids(tasks));
    forall j | j in t.plans ensures HistoryOk(t, j) && TaskListOk(t, j) {
      if j == s.nextPlan {
        assert t.history[j][1..] == [];
      } else {
        assert TaskListOk(s, j);
        HistoryCarries(s, t, j);
      }
    }
  }

  lemma NewPlanOwnership(s: Store, p: Plan, tasks: seq<TaskChoice>, ds: seq<int>)
    requires Shaped(s) && OwnershipOk(s)
    requires TaskIdsError(Ids(tasks)).None? && AvailabilityError(s, Ids(tasks), -1).None?
    ensures OwnershipOk(WithNewPlan(s, p, tasks, ds))
  {
    var t := WithNewPlan(s, p, tasks, ds);
    RowsAreNumbered(tasks);
    TasksAvailable(s, Ids(tasks), -1);
    forall y | y in Ids(tasks) ensures !Taken(s, y, s.nextPlan) {
      assert !Taken(s, y, -1);
    }
    SameRowsSameTasks(s, t, s.nextPlan);
    forall a, b, x | Open(t, a) && Open(t, b) && HasTask(t, a, x) && HasTask(t, b, x) ensures a == b {
      OwnerIsOld(s, t, s.nextPlan, Ids(tasks), a, b, x);
    }
  }

  lemma NewPlanLinks(s: Store, p: Plan, tasks: seq<TaskChoice>, ds: seq<int>)
    requires Shaped(s) && LinksOk(s)
    ensures LinksOk(WithNewPlan(s, p, tasks, ds))
  {
    LinksCarry(s, WithNewPlan(s, p, tasks, ds));
  }

  lemma SameRowsSameTasks(s: Store, t: Store, id: int)
    requires Shaped(s) && t.taskRows == s.taskRows[id := if id in t.taskRows then t.taskRows[id] else []]
    ensures forall j, y :: j != id ==> (HasTask(t, j, y) <==> HasTask(s, j, y))
  {
    forall j, y | j != id ensures HasTask(t, j, y) <==> HasTask(s, j, y) {
      if j in s.taskRows {
        assert t.taskRows[j] == s.taskRows[j];
      }
    }
  }

  /** Two owners of one task in the new tables are equal when the rewritten plan's tasks were available. */
  lemma OwnerIsOld(s: Store, t: Store, id: int, ids: seq<int>, a: int, b: int, x: int)
    requires OwnershipOk(s)
    requires forall j, y :: j != id ==> (HasTask(t, j, y) <==> HasTask(s, j, y))
    requires forall j :: j != id ==> (Open(t, j) <==> Open(s, j))
    requires forall y :: HasTask(t, id, y) ==> y in ids
    requires forall y :: y in ids ==> !Taken(s, y, id)
    requires Open(t, a) && Open(t, b) && HasTask(t, a, x) && HasTask(t, b, x)
    ensures a == b
  {
  }

  lemma RememberedLinks(t: Store, key: string, op: Operation)
    requires Shaped(t) && LinksOk(t) && OperationOk(t, op)
    ensures Shaped(Remember(t, key, op)) && LinksOk(Remember(t, key, op))
  {
    hide Edge;
    var u := Remember(t, key, op);
    forall k | k in u.operations ensures k != "" && OperationOk(u, u.operations[k]) {
      if k in t.operations && u.operations[k] != op {
        assert OperationOk(t, t.operations[k]);
      }
    }
  }

  lemma RememberFollows(s: Store, t: Store, key: string, op: Operation)
    requires Follows(s, t) && OperationOk(t, op)
    requires key == "" || key !in t.operations
    ensures Follows(s, Remember(t, key, op))
  {
    RememberedLinks(t, key, op);
    SideFollows(t, Remember(t, key, op));
    FollowsTransitive(s, t, Remember(t, key, op));
  }

  /** The tables right after an applied creation, before its key is remembered. */
  lemma NewPlanFollows(s: Store, p: Plan, tasks: seq<TaskChoice>, ds: seq<int>)
    requires Valid(s) && NoDup(ds) && ViewOf(p) == Birth(p.priority)
    requires TaskIdsError(Ids(tasks)).None? && AvailabilityError(s, Ids(tasks), -1).None?
    requires TaskProjectError(s.tasks, p.project, Ids(tasks)).None?
    requires FreshDependencyError(s, p.project, ds).None?
    ensures Follows(s, WithNewPlan(s, p, tasks, ds))
  {
    FreshDependenciesKnown(s, p.project, ds);
    NewPlanShaped(s, p, tasks, ds);
    NewPlanLater(s, p, tasks, ds);
    NewPlanEdges(s, p, tasks, ds);
    NewPlanRows(s, p, tasks, ds);
    NewPlanOwnership(s, p, tasks, ds);
    NewPlanLinks(s, p, tasks, ds);
    Assemble(s, WithNewPlan(s, p, tasks, ds));
  }

  lemma CreateChain(s: Store, r: CreateRequest, p: Plan, ds: seq<int>, op: Operation)
    requires Valid(s) && NoDup(ds) && ViewOf(p) == Birth(p.priority)
    requires TaskIdsError(Ids(r.tasks)).None? && AvailabilityError(s, Ids(r.tasks), -1).None?
    requires TaskProjectError(s.tasks, p.project, Ids(r.tasks)).None?
    requires FreshDependencyError(s, p.project, ds).None?
    requires op.plan == s.nextPlan && op.payload.CreatePayload? && op.payload.project == p.project
    requires r.key == "" || r.key !in s.operations
    ensures Follows(s, Remember(WithNewPlan(s, p, r.tasks, ds), r.key, op))
  {
    NewPlanFollows(s, p, r.tasks, ds);
    RememberFollows(s, WithNewPlan(s, p, r.tasks, ds), r.key, op);
  }

  lemma CreateFollows(s: Store, r: CreateRequest)
    requires Valid(s)
    ensures Follows(s, Create(s, r).store)
  {
    hide Shaped, TaskListOk, PlanLater, EdgesOk, LinksOk, HistoryOk, Reconcile;
    if Create(s, r).outcome.Failed? {
      LaterReflexive(s);
    } else if r.key != "" && r.key in s.operations {
      ReconcileFollows(s, s.operations[r.key].plan);
    } else {
      var project := s.projects[r.projectKey];
      var payload := CreatePayloadOf(project, r);
      var p := Plan(project, r.objective, payload.criteria, Queued, r.priority, false, 1);
      CreateChain(s, r, p, payload.dependsOn, Operation(s.nextPlan, payload));
    }
  }

  // Replanning

  lemma RetaskedOwnership(s: Store, t: Store, id: int, tasks: seq<TaskChoice>)
    requires Shaped(s) && OwnershipOk(s) && id in s.plans
    requires TaskIdsError(Ids(tasks)).None? && AvailabilityError(s, Ids(tasks), id).None?
    requires t.taskRows == s.taskRows[id := RowsFor(tasks)]
    requires t.plans.Keys == s.plans.Keys && forall j :: j in s.plans ==> t.plans[j].status == s.plans[j].status
    ensures OwnershipOk(t)
  {
    RowsAreNumbered(tasks);
    TasksAvailable(s, Ids(tasks), id);
    SameRowsSameTasks(s, t, id);
    forall a, b, x | Open(t, a) && Open(t, b) && HasTask(t, a, x) && HasTask(t, b, x) ensures a == b {
      OwnerIsOld(s, t, id, Ids(tasks), a, b, x);
    }
  }

  lemma RetaskedLater(s: Store, r: ReplanRequest)
    requires Shaped(s) && r.plan in s.plans && !Terminal(s.plans[r.plan].status) && r.plan !in s.integrations
    ensures Shaped(Retasked(s, r)) && Later(s, Retasked(s, r))
  {
    var id, t, p := r.plan, Retasked(s, r), s.plans[r.plan];
    var row := HistoryRow(Some(p.status), p.status, Replanned(p.revision + 1));
    RetaskedShaped(s, r);
    RetaskedLogged(s, r, row);
    hide Shaped, LoggedWrite;
    LoggedWriteLater(s, t, id, row);
  }

  lemma RetaskedLogged(s: Store, r: ReplanRequest, row: HistoryRow)
    requires Shaped(s) && r.plan in s.plans && Shaped(Retasked(s, r)) && !Terminal(s.plans[r.plan].status)
    requires
      var p := s.plans[r.plan];
      row == HistoryRow(Some(p.status), p.status, Replanned(p.revision + 1))
    ensures LoggedWrite(s, Retasked(s, r), r.plan, row)
  {
    OneRow(ViewOf(s.plans[r.plan]), s.deps[r.plan], row);
    hide Shaped, ReplayDeps;
  }

  lemma RetaskedShaped(s: Store, r: ReplanRequest)
    requires Shaped(s) && r.plan in s.plans
    ensures Shaped(Retasked(s, r))
  {
  }

  lemma RetaskedRows(s: Store, r: ReplanRequest)
    requires Valid(s) && r.plan in s.plans && TaskIdsError(Ids(r.tasks)).None?
    requires TaskProjectError(s.tasks, s.plans[r.plan].project, Ids(r.tasks)).None?
    ensures forall j :: j in Retasked(s, r).plans ==> TaskListOk(Retasked(s, r), j)
  {
    var t := Retasked(s, r);
    RowsAreNumbered(r.tasks);
    TasksInProject(s.tasks, s.plans[r.plan].project, Ids(r.tasks));
    forall j | j in t.plans ensures TaskListOk(t, j) {
      assert TaskListOk(s, j);
    }
  }

  lemma RetaskedLinks(s: Store, r: ReplanRequest)
    requires EdgesOk(s) && LinksOk(s) && Aligned(s) && r.plan in s.plans
    ensures EdgesOk(Retasked(s, r)) && LinksOk(Retasked(s, r))
  {
    LinksCarry(s, Retasked(s, r));
  }

  lemma RetaskedFollows(s: Store, r: ReplanRequest)
    requires Valid(s) && r.plan in s.plans && !Terminal(s.plans[r.plan].status) && r.plan !in s.integrations
    requires TaskIdsError(Ids(r.tasks)).None?
    requires TaskProjectError(s.tasks, s.plans[r.plan].project, Ids(r.tasks)).None?
    requires AvailabilityError(s, Ids(r.tasks), r.plan).None?
    ensures Follows(s, Retasked(s, r))
  {
    hide LinksOk, EdgesOk, OwnershipOk, HistoryOk, TaskListOk, PlanLater, TaskIdsError, TaskProjectError;
    var t := Retasked(s, r);
    RetaskedLater(s, r);
    HistoriesCarry(s, t);
    RetaskedRows(s, r);
    RetaskedOwnership(s, t, r.plan, r.tasks);
    RetaskedLinks(s, r);
    Assemble(s, t);
  }

  lemma ReplanChain(s: Store, r: ReplanRequest, op: Operation)
    requires Valid(s) && r.plan in s.plans && !Terminal(s.plans[r.plan].status) && r.plan !in s.integrations
    requires TaskIdsError(Ids(r.tasks)).None?
    requires TaskProjectError(s.tasks, s.plans[r.plan].project, Ids(r.tasks)).None?
    requires AvailabilityError(s, Ids(r.tasks), r.plan).None?
    requires op == Operation(r.plan, ReplanPayloadOf(r)) && (r.key == "" || r.key !in s.operations)
    ensures Follows(s, Reconcile(Remember(Retasked(s, r), r.key, op), r.plan))
  {
    RetaskedFollows(s, r);
    RememberFollows(s, Retasked(s, r), r.key, op);
    ReconcileAfter(s, Remember(Retasked(s, r), r.key, op), r.plan);
  }

  lemma ReplanFollows(s: Store, r: ReplanRequest)
    requires Valid(s)
    ensures Follows(s, Replan(s, r).store)
  {
    hide Shaped, LinksOk, PlanLater, HasTask;
    if Replan(s, r).outcome.Failed? {
      LaterReflexive(s);
    } else if r.key != "" && r.key in s.operations {
      ReconcileFollows(s, s.operations[r.key].plan);
    } else {
      ReplanChain(s, r, Operation(r.plan, ReplanPayloadOf(r)));
    }
  }

  // Integrations and the surroundings

  /** A change outside plans, audit logs, dependencies and task rows. */
  lemma SideFollows(s: Store, t: Store)
    requires Valid(s) && Shaped(t)
    requires t.plans == s.plans && t.history == s.history && t.deps == s.deps && t.taskRows == s.taskRows
    requires t.nextPlan == s.nextPlan && LinksOk(t)
    requires forall k :: k in s.projects ==> k in t.projects && t.projects[k] == s.projects[k]
    requires forall k :: k in s.operations ==> k in t.operations && t.operations[k] == s.operations[k]
    requires forall id :: id in s.integrations ==> id in t.integrations && t.integrations[id] == s.integrations[id]
    requires forall x :: x in s.tasks && x !in t.tasks ==> forall id :: !HasTask(s, id, x)
    requires forall x :: x in s.tasks && x in t.tasks ==> t.tasks[x] == s.tasks[x]
    ensures Follows(s, t)
  {
    UntouchedLater(s, t);
    HistoriesCarry(s, t);
    forall j | j in t.plans ensures TaskListOk(t, j) {
      assert TaskListOk(s, j);
      forall r | r in t.taskRows[j] ensures r.task in t.tasks && t.tasks[r.task] == Some(t.plans[j].project) {
        assert HasTask(s, j, r.task);
      }
    }
    OpenShrinks(s, t);
    Assemble(s, t);
  }

  /** A change of projects, tasks or Feature marks only. */
  lemma SurroundingsChange(s: Store, t: Store)
    requires Valid(s) && Shaped(t)
    requires t == s.(projects := t.projects, tasks := t.tasks, merged := t.merged,
                     nextProject := t.nextProject, nextTask := t.nextTask)
    requires forall k :: k in s.projects ==> k in t.projects && t.projects[k] == s.projects[k]
    requires forall x :: x in s.tasks && x !in t.tasks ==> forall id :: !HasTask(s, id, x)
    requires forall x :: x in s.tasks && x in t.tasks ==> t.tasks[x] == s.tasks[x]
    ensures Follows(s, t)
  {
    LinksCarry(s, t);
    SideFollows(s, t);
  }

  lemma RegisterFollows(s: Store, key: string)
    requires Valid(s)
    ensures Follows(s, Register(s, key).store)
  {
    hide HistoryOk, Follows, TaskListOk, EdgesOk, LinksOk, PlanLater;
    SurroundingsChange(s, Register(s, key).store);
  }

  lemma NewTaskFollows(s: Store, project: Option<int>)
    requires Valid(s)
    ensures Follows(s, NewTask(s, project).store)
  {
    SurroundingsChange(s, NewTask(s, project).store);
  }

  lemma DropTaskFollows(s: Store, task: int, state: TaskState)
    requires Valid(s)
    ensures Follows(s, DropTask(s, task, state).store)
  {
    hide HistoryOk, LinksOk, HasTask, EdgesOk;
    SurroundingsChange(s, DropTask(s, task, state).store);
  }

  lemma MarkFeatureFollows(s: Store, id: int, merged: bool)
    requires Valid(s)
    ensures Follows(s, MarkFeature(s, id, merged).store)
  {
    SurroundingsChange(s, MarkFeature(s, id, merged).store);
  }

  lemma IntegrateFollows(s: Store, r: IntegrationRequest)
    requires Valid(s)
    ensures Follows(s, Integrate(s, r).store)
  {
    if Integrate(s, r).store == s {
      LaterReflexive(s);
    } else {
      IntegratedShaped(s, r);
      hide EdgesOk, HistoryOk, TaskListOk, OwnershipOk, LinksOk, Shaped;
      SideFollows(s, Integrate(s, r).store);
    }
  }

  lemma IntegratedShaped(s: Store, r: IntegrationRequest)
    requires Shaped(s) && LinksOk(s)
    ensures Shaped(Integrate(s, r).store) && LinksOk(Integrate(s, r).store)
  {
  }

  lemma SurroundingCallFollows(s: Store, c: Call)
    requires Valid(s) && (c.RegisterProject? || c.CreateTask? || c.DeleteTask? || c.SetFeatureMerged? || c.ReadPlans?)
    ensures Follows(s, Apply(s, c).store)
  {
    match c
    case RegisterProject(key) => RegisterFollows(s, key);
    case CreateTask(project) => NewTaskFollows(s, project);
    case DeleteTask(task, state) => DropTaskFollows(s, task, state);
    case SetFeatureMerged(id, merged) => MarkFeatureFollows(s, id, merged);
    case ReadPlans(ids) => ReconcileSetFollows(s, ids);
  }

  lemma RequestCallFollows(s: Store, c: Call)
    requires Valid(s)
    requires (c.CreatePlan? || c.ReplanPlan? || c.CreateIntegration? || c.AddDependency? || c.RemoveDependency?)
    ensures Follows(s, Apply(s, c).store)
  {
    hide Follows;
    match c
    case CreatePlan(r) => CreateFollows(s, r);
    case ReplanPlan(r) => ReplanFollows(s, r);
    case CreateIntegration(r) => IntegrateFollows(s, r);
    case AddDependency(id, on) => DependFollows(s, id, on);
    case RemoveDependency(id, on) => UndependFollows(s, id, on);
  }

  /** Every call, from any valid tables, keeps the invariant and remembers the past. */
  lemma ApplyFollows(s: Store, c: Call)
    requires Valid(s)
    ensures Follows(s, Apply(s, c).store)
  {
    match c
    case PausePlan(id) => PauseFollows(s, id);
    case ResumePlan(id) => ResumeFollows(s, id);
    case SetPriority(id, priority) => PrioritizeFollows(s, id, priority);
    case SetStatus(id, to) => TransitionFollows(s, id, to);
    case CompleteAfterMerge(id) => CompleteFollows(s, id);
    case AdmitPlan(id) => AdmitFollows(s, id);
    case EvaluateEligibility(id) => EvaluateFollows(s, id);
    case CancelPlan(id) => CancelFollows(s, id);
    case _ =>
      if c.RegisterProject? || c.CreateTask? || c.DeleteTask? || c.SetFeatureMerged? || c.ReadPlans? {
        SurroundingCallFollows(s, c);
      } else {
        RequestCallFollows(s, c);
      }
  }

  lemma EmptyIsValid()
    ensures Valid(EMPTY)
  {
  }
}
