/**
 Exactly which creations, replans, integrations and deletions of tasks are accepted, and what they
 write, said in terms of the request and the tables.
 */
module PlanRequests {
  import opened Basics
  import opened PlanTables
  import opened PlanSpec
  import opened PlanOperations
  import opened PlanEffects

  // What a request may say

  /** Tasks with distinct positive ids. */
  predicate WellNamed(tasks: seq<TaskChoice>) {
    && (forall i :: 0 <= i < |tasks| ==> tasks[i].id > 0)
    && (forall i, j :: 0 <= i < j < |tasks| ==> tasks[i].id != tasks[j].id)
  }

  /** An objective, a criterion and a task at least, and a key that is not too long. */
  ghost predicate SaysEnough(objective: string, criteria: seq<string>, tasks: seq<TaskChoice>, key: string) {
    |objective| >= 8 && (exists c :: c in criteria && c != "") && tasks != [] && WellNamed(tasks) && |key| <= 120
  }

  /** The tasks are of the project. */
  predicate OfProject(s: Store, project: int, tasks: seq<TaskChoice>) {
    forall i :: 0 <= i < |tasks| ==> tasks[i].id in s.tasks && s.tasks[tasks[i].id] == Some(project)
  }

  /** No plan but `except` that is neither completed nor cancelled has one of the tasks. */
  ghost predicate Free(s: Store, tasks: seq<TaskChoice>, except: int) {
    forall i, p :: 0 <= i < |tasks| && p != except ==> !WorkedOn(s, p, tasks[i].id)
  }

  /** The task is one of a plan that is neither completed nor cancelled. */
  ghost predicate WorkedOn(s: Store, p: int, task: int) {
    && p in s.plans && s.plans[p].status != Completed && s.plans[p].status != Cancelled
    && p in s.taskRows && exists row :: row in s.taskRows[p] && row.task == task
  }

  lemma {:induction false} IdsAreNamed(ids: seq<int>)
    ensures TaskIdsError(ids).None? <==> (forall i :: 0 <= i < |ids| ==> ids[i] > 0) && NoDup(ids)
  {
    if ids != [] {
      var init, last := ids[..|ids| - 1], ids[|ids| - 1];
      IdsAreNamed(init);
      assert ids == init + [last];
      hide TaskIdsError;
      LastIdIsNamed(init, last);
    }
  }

  lemma LastIdIsNamed(init: seq<int>, last: int)
    ensures TaskIdsError(init + [last]).None? <==> TaskIdsError(init).None? && last > 0 && last !in init
  {
    assert (init + [last])[..|init|] == init;
  }

  lemma ShapeIff(projectKey: string, objective: string, criteria: seq<string>, tasks: seq<TaskChoice>,
                 dependsOn: seq<int>, key: string)
    ensures ShapeError(projectKey, objective, criteria, Ids(tasks), dependsOn, key).None?
      <==> projectKey != "" && SaysEnough(objective, criteria, tasks, key) && forall d :: d in dependsOn ==> d > 0
  {
    var ids, kept := Ids(tasks), Criteria(criteria);
    IdsAreNamed(ids);
    assert NoDup(ids) <==> forall i, j :: 0 <= i < j < |tasks| ==> tasks[i].id != tasks[j].id;
    assert kept == [] <==> !exists c :: c in criteria && c != "" by {
      if kept != [] {
        assert kept[0] in kept;
      }
      assert forall c :: c in kept <==> c in criteria && c != "";
    }
    hide TaskIdsError, Criteria;
  }

  lemma OfProjectIff(s: Store, project: int, tasks: seq<TaskChoice>)
    ensures TaskProjectError(s.tasks, project, Ids(tasks)).None? <==> OfProject(s, project, tasks)
  {
    TasksInProject(s.tasks, project, Ids(tasks));
    hide TaskProjectError;
    assert forall t :: t in Ids(tasks) <==> exists i :: 0 <= i < |tasks| && tasks[i].id == t;
  }

  lemma TakenIsWorkedOn(s: Store, task: int, except: int)
    ensures Taken(s, task, except) <==> exists p :: p != except && WorkedOn(s, p, task)
  {
    if Taken(s, task, except) {
      var p :| p in s.plans && p != except && !Terminal(s.plans[p].status) && HasTask(s, p, task);
      assert WorkedOn(s, p, task);
    }
    if p :| p != except && WorkedOn(s, p, task) {
      assert HasTask(s, p, task);
    }
  }

  lemma FreeIff(s: Store, tasks: seq<TaskChoice>, except: int)
    ensures AvailabilityError(s, Ids(tasks), except).None? <==> Free(s, tasks, except)
  {
    TasksAvailable(s, Ids(tasks), except);
    hide AvailabilityError, Taken, WorkedOn;
    if Free(s, tasks, except) {
      forall t | t in Ids(tasks) ensures !Taken(s, t, except) {
        TakenIsWorkedOn(s, t, except);
      }
    } else {
      var i, p :| 0 <= i < |tasks| && p != except && WorkedOn(s, p, tasks[i].id);
      TakenIsWorkedOn(s, tasks[i].id, except);
      assert Ids(tasks)[i] in Ids(tasks);
    }
  }

  // Creation

  ghost predicate Creatable(s: Store, r: CreateRequest) {
    && r.projectKey != "" && SaysEnough(r.objective, r.criteria, r.tasks, r.key)
    && r.projectKey in s.projects
    && var project := s.projects[r.projectKey];
       && OfProject(s, project, r.tasks) && Free(s, r.tasks, -1)
       && forall d :: d in r.dependsOn ==> 0 < d < s.nextPlan && d in s.plans && s.plans[d].project == project
  }

  /** The kept criteria are those that say something, the rows the tasks in order, numbered from one. */
  predicate Holds(p: Plan, rows: seq<TaskRow>, objective: string, criteria: seq<string>, tasks: seq<TaskChoice>) {
    && p.objective == objective && (forall c :: c in p.criteria ==> c in criteria && c != "")
    && (forall c :: c in criteria && c != "" ==> c in p.criteria)
    && |rows| == |tasks| && forall i :: 0 <= i < |tasks| ==> rows[i] == TaskRow(tasks[i].id, i + 1, tasks[i].contract)
  }

  /** The tables with the plan that was asked for: queued, at its first revision, with its dependencies, each once. */
  ghost predicate Created(s: Store, t: Store, r: CreateRequest) {
    var id := s.nextPlan;
    && id !in s.plans && id in t.plans && id in t.deps && id in t.taskRows && r.projectKey in s.projects
    && t.plans[id] == Plan(s.projects[r.projectKey], r.objective, t.plans[id].criteria, Queued, r.priority, false, 1)
    && Holds(t.plans[id], t.taskRows[id], r.objective, r.criteria, r.tasks)
    && NoDup(t.deps[id]) && (forall d :: d in t.deps[id] <==> d in r.dependsOn)
    && t.plans == s.plans[id := t.plans[id]] && t.deps == s.deps[id := t.deps[id]]
    && t.taskRows == s.taskRows[id := t.taskRows[id]]
    && t.history == s.history[id := [HistoryRow(None, Queued, Action.Created(r.priority))]]
    && t.nextPlan == s.nextPlan + 1 && t.projects == s.projects && t.tasks == s.tasks
    && t.integrations == s.integrations && t.merged == s.merged
    && t.operations.Keys == s.operations.Keys + KeySet(r.key)
  }

  function KeySet(key: string): set<string> {
    if key == "" then {} else {key}
  }

  /** The checks a creation makes, all together. */
  lemma CreationChecks(s: Store, r: CreateRequest)
    requires Shaped(s) && r.projectKey in s.projects
    ensures var project := s.projects[r.projectKey];
      Creatable(s, r) <==>
        && ShapeError(r.projectKey, r.objective, r.criteria, Ids(r.tasks), r.dependsOn, r.key).None?
        && TaskProjectError(s.tasks, project, Ids(r.tasks)).None?
        && AvailabilityError(s, Ids(r.tasks), -1).None?
        && FreshDependencyError(s, project, Dedup(r.dependsOn)).None?
  {
    var project := s.projects[r.projectKey];
    ShapeIff(r.projectKey, r.objective, r.criteria, r.tasks, r.dependsOn, r.key);
    OfProjectIff(s, project, r.tasks);
    FreeIff(s, r.tasks, -1);
    FreshDependenciesKnown(s, project, Dedup(r.dependsOn));
    assert forall d :: d in s.plans ==> 0 < d < s.nextPlan;
    hide ShapeError, TaskProjectError, AvailabilityError, FreshDependencyError, SaysEnough, OfProject, Free, Shaped;
  }

  lemma NewPlanIsCreated(s: Store, r: CreateRequest, op: Operation)
    requires Shaped(s) && r.projectKey in s.projects
    ensures var p := Plan(s.projects[r.projectKey], r.objective, Criteria(r.criteria), Queued, r.priority, false, 1);
      Created(s, Remember(WithNewPlan(s, p, r.tasks, Dedup(r.dependsOn)), r.key, op), r)
  {
    assert s.nextPlan !in s.plans;
    hide Shaped, Dedup, Criteria;
    CriteriaSaySomething(r.criteria);
  }

  lemma CriteriaSaySomething(raw: seq<string>)
    ensures forall c :: c in Criteria(raw) <==> c in raw && c != ""
  {
  }

  /**
   A creation under a key that is free, or none, is applied if and only if the request says enough, its
   tasks are of the project and in no plan that is still worked on, and its dependencies are plans of
   the project; then the tables have the plan asked for and nothing else has changed.
   */
  lemma CreatedIff(s: Store, r: CreateRequest)
    requires Shaped(s) && (r.key == "" || r.key !in s.operations)
    ensures var step := Apply(s, CreatePlan(r));
      if Creatable(s, r) then step.outcome == Done(s.nextPlan, true) && Created(s, step.store, r)
      else step.outcome.Failed? && step.store == s
  {
    assert Apply(s, CreatePlan(r)) == Create(s, r);
    hide Apply, Created, Creatable;
    if r.projectKey in s.projects {
      CreationChecks(s, r);
      NewPlanIsCreated(s, r, Operation(s.nextPlan, CreatePayloadOf(s.projects[r.projectKey], r)));
    } else {
      UnknownIsNotCreatable(s, r);
    }
    hide Shaped, ShapeError, TaskProjectError, AvailabilityError, FreshDependencyError, WithNewPlan, Remember;
  }

  lemma UnknownIsNotCreatable(s: Store, r: CreateRequest)
    requires r.projectKey !in s.projects
    ensures !Creatable(s, r)
  {
  }

  // Replanning

  ghost predicate Replannable(s: Store, r: ReplanRequest) {
    && SaysEnough(r.objective, r.criteria, r.tasks, r.key)
    && r.plan in s.plans && s.plans[r.plan].status != Completed && s.plans[r.plan].status != Cancelled
    && r.plan !in s.integrations
    && OfProject(s, s.plans[r.plan].project, r.tasks) && Free(s, r.tasks, r.plan)
  }

  /** The plan with the content that was asked for, one revision on, and nothing else. */
  ghost predicate HasReplanned(s: Store, t: Store, r: ReplanRequest) {
    && r.plan in s.plans && OnlyPlan(s, t, r.plan) && t.deps == s.deps
    && var p, q := s.plans[r.plan], t.plans[r.plan];
       && q == p.(objective := r.objective, criteria := q.criteria, revision := p.revision + 1,
                  status := Seen(s, r.plan, p.status))
       && Holds(q, t.taskRows[r.plan], r.objective, r.criteria, r.tasks)
       && t.operations.Keys == s.operations.Keys + KeySet(r.key)
  }

  lemma ReplanChecks(s: Store, r: ReplanRequest)
    requires Shaped(s) && r.plan in s.plans
    ensures Replannable(s, r) <==>
        ShapeError("-", r.objective, r.criteria, Ids(r.tasks), [], r.key).None? && ReplanError(s, r).None?
  {
    ShapeIff("-", r.objective, r.criteria, r.tasks, [], r.key);
    OfProjectIff(s, s.plans[r.plan].project, r.tasks);
    FreeIff(s, r.tasks, r.plan);
    hide ShapeError, TaskProjectError, AvailabilityError, SaysEnough, OfProject, Free, Shaped;
  }

  lemma RetaskedIsWritten(s: Store, r: ReplanRequest, op: Operation)
    requires Keyed(s) && r.plan in s.plans
    ensures var p := s.plans[r.plan]; var q := NewContent(p, r);
      Reconcile(Remember(Retasked(s, r), r.key, op), r.plan)
      == Write(WithRows(s, r, op), r.plan, q, Replanned(p.revision + 1)).store
  {
    hide Reconcile, RowsFor, Criteria;
  }

  function NewContent(p: Plan, r: ReplanRequest): Plan {
    p.(objective := r.objective, criteria := Criteria(r.criteria), revision := p.revision + 1)
  }

  /** The tables with the new task rows, and the request under its key. */
  function WithRows(s: Store, r: ReplanRequest, op: Operation): Store {
    Remember(s.(taskRows := s.taskRows[r.plan := RowsFor(r.tasks)]), r.key, op)
  }

  lemma RowsAreKeyed(s: Store, r: ReplanRequest, op: Operation)
    requires Keyed(s) && r.plan in s.plans
    ensures var rows := WithRows(s, r, op); Keyed(rows) && rows.merged == s.merged && r.plan in rows.plans
  {
  }

  lemma RowsAreWritten(s: Store, rows: Store, id: int, q: Plan, action: Action)
    requires Keyed(rows) && id in rows.plans && rows.merged == s.merged
    ensures var t := Write(rows, id, q, action).store;
      && OnlyPlan(rows, t, id) && t.deps == rows.deps && t.operations == rows.operations
      && t.taskRows == rows.taskRows && id in t.plans && t.plans[id] == q.(status := Seen(s, id, q.status))
  {
    WriteEffect(rows, id, q, action);
    WriteKeepsKeys(rows, id, q, action);
    SeenDependsOnMerges(s, rows, id);
    hide Write, Seen;
    assert id in rows.plans && id in Write(rows, id, q, action).store.plans by {
      IsIn(rows, Write(rows, id, q, action).store, id);
    }
    hide OnlyPlan;
  }

  lemma RetaskedIsReplanned(s: Store, r: ReplanRequest, op: Operation)
    requires Keyed(s) && r.plan in s.plans
    ensures HasReplanned(s, Reconcile(Remember(Retasked(s, r), r.key, op), r.plan), r)
  {
    var p, rows := s.plans[r.plan], WithRows(s, r, op);
    RowsAreKeyed(s, r, op);
    RetaskedIsWritten(s, r, op);
    RowsAreWritten(s, rows, r.plan, NewContent(p, r), Replanned(p.revision + 1));
    hide Criteria, Retasked, Reconcile, Write, Seen, OnlyPlan, HasReplanned, RowsFor, Keyed, WithRows, Remember;
    WrittenIsReplanned(s, Write(rows, r.plan, NewContent(p, r), Replanned(p.revision + 1)).store, r, op);
  }

  lemma WrittenIsReplanned(s: Store, t: Store, r: ReplanRequest, op: Operation)
    requires Keyed(s) && r.plan in s.plans
    requires var rows := WithRows(s, r, op); var p := s.plans[r.plan];
      && OnlyPlan(rows, t, r.plan) && t.deps == rows.deps && t.operations == rows.operations
      && t.taskRows == rows.taskRows
      && t.plans[r.plan] == NewContent(p, r).(status := Seen(s, r.plan, p.status))
    ensures HasReplanned(s, t, r)
  {
    CriteriaSaySomething(r.criteria);
    hide Criteria, Seen, OnlyPlan, Keyed;
    OnlyItsRows(s, WithRows(s, r, op), t, r.plan);
    IsIn(s, t, r.plan);
  }

  lemma OnlyItsRows(s: Store, rows: Store, t: Store, id: int)
    requires Keyed(s) && id in s.plans && OnlyPlan(rows, t, id) && id in rows.taskRows
    requires rows == s.(taskRows := s.taskRows[id := rows.taskRows[id]], operations := rows.operations)
    ensures OnlyPlan(s, t, id)
  {
  }

  lemma IsIn(s: Store, t: Store, id: int)
    requires OnlyPlan(s, t, id) && id in s.plans
    ensures id in t.plans && id in t.taskRows
  {
  }

  lemma WriteKeepsKeys(s: Store, id: int, q: Plan, action: Action)
    requires Keyed(s) && id in s.plans
    ensures var t := Write(s, id, q, action).store; t.operations == s.operations && t.taskRows == s.taskRows
  {
  }

  /**
   A replan under a key that is free, or none, is applied if and only if the request says enough, the
   plan is still worked on and not integrated, and its new tasks are of the project and in no other
   plan that is; then the plan has the content asked for and nothing else has changed.
   */
  lemma ReplannedIff(s: Store, r: ReplanRequest)
    requires Shaped(s) && (r.key == "" || r.key !in s.operations)
    ensures var step := Apply(s, ReplanPlan(r));
      if Replannable(s, r) then step.outcome == Done(r.plan, true) && HasReplanned(s, step.store, r)
      else step.outcome.Failed? && step.store == s
  {
    assert Apply(s, ReplanPlan(r)) == Replan(s, r);
    hide Apply, HasReplanned;
    if r.plan in s.plans {
      ReplanChecks(s, r);
      ShapedIsKeyed(s);
      RetaskedIsReplanned(s, r, Operation(r.plan, ReplanPayloadOf(r)));
      hide Replannable;
    }
    hide Shaped, ShapeError, ReplanError, Retasked, Remember, Reconcile;
  }

  // Integrations and deletions

  lemma IntegratedIff(s: Store, r: IntegrationRequest)
    requires Shaped(s)
    ensures var step := Apply(s, CreateIntegration(r));
      var row := Integration(r.project, r.planRevision, r.branch, r.worktree);
      if r.plan in s.plans && s.plans[r.plan].project == r.project && r.plan !in s.integrations
         && r.branch != "" && r.worktreeInput != ""
      then step.outcome == Done(r.plan, true) && step.store == s.(integrations := s.integrations[r.plan := row])
      else
        && step.store == s
        && if r.plan in s.plans && s.plans[r.plan].project == r.project && r.plan in s.integrations
              && s.integrations[r.plan] == row
           then step.outcome == Done(r.plan, false) else step.outcome.Failed?
  {
    hide Shaped;
  }

  /** A task can be deleted while it is untouched, in no row of any plan, and queued or cancelled. */
  lemma DeletedIff(s: Store, task: int, state: TaskState)
    requires Shaped(s)
    ensures var step := Apply(s, DeleteTask(task, state));
      if task in s.tasks && !state.prepared && !state.executed && state.idle
         && forall p, row :: p in s.taskRows && row in s.taskRows[p] ==> row.task != task
      then step.outcome == Done(task, true) && step.store == s.(tasks := s.tasks - {task})
      else step.outcome.Failed? && step.store == s
  {
    assert Apply(s, DeleteTask(task, state)) == DropTask(s, task, state);
    hide Apply, Shaped;
    if p, row :| p in s.taskRows && row in s.taskRows[p] && row.task == task {
      assert HasTask(s, p, task);
    }
  }
}
