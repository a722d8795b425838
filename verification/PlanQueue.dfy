/**
 The Feature Plan part of the database as an object: tables in fields, one method per operation,
 each proved to do what PlanSpec says and to keep the invariant of PlanInvariants.
 */
module PlanQueue {
  import opened Basics
  import opened DependencyGraph
  import opened PlanTables
  import opened PlanSpec
  import opened PlanInvariants
  import opened PlanOperations
  import opened PlanEligibility
  import opened PlanRuns

  // Validation loops

  lemma {:induction false} TaskIdsErrorPersists(ids: seq<int>, k: nat)
    requires k <= |ids| && TaskIdsError(ids[..k]).Some?
    ensures TaskIdsError(ids) == TaskIdsError(ids[..k])
  {
    if k < |ids| {
      assert ids[..|ids| - 1][..k] == ids[..k];
      TaskIdsErrorPersists(ids[..|ids| - 1], k);
    } else {
      assert ids[..k] == ids;
    }
  }

  lemma {:induction false} TaskProjectErrorPersists(tasks: map<int, Option<int>>, project: int, ids: seq<int>, k: nat)
    requires k <= |ids| && TaskProjectError(tasks, project, ids[..k]).Some?
    ensures TaskProjectError(tasks, project, ids) == TaskProjectError(tasks, project, ids[..k])
  {
    if k < |ids| {
      assert ids[..|ids| - 1][..k] == ids[..k];
      TaskProjectErrorPersists(tasks, project, ids[..|ids| - 1], k);
    } else {
      assert ids[..k] == ids;
    }
  }

  lemma {:induction false} AvailabilityErrorPersists(s: Store, ids: seq<int>, except: int, k: nat)
    requires k <= |ids| && AvailabilityError(s, ids[..k], except).Some?
    ensures AvailabilityError(s, ids, except) == AvailabilityError(s, ids[..k], except)
  {
    if k < |ids| {
      assert ids[..|ids| - 1][..k] == ids[..k];
      AvailabilityErrorPersists(s, ids[..|ids| - 1], except, k);
    } else {
      assert ids[..k] == ids;
    }
  }

  lemma {:induction false} FreshDependencyErrorPersists(s: Store, project: int, ds: seq<int>, k: nat)
    requires k <= |ds| && FreshDependencyError(s, project, ds[..k]).Some?
    ensures FreshDependencyError(s, project, ds) == FreshDependencyError(s, project, ds[..k])
  {
    if k < |ds| {
      assert ds[..|ds| - 1][..k] == ds[..k];
      FreshDependencyErrorPersists(s, project, ds[..|ds| - 1], k);
    } else {
      assert ds[..k] == ds;
    }
  }

  /** uniqueTaskIds: positive and without repetition. */
  method UniqueTaskIds(ids: seq<int>) returns (error: Option<Error>)
    ensures error == TaskIdsError(ids)
  {
    var seen: set<int> := {};
    for i := 0 to |ids|
      invariant TaskIdsError(ids[..i]).None?
      invariant seen == set x | x in ids[..i]
    {
      PrefixStep(ids, i);
      if ids[i] <= 0 {
        TaskIdsErrorPersists(ids, i + 1);
        return Some(BadTaskId);
      }
      if ids[i] in seen {
        TaskIdsErrorPersists(ids, i + 1);
        return Some(DuplicateTask(ids[i]));
      }
      seen := seen + {ids[i]};
    }
    assert ids[..|ids|] == ids;
    return None;
  }

  /** uniquePlanIds: positive; repetitions are dropped silently. */
  method UniquePlanIds(ids: seq<int>) returns (bad: bool, unique: seq<int>)
    ensures bad <==> exists d :: d in ids && d <= 0
    ensures !bad ==> unique == Dedup(ids)
  {
    unique := [];
    for i := 0 to |ids|
      invariant forall d :: d in ids[..i] ==> d > 0
      invariant unique == Dedup(ids[..i])
    {
      PrefixStep(ids, i);
      if ids[i] <= 0 {
        assert ids[i] in ids;
        return true, [];
      }
      if ids[i] !in unique {
        unique := unique + [ids[i]];
      }
    }
    assert ids[..|ids|] == ids;
    return false, unique;
  }

  method NormalizeInput(projectKey: string, objective: string, criteria: seq<string>, ids: seq<int>,
                        dependsOn: seq<int>, key: string)
    returns (error: Option<Error>, kept: seq<string>, unique: seq<int>)
    ensures error == ShapeError(projectKey, objective, criteria, ids, dependsOn, key)
    ensures error.None? ==> kept == Criteria(criteria) && unique == Dedup(dependsOn)
  {
    kept, unique := Criteria(criteria), [];
    if projectKey == "" { return Some(ProjectRequired), kept, unique; }
    error := UniqueTaskIds(ids);
    if error.Some? { return; }
    var bad;
    bad, unique := UniquePlanIds(dependsOn);
    if bad { return Some(BadDependencyId), kept, unique; }
    if |objective| < 8 { return Some(ObjectiveTooShort), kept, unique; }
    if kept == [] { return Some(NoCriteria), kept, unique; }
    if ids == [] { return Some(NoTasks), kept, unique; }
    if |key| > 120 { return Some(KeyTooLong), kept, unique; }
    return None, kept, unique;
  }

  method ValidateTasks(tasks: map<int, Option<int>>, project: int, ids: seq<int>) returns (error: Option<Error>)
    ensures error == TaskProjectError(tasks, project, ids)
  {
    for i := 0 to |ids|
      invariant TaskProjectError(tasks, project, ids[..i]).None?
    {
      PrefixStep(ids, i);
      if ids[i] !in tasks {
        TaskProjectErrorPersists(tasks, project, ids, i + 1);
        return Some(UnknownTask(ids[i]));
      }
      if tasks[ids[i]] != Some(project) {
        TaskProjectErrorPersists(tasks, project, ids, i + 1);
        return Some(TaskOutsideProject(ids[i]));
      }
    }
    assert ids[..|ids|] == ids;
    return None;
  }

  class PlanDatabase {
    var projects: map<string, int>
    var tasks: map<int, Option<int>>
    var plans: map<int, Plan>
    var deps: Graph
    var taskRows: map<int, seq<TaskRow>>
    var history: map<int, seq<HistoryRow>>
    var operations: map<string, Operation>
    var integrations: map<int, Integration>
    var merged: set<int>
    var nextProject: int
    var nextTask: int
    var nextPlan: int

    function Snapshot(): Store
      reads this
    {
      Store(projects, tasks, plans, deps, taskRows, history, operations, integrations, merged,
            nextProject, nextTask, nextPlan)
    }

    ghost predicate Sound()
      reads this
    {
      Valid(Snapshot())
    }

    constructor ()
      ensures Snapshot() == EMPTY && Sound()
    {
      projects, tasks, plans, deps, taskRows, history := map[], map[], map[], map[], map[], map[];
      operations, integrations, merged, nextProject, nextTask, nextPlan := map[], map[], {}, 1, 1, 1;
    }

    // Rows

    /** UPDATE of a plan row and INSERT of its audit row, in one transaction. */
    method WriteRow(id: int, plan: Plan, action: Action)
      requires id in plans && id in history
      modifies this`plans, this`history
      ensures Snapshot() == Log(old(Snapshot()), id, plan, action)
    {
      history := history[id := history[id] + [HistoryRow(Some(plans[id].status), plan.status, action)]];
      plans := plans[id := plan];
    }

    /** reconcileFeaturePlanStatus */
    method ReconcilePlan(id: int)
      requires Aligned(Snapshot()) && id in plans
      modifies this`plans, this`history
      ensures Snapshot() == Reconcile(old(Snapshot()), id)
    {
      var plan := plans[id];
      if plan.status == Completed || plan.status == Cancelled {
        return;
      }
      if id in merged {
        WriteRow(id, plan.(status := Completed), ReconciledAfterFeatureMerge);
      }
    }

    /** A plan row write with its audit row, and the reconciling read of the answer after it. */
    method WritePlan(id: int, plan: Plan, action: Action)
      requires Aligned(Snapshot()) && id in plans
      modifies this`plans, this`history
      ensures Snapshot() == Write(old(Snapshot()), id, plan, action).store
    {
      WriteRow(id, plan, action);
      ReconcilePlan(id);
    }

    /** getFeaturePlanDetails: the reconciled plan and its tasks, as requested last. */
    method GetDetails(id: int) returns (plan: Plan, rows: seq<TaskRow>)
      requires Sound() && id in plans
      modifies this`plans, this`history
      ensures Snapshot() == Reconcile(old(Snapshot()), id) && Sound()
      ensures plan == Reconcile(old(Snapshot()), id).plans[id]
      ensures rows == old(taskRows)[id]
    {
      ReconcileFollows(Snapshot(), id);
      ReconcilePlan(id);
      plan := plans[id];
      rows := ListTasks(taskRows[id]);
      assert TaskListOk(Snapshot(), id);
      NumberedIsListed(taskRows[id]);
    }

    // Operations on one plan

    method PauseFeaturePlan(id: int) returns (outcome: Outcome)
      requires Sound()
      modifies this`plans, this`history
      ensures Step(Snapshot(), outcome) == Pause(old(Snapshot()), id) && Sound()
    {
      PauseFollows(Snapshot(), id);
      if id !in plans { return Failed(UnknownPlan(id)); }
      var plan := plans[id];
      if plan.paused {
        ReconcilePlan(id);
        return Done(id, false);
      }
      if plan.status == Completed || plan.status == Cancelled { return Failed(PlanTerminal(plan.status)); }
      WritePlan(id, plan.(paused := true), Paused);
      return Done(id, true);
    }

    method ResumeFeaturePlan(id: int) returns (outcome: Outcome)
      requires Sound()
      modifies this`plans, this`history
      ensures Step(Snapshot(), outcome) == Resume(old(Snapshot()), id) && Sound()
    {
      ResumeFollows(Snapshot(), id);
      if id !in plans { return Failed(UnknownPlan(id)); }
      var plan := plans[id];
      if !plan.paused {
        ReconcilePlan(id);
        return Done(id, false);
      }
      WritePlan(id, plan.(paused := false), Resumed);
      return Done(id, true);
    }

    method UpdateFeaturePlanPriority(id: int, priority: int) returns (outcome: Outcome)
      requires Sound()
      modifies this`plans, this`history
      ensures Step(Snapshot(), outcome) == Prioritize(old(Snapshot()), id, priority) && Sound()
    {
      PrioritizeFollows(Snapshot(), id, priority);
      if id !in plans { return Failed(UnknownPlan(id)); }
      var plan := plans[id];
      if plan.priority == priority {
        ReconcilePlan(id);
        return Done(id, false);
      }
      WritePlan(id, plan.(priority := priority), PrioritySet(plan.priority, priority));
      return Done(id, true);
    }

    method UpdateFeaturePlanQueueStatus(id: int, to: Status) returns (outcome: Outcome)
      requires Sound()
      modifies this`plans, this`history
      ensures Step(Snapshot(), outcome) == Transition(old(Snapshot()), id, to) && Sound()
      ensures outcome.Done? <==> id in old(plans) && (old(plans)[id].status == to || MayMove(old(plans)[id].status, to))
    {
      TransitionFollows(Snapshot(), id, to);
      if id in plans {
        AllowedIsMayMove(plans[id].status, to);
      }
      hide MayMove, AllowedTransition;
      if id !in plans { return Failed(UnknownPlan(id)); }
      var plan := plans[id];
      if plan.status == to {
        ReconcilePlan(id);
        return Done(id, false);
      }
      if !AllowedTransition(plan.status, to) { return Failed(InvalidTransition(plan.status, to)); }
      WritePlan(id, plan.(status := to), StatusChanged);
      return Done(id, true);
    }

    method CompleteFeaturePlanAfterMerge(id: int) returns (outcome: Outcome)
      requires Sound()
      modifies this`plans, this`history
      ensures Step(Snapshot(), outcome) == Complete(old(Snapshot()), id) && Sound()
    {
      CompleteFollows(Snapshot(), id);
      if id !in plans { return Failed(UnknownPlan(id)); }
      var plan := plans[id];
      if plan.status == Completed {
        ReconcilePlan(id);
        return Done(id, false);
      }
      if plan.status == Cancelled { return Failed(PlanTerminal(Cancelled)); }
      WritePlan(id, plan.(status := Completed), ReconciledAfterFeatureMerge);
      return Done(id, true);
    }

    method CancelFeaturePlan(id: int) returns (outcome: Outcome)
      requires Sound()
      modifies this`plans, this`history
      ensures Step(Snapshot(), outcome) == Cancel(old(Snapshot()), id) && Sound()
    {
      CancelFollows(Snapshot(), id);
      if id !in plans { return Failed(UnknownPlan(id)); }
      var plan := plans[id];
      if plan.status == Cancelled {
        ReconcilePlan(id);
        return Done(id, false);
      }
      if plan.status == Completed { return Failed(PlanTerminal(Completed)); }
      if id in integrations { return Failed(IntegrationStarted); }
      WritePlan(id, plan.(status := Cancelled), CancelRequested);
      return Done(id, true);
    }

    // Dependencies

    /** The dependency rows of a plan and its audit row, in one transaction, and the reconciling read after it. */
    method WriteDependencies(id: int, ds: seq<int>, action: Action)
      requires Aligned(Snapshot()) && id in plans
      modifies this`plans, this`history, this`deps
      ensures Snapshot() == Reconcile(Relinked(old(Snapshot()), id, ds, action), id)
    {
      deps := deps[id := ds];
      WriteRow(id, plans[id], action);
      ReconcilePlan(id);
    }

    method AddFeaturePlanDependency(id: int, on: int) returns (outcome: Outcome)
      requires Sound()
      modifies this`plans, this`history, this`deps
      ensures Step(Snapshot(), outcome) == Depend(old(Snapshot()), id, on) && Sound()
    {
      DependFollows(Snapshot(), id, on);
      if id == on { return Failed(SelfDependency); }
      if id !in plans { return Failed(UnknownPlan(id)); }
      if on !in plans { return Failed(UnknownPlan(on)); }
      if plans[id].project != plans[on].project { return Failed(CrossProjectDependency(on)); }
      var cyclic := CheckDependencyCycle(deps, id, on);
      if cyclic { return Failed(DependencyCycle); }
      if on in deps[id] { return Failed(DependencyExists); }
      WriteDependencies(id, deps[id] + [on], DependencyAdded(on));
      return Done(id, true);
    }

    method RemoveFeaturePlanDependency(id: int, on: int) returns (outcome: Outcome)
      requires Sound()
      modifies this`plans, this`history, this`deps
      ensures Step(Snapshot(), outcome) == Undepend(old(Snapshot()), id, on) && Sound()
    {
      UndependFollows(Snapshot(), id, on);
      if id !in plans { return Failed(UnknownPlan(id)); }
      WriteDependencies(id, Keep(deps[id], d => d != on), DependencyRemoved(on));
      return Done(id, true);
    }

    // Eligibility and admission

    /** The ids of the other plans that occupy the project of `id`, lowest first. */
    method SelectOccupied(id: int) returns (rows: seq<int>)
      requires id in plans && forall j :: j in plans ==> 0 < j < nextPlan
      ensures AllOccupied(Snapshot(), id, rows) && Increasing(rows)
    {
      rows := [];
      var j := 1;
      while j < nextPlan
        invariant 1 <= j && forall k :: k in plans ==> 0 < k < nextPlan
        invariant forall k :: k in rows <==> k < j && OccupiedOther(Snapshot(), id, k)
        invariant Increasing(rows)
      {
        assert forall a :: 0 <= a < |rows| ==> rows[a] in rows;
        if j in plans && j != id && plans[j].project == plans[id].project && Occupied(plans[j].status) {
          AppendKeepsOrder(rows, j);
          rows := rows + [j];
        }
        j := j + 1;
      }
    }

    /**
     evaluateFeaturePlanEligibility: reconciles only the rows it meets, in the order it meets them,
     and stops at the first answer; the answer is the one that reconciling everything first would give.
     */
    method EvaluateFeaturePlanEligibility(id: int) returns (outcome: Outcome)
      requires Sound()
      modifies this`plans, this`history
      ensures Step(Snapshot(), outcome) == Evaluate(old(Snapshot()), id) && Sound()
    {
      EvaluateFollows(Snapshot(), id);
      if id !in plans { return Failed(UnknownPlan(id)); }
      DepsAreRows(Snapshot(), id);
      var verdict := ReachVerdict(id);
      return Judged(verdict);
    }

    method ReachVerdict(id: int) returns (verdict: Verdict)
      requires Shaped(Snapshot()) && id in plans && DepsIn(Snapshot(), deps[id])
      modifies this`plans, this`history
      ensures Step(Snapshot(), Judged(verdict)) == Evaluate(old(Snapshot()), id)
    {
      hide ReconcileSet;
      ghost var s := Snapshot();
      ReconcileNone(s);
      var plan := ReconcileNext(s, {}, id);
      assert {} + {id} == {id};
      if plan.status != Queued {
        EarlyVerdict(s, id);
        return WrongStatus(plan.status);
      }
      if plan.paused {
        EarlyVerdict(s, id);
        return IsPaused;
      }
      var blocked := ReconcileDependencies(s, id);
      if blocked != [] {
        WaitingVerdict(s, id);
        return WaitingOn(blocked);
      }
      var busy := ReconcileOccupied(s, id);
      LateVerdict(s, id);
      match busy {
        case None => return Eligible;
        case Some(j) => return ProjectBusy(j, plans[j].status);
      }
    }

    /** One more reconciliation after those of `ids`, and the row as read afterwards. */
    method ReconcileNext(ghost s: Store, ghost ids: set<int>, id: int) returns (plan: Plan)
      requires Aligned(s) && Snapshot() == ReconcileSet(s, ids) && id in plans
      modifies this`plans, this`history
      ensures Snapshot() == ReconcileSet(s, ids + {id})
      ensures plan == ReconcileSet(s, ids + {id}).plans[id]
    {
      ReconcileOne(Snapshot(), id);
      ReconcileTwice(s, ids, {id});
      ReconcilePlan(id);
      plan := plans[id];
    }

    /** The next row of a loop that reconciles `first` and then the plans of `rows` one by one. */
    method ReconcileRow(ghost s: Store, ghost first: set<int>, rows: seq<int>, i: nat) returns (plan: Plan)
      requires Aligned(s) && i < |rows| && Snapshot() == ReconciledRows(s, first, rows, i) && rows[i] in plans
      modifies this`plans, this`history
      ensures Snapshot() == ReconciledRows(s, first, rows, i + 1)
      ensures plan == ReconciledRows(s, first, rows, i + 1).plans[rows[i]]
    {
      OneMoreRow(s, first, rows, i);
      plan := ReconcileNext(s, first + Elements(rows[..i]), rows[i]);
    }

    /** The loop over the dependency rows: reconcile each and collect those that are not completed. */
    method ReconcileDependencies(ghost s: Store, id: int) returns (blocked: seq<(int, Status)>)
      requires Aligned(s) && id in s.plans && id in s.deps && Snapshot() == ReconcileSet(s, {id})
      requires DepsIn(s, s.deps[id])
      modifies this`plans, this`history
      ensures Snapshot() == ReconcileSet(s, {id} + DepSet(s, id))
      ensures blocked == Unfinished(ReconcileAll(s), s.deps[id])
    {
      blocked := [];
      var rows := deps[id];
      var i := 0;
      hide ReconcileSet, ReconciledRows, Elements, Unfinished, UnfinishedUpTo, MergeableUpTo;
      NoRowsYet(s, {id}, rows);
      while i < |rows|
        invariant 0 <= i <= |rows| && rows == s.deps[id]
        invariant Snapshot() == ReconciledRows(s, {id}, rows, i)
        invariant blocked == UnfinishedUpTo(s, rows, i)
      {
        RowIsDependency(s, {id}, rows, i);
        var dep := ReconcileRow(s, {id}, rows, i);
        if dep.status != Completed {
          blocked := blocked + [(rows[i], dep.status)];
        }
        i := i + 1;
      }
      AllRows(s, id);
    }

    /** The loop over the occupied rows: reconcile each until one stays occupied. */
    method ReconcileUntilOccupied(ghost t: Store, rows: seq<int>) returns (i: nat)
      requires Aligned(t) && Snapshot() == t && RowsOccupied(t, rows)
      modifies this`plans, this`history
      ensures i <= |rows| && MergeableUpTo(t, rows, i) && (i < |rows| ==> !Mergeable(t, rows[i]))
      ensures Snapshot() == ReconciledRows(t, {}, rows, if i < |rows| then i + 1 else i)
    {
      hide ReconcileSet, ReconciledRows, Mergeable, MergeableUpTo, RowsOccupied, UnfinishedUpTo;
      NoRowsYet(t, {}, rows);
      ReconcileNone(t);
      i := 0;
      while i < |rows|
        invariant i <= |rows| && Snapshot() == ReconciledRows(t, {}, rows, i) && MergeableUpTo(t, rows, i)
      {
        RowIsActive(t, rows, i);
        var active := ReconcileRow(t, {}, rows, i);
        if active.status != Completed && active.status != Cancelled {
          return;
        }
        i := i + 1;
      }
    }

    method ReconcileOccupied(ghost s: Store, id: int) returns (busy: Option<int>)
      requires Aligned(s) && id in s.plans && id in s.deps && Snapshot() == ReconcileSet(s, {id} + DepSet(s, id))
      requires forall j :: j in s.plans ==> 0 < j < s.nextPlan
      modifies this`plans, this`history
      ensures var near := {id} + DepSet(s, id);
        Snapshot() == ReconcileSet(s, near + ActivePrefix(ReconcileSet(s, near), id))
      ensures busy == FirstOccupied(ReconcileAll(s), id, 1)
      ensures busy.Some? ==> busy.value in plans && busy.value in s.plans
      ensures busy.Some? ==> plans[busy.value] == ReconcileAll(s).plans[busy.value]
    {
      ghost var t, near := Snapshot(), {id} + DepSet(s, id);
      var rows := SelectOccupied(id);
      RowsAreOccupied(t, id, rows);
      var i := ReconcileUntilOccupied(t, rows);
      StoppedAt(s, t, near, id, rows, i);
      busy := if i < |rows| then Some(rows[i]) else None;
    }

    method AdmitFeaturePlan(id: int) returns (outcome: Outcome)
      requires Sound()
      modifies this`plans, this`history
      ensures Step(Snapshot(), outcome) == Admit(old(Snapshot()), id) && Sound()
    {
      AdmitFollows(Snapshot(), id);
      if id !in plans { return Failed(UnknownPlan(id)); }
      if Occupied(plans[id].status) || plans[id].status == Completed {
        ReconcilePlan(id);
        return Done(id, false);
      }
      outcome := EvaluateFeaturePlanEligibility(id);
      if !outcome.verdict.Eligible? { return Failed(NotEligible(outcome.verdict)); }
      outcome := UpdateFeaturePlanQueueStatus(id, Admitted);
    }

    // Creation, replanning, integration

    /** validateFeaturePlanTaskAvailability */
    method CheckAvailability(ids: seq<int>, except: int) returns (error: Option<Error>)
      requires taskRows.Keys == plans.Keys
      ensures error == AvailabilityError(Snapshot(), ids, except)
    {
      for i := 0 to |ids|
        invariant AvailabilityError(Snapshot(), ids[..i], except).None?
      {
        PrefixStep(ids, i);
        var task := ids[i];
        if exists p :: p in plans && p != except && !Terminal(plans[p].status)
             && exists r :: r in taskRows[p] && r.task == task {
          assert Taken(Snapshot(), task, except);
          AvailabilityErrorPersists(Snapshot(), ids, except, i + 1);
          return Some(TaskTaken(task));
        }
        assert !Taken(Snapshot(), task, except);
      }
      assert ids[..|ids|] == ids;
      return None;
    }

    /** insertFeaturePlanTasks, after the old rows of the plan were deleted. */
    method InsertTasks(id: int, choices: seq<TaskChoice>)
      modifies this`taskRows
      ensures taskRows == old(taskRows)[id := RowsFor(choices)]
    {
      var rows: seq<TaskRow> := [];
      for i := 0 to |choices|
        invariant rows == RowsFor(choices[..i])
      {
        rows := rows + [TaskRow(choices[i].id, i + 1, choices[i].contract)];
      }
      assert choices[..|choices|] == choices;
      taskRows := taskRows[id := rows];
    }

    /** The dependency rows of a plan under creation, up to the first that is refused. */
    method InsertDependencies(ghost s: Store, id: int, plan: Plan, ds: seq<int>) returns (error: Option<Error>)
      requires Shaped(s) && id == s.nextPlan && deps == s.deps && plans == s.plans[id := plan]
      modifies this`deps
      ensures error == FreshDependencyError(s, plan.project, ds)
      ensures error.None? ==> deps == s.deps[id := ds]
    {
      deps := deps[id := []];
      assert ds[..0] == [];
      for i := 0 to |ds|
        invariant FreshDependencyError(s, plan.project, ds[..i]).None?
        invariant deps == s.deps[id := ds[..i]]
      {
        PrefixStep(ds, i);
        var d := ds[i];
        if d == id || d !in plans || plans[d].project != plan.project {
          FreshDependencyErrorPersists(s, plan.project, ds, i + 1);
          error := Some(if d !in plans then UnknownPlan(d) else CrossProjectDependency(d));
          return if d == id then Some(SelfDependency) else error;
        }
        FreshEdges(s, deps, plan.project, ds[..i]);
        FreshPlanHasNoCycle(deps, id, d);
        var cyclic := CheckDependencyCycle(deps, id, d);
        assert !cyclic;
        deps := deps[id := deps[id] + [d]];
      }
      assert ds[..|ds|] == ds;
      return None;
    }

    /** The plan row, its task rows and its dependency rows, or none of them. */
    method InsertPlanRows(plan: Plan, choices: seq<TaskChoice>, ds: seq<int>) returns (error: Option<Error>)
      requires Shaped(Snapshot())
      modifies this`plans, this`nextPlan, this`taskRows, this`deps
      ensures error == FreshDependencyError(old(Snapshot()), plan.project, ds)
      ensures error.Some? ==>
          plans == old(plans) && nextPlan == old(nextPlan) && taskRows == old(taskRows) && deps == old(deps)
      ensures error.None? ==> plans == old(plans)[old(nextPlan) := plan] && nextPlan == old(nextPlan) + 1
      ensures error.None? ==>
          taskRows == old(taskRows)[old(nextPlan) := RowsFor(choices)] && deps == old(deps)[old(nextPlan) := ds]
    {
      var id := nextPlan;
      var savedPlans, savedRows, savedDeps := plans, taskRows, deps;
      ghost var s := Snapshot();
      plans, nextPlan := plans[id := plan], id + 1;
      InsertTasks(id, choices);
      error := InsertDependencies(s, id, plan, ds);
      if error.Some? {
        plans, nextPlan, taskRows, deps := savedPlans, id, savedRows, savedDeps;
      }
    }

    /** The creating transaction: all rows of the new plan and its operation row, or none of them. */
    method InsertPlan(plan: Plan, choices: seq<TaskChoice>, ds: seq<int>, key: string, payload: Payload)
      returns (error: Option<Error>)
      requires Shaped(Snapshot())
      modifies this`plans, this`nextPlan, this`taskRows, this`deps, this`history, this`operations
      ensures error == FreshDependencyError(old(Snapshot()), plan.project, ds)
      ensures error.Some? ==> Snapshot() == old(Snapshot())
      ensures error.None? ==>
        Snapshot() == Remember(WithNewPlan(old(Snapshot()), plan, choices, ds), key, Operation(old(nextPlan), payload))
    {
      var id := nextPlan;
      error := InsertPlanRows(plan, choices, ds);
      if error.None? {
        history := history[id := [HistoryRow(None, Queued, Created(plan.priority))]];
        if key != "" {
          operations := operations[key := Operation(id, payload)];
        }
      }
    }

    /** A request under a key that is in use: the recorded plan is read, or the request refused. */
    method ReuseOperation(key: string, payload: Payload) returns (outcome: Option<Outcome>)
      requires Shaped(Snapshot())
      modifies this`plans, this`history
      ensures outcome.Some? <==> key != "" && key in operations
      ensures outcome.None? ==> Snapshot() == old(Snapshot())
      ensures outcome.Some? ==> Step(Snapshot(), outcome.value) == Reuse(old(Snapshot()), key, payload)
    {
      if key == "" || key !in operations { return None; }
      if operations[key].payload != payload { return Some(Failed(KeyReused)); }
      var plan := operations[key].plan;
      ReconcilePlan(plan);
      return Some(Done(plan, false));
    }

    method CreateFeaturePlan(r: CreateRequest) returns (outcome: Outcome)
      requires Sound()
      modifies this`plans, this`nextPlan, this`taskRows, this`deps, this`history, this`operations
      ensures Step(Snapshot(), outcome) == Create(old(Snapshot()), r) && Sound()
    {
      CreateFollows(Snapshot(), r);
      outcome := TryCreate(r);
    }

    method TryCreate(r: CreateRequest) returns (outcome: Outcome)
      requires Shaped(Snapshot())
      modifies this`plans, this`nextPlan, this`taskRows, this`deps, this`history, this`operations
      ensures Step(Snapshot(), outcome) == Create(old(Snapshot()), r)
    {
      var error, kept, unique :=
        NormalizeInput(r.projectKey, r.objective, r.criteria, Ids(r.tasks), r.dependsOn, r.key);
      if error.Some? { return Failed(error.value); }
      if r.projectKey !in projects { return Failed(UnknownProject); }
      var project := projects[r.projectKey];
      error := ValidateTasks(tasks, project, Ids(r.tasks));
      if error.Some? { return Failed(error.value); }
      var payload := CreatePayload(project, r.objective, kept, r.tasks, r.priority, unique);
      var reused := ReuseOperation(r.key, payload);
      if reused.Some? { return reused.value; }
      error := CheckAvailability(Ids(r.tasks), -1);
      if error.Some? { return Failed(error.value); }
      var id := nextPlan;
      var plan := Plan(project, r.objective, kept, Queued, r.priority, false, 1);
      error := InsertPlan(plan, r.tasks, unique, r.key, payload);
      if error.Some? { return Failed(error.value); }
      return Done(id, true);
    }

    /** Whether a plan may be replanned, once its request is known to be well formed and new. */
    method CheckReplan(r: ReplanRequest) returns (error: Option<Error>)
      requires Shaped(Snapshot()) && r.plan in plans
      ensures error == ReplanError(Snapshot(), r)
    {
      var plan := plans[r.plan];
      if Terminal(plan.status) { return Some(PlanTerminal(plan.status)); }
      if r.plan in integrations { return Some(IntegrationStarted); }
      error := ValidateTasks(tasks, plan.project, Ids(r.tasks));
      if error.None? {
        error := CheckAvailability(Ids(r.tasks), r.plan);
      }
    }

    method ReplanFeaturePlan(r: ReplanRequest) returns (outcome: Outcome)
      requires Sound()
      modifies this`plans, this`history, this`taskRows, this`operations
      ensures Step(Snapshot(), outcome) == Replan(old(Snapshot()), r) && Sound()
    {
      ReplanFollows(Snapshot(), r);
      outcome := TryReplan(r);
    }

    method TryReplan(r: ReplanRequest) returns (outcome: Outcome)
      requires Shaped(Snapshot())
      modifies this`plans, this`history, this`taskRows, this`operations
      ensures Step(Snapshot(), outcome) == Replan(old(Snapshot()), r)
    {
      if r.plan !in plans { return Failed(UnknownPlan(r.plan)); }
      var error, kept, _ := NormalizeInput("-", r.objective, r.criteria, Ids(r.tasks), [], r.key);
      if error.Some? { return Failed(error.value); }
      var payload := ReplanPayload(r.plan, r.objective, kept, r.tasks);
      var reused := ReuseOperation(r.key, payload);
      if reused.Some? { return reused.value; }
      error := CheckReplan(r);
      if error.Some? { return Failed(error.value); }
      WriteReplan(r, kept, payload);
      return Done(r.plan, true);
    }

    /** The replanning transaction and the reconciling read after it. */
    method WriteReplan(r: ReplanRequest, kept: seq<string>, payload: Payload)
      requires Aligned(Snapshot()) && r.plan in plans && kept == Criteria(r.criteria)
      modifies this`plans, this`history, this`taskRows, this`operations
      ensures Snapshot()
        == Reconcile(Remember(Retasked(old(Snapshot()), r), r.key, Operation(r.plan, payload)), r.plan)
    {
      var plan := plans[r.plan];
      InsertTasks(r.plan, r.tasks);
      WriteRow(r.plan, plan.(objective := r.objective, criteria := kept, revision := plan.revision + 1),
               Replanned(plan.revision + 1));
      if r.key != "" {
        operations := operations[r.key := Operation(r.plan, payload)];
      }
      ReconcilePlan(r.plan);
    }

    method CreateFeaturePlanIntegration(r: IntegrationRequest) returns (outcome: Outcome)
      requires Sound()
      modifies this`integrations
      ensures Step(Snapshot(), outcome) == Integrate(old(Snapshot()), r) && Sound()
    {
      hide Valid, PlanLater;
      IntegrateFollows(Snapshot(), r);
      if r.plan !in plans { return Failed(UnknownPlan(r.plan)); }
      if plans[r.plan].project != r.project { return Failed(ProjectMismatch); }
      if r.plan in integrations {
        var row := integrations[r.plan];
        if row.project != r.project || row.planRevision != r.planRevision || row.branch != r.branch
           || row.worktree != r.worktree {
          return Failed(IntegrationDiffers);
        }
        return Done(r.plan, false);
      }
      if r.branch == "" || r.worktreeInput == "" { return Failed(IntegrationIncomplete); }
      integrations := integrations[r.plan := Integration(r.project, r.planRevision, r.branch, r.worktree)];
      return Done(r.plan, true);
    }

    /** deleteTask: among others, a task named by any plan row stays. */
    method RemoveTask(task: int, state: TaskState) returns (outcome: Outcome)
      requires Sound()
      modifies this`tasks
      ensures Step(Snapshot(), outcome) == DropTask(old(Snapshot()), task, state) && Sound()
    {
      hide Valid;
      DropTaskFollows(Snapshot(), task, state);
      if task !in tasks { return Failed(UnknownTask(task)); }
      if state.prepared { return Failed(TaskPrepared(task)); }
      if state.executed { return Failed(TaskExecuted(task)); }
      if exists p :: p in taskRows && exists r :: r in taskRows[p] && r.task == task {
        ghost var p :| p in taskRows && exists r :: r in taskRows[p] && r.task == task;
        assert HasTask(Snapshot(), p, task);
        return Failed(TaskLinked(task));
      }
      assert forall p :: !HasTask(Snapshot(), p, task);
      if !state.idle { return Failed(TaskBusy(task)); }
      tasks := map t | t in tasks && t != task :: tasks[t];
      return Done(task, true);
    }
  }

  lemma FreshEdges(s: Store, g: Graph, project: int, ds: seq<int>)
    requires Shaped(s) && FreshDependencyError(s, project, ds).None? && g == s.deps[s.nextPlan := ds]
    ensures forall a, b :: Edge(g, a, b) ==> b != s.nextPlan
  {
    FreshDependenciesKnown(s, project, ds);
    forall a, b | Edge(g, a, b) ensures b != s.nextPlan {
      assert a != s.nextPlan ==> Edge(s.deps, a, b);
    }
  }

  // Facts about the evaluation loops

  ghost predicate DepsIn(s: Store, ds: seq<int>) {
    forall d :: d in ds ==> d in s.plans
  }

  lemma DepsAreRows(s: Store, id: int)
    requires Shaped(s) && id in s.plans
    ensures DepsIn(s, s.deps[id])
  {
    forall d | d in s.deps[id] ensures d in s.plans {
      assert Edge(s.deps, id, d);
    }
  }

  /** A reconciled row reads as it would had everything been reconciled. */
  lemma ReconciledLikeAll(s: Store, ids: set<int>, x: int)
    requires Aligned(s) && x in ids && x in s.plans
    ensures ReconcileSet(s, ids).plans[x] == ReconcileAll(s).plans[x]
  {
  }

  // Rows reconciled one by one

  ghost function ReconciledRows(s: Store, first: set<int>, rows: seq<int>, n: nat): Store
    requires Aligned(s) && n <= |rows|
  {
    ReconcileSet(s, first + Elements(rows[..n]))
  }

  lemma NoRowsYet(s: Store, first: set<int>, rows: seq<int>)
    requires Aligned(s)
    ensures ReconciledRows(s, first, rows, 0) == ReconcileSet(s, first)
    ensures UnfinishedUpTo(s, rows, 0) == [] && MergeableUpTo(s, rows, 0)
  {
    assert first + Elements(rows[..0]) == first;
  }

  lemma OneMoreRow(s: Store, first: set<int>, rows: seq<int>, i: nat)
    requires Aligned(s) && i < |rows|
    ensures ReconciledRows(s, first, rows, i) == ReconcileSet(s, first + Elements(rows[..i]))
    ensures ReconciledRows(s, first, rows, i + 1) == ReconcileSet(s, first + Elements(rows[..i]) + {rows[i]})
  {
    ElementsStep(rows, i);
    assert first + Elements(rows[..i]) + {rows[i]} == first + Elements(rows[..i + 1]);
  }

  ghost predicate MergeableUpTo(t: Store, rows: seq<int>, n: nat) {
    n <= |rows| && forall k :: 0 <= k < n ==> Mergeable(t, rows[k])
  }

  /** Reconciling the next occupied row completes its plan exactly when its Feature has merged. */
  lemma RowIsActive(t: Store, rows: seq<int>, i: nat)
    requires Aligned(t) && RowsOccupied(t, rows) && i < |rows|
    ensures rows[i] in ReconciledRows(t, {}, rows, i).plans && rows[i] in ReconciledRows(t, {}, rows, i + 1).plans
    ensures var status := ReconciledRows(t, {}, rows, i + 1).plans[rows[i]].status;
      status != Cancelled && (status == Completed <==> Mergeable(t, rows[i]))
    ensures MergeableUpTo(t, rows, i) && Mergeable(t, rows[i]) ==> MergeableUpTo(t, rows, i + 1)
  {
    OneMoreRow(t, {}, rows, i);
    ActiveAfter(t, {} + Elements(rows[..i]), rows[i]);
  }

  ghost function UnfinishedUpTo(s: Store, rows: seq<int>, n: nat): seq<(int, Status)>
    requires Aligned(s) && n <= |rows|
  {
    if DepsIn(s, rows) then Unfinished(ReconcileAll(s), rows[..n]) else []
  }

  /** Once reconciled, a dependency has the status that reconciling everything gives it. */
  lemma RowIsDependency(s: Store, first: set<int>, rows: seq<int>, i: nat)
    requires Aligned(s) && DepsIn(s, rows) && i < |rows|
    ensures rows[i] in ReconciledRows(s, first, rows, i).plans && rows[i] in ReconciledRows(s, first, rows, i + 1).plans
    ensures var status := ReconciledRows(s, first, rows, i + 1).plans[rows[i]].status;
      UnfinishedUpTo(s, rows, i + 1)
      == UnfinishedUpTo(s, rows, i) + if status != Completed then [(rows[i], status)] else []
  {
    PrefixStep(rows, i);
    OneMoreRow(s, first, rows, i);
    ReconciledLikeAll(s, first + Elements(rows[..i]) + {rows[i]}, rows[i]);
  }

  lemma AllRows(s: Store, id: int)
    requires Aligned(s) && id in s.deps && DepsIn(s, s.deps[id])
    ensures var rows := s.deps[id];
      && ReconciledRows(s, {id}, rows, |rows|) == ReconcileSet(s, {id} + DepSet(s, id))
      && UnfinishedUpTo(s, rows, |rows|) == Unfinished(ReconcileAll(s), rows)
  {
    assert s.deps[id][..|s.deps[id]|] == s.deps[id];
  }

  lemma ActiveAfter(t: Store, done: set<int>, x: int)
    requires Aligned(t) && x in t.plans && Occupied(t.plans[x].status)
    ensures var p := ReconcileSet(t, done + {x}).plans[x];
      (p.status == Completed <==> Mergeable(t, x)) && p.status != Cancelled
  {
  }

  /** The three moments at which an evaluation can stop. */
  lemma EarlyVerdict(s: Store, id: int)
    requires Shaped(s) && id in s.plans
    ensures var p := ReconcileSet(s, {id}).plans[id];
      p.status != Queued || p.paused ==>
        Evaluate(s, id)
        == Step(ReconcileSet(s, {id}), Judged(if p.status != Queued then WrongStatus(p.status) else IsPaused))
  {
    ReconciledLikeAll(s, {id}, id);
  }

  lemma WaitingTouches(s: Store, id: int, d: int)
    requires Shaped(s) && id in s.plans && DepsIn(s, s.deps[id])
    requires ReconcileSet(s, {id}).plans[id].status == Queued && !ReconcileSet(s, {id}).plans[id].paused
    requires d in s.deps[id] && ReconcileAll(s).plans[d].status != Completed
    ensures Touched(s, id) == {id} + DepSet(s, id)
  {
    ReconciledLikeAll(s, {id} + DepSet(s, id), d);
  }

  lemma WaitingJudged(s: Store, id: int)
    requires Shaped(s) && Shaped(ReconcileAll(s)) && id in s.plans && DepsIn(s, s.deps[id])
    requires ReconcileSet(s, {id}).plans[id].status == Queued && !ReconcileSet(s, {id}).plans[id].paused
    ensures var all := ReconcileAll(s);
      Judge(s, id) == if Unfinished(all, s.deps[id]) != [] then WaitingOn(Unfinished(all, s.deps[id]))
                      else match FirstOccupied(all, id, 1)
                           case None => Eligible
                           case Some(j) => ProjectBusy(j, all.plans[j].status)
  {
    assert Aligned(s);
    hide Shaped, Unfinished, FirstOccupied, ReconcileSet;
    ReconciledLikeAll(s, {id}, id);
  }

  lemma WaitingVerdict(s: Store, id: int)
    requires Shaped(s) && id in s.plans && DepsIn(s, s.deps[id])
    requires ReconcileSet(s, {id}).plans[id].status == Queued && !ReconcileSet(s, {id}).plans[id].paused
    requires Unfinished(ReconcileAll(s), s.deps[id]) != []
    ensures Evaluate(s, id)
      == Step(ReconcileSet(s, {id} + DepSet(s, id)), Judged(WaitingOn(Unfinished(ReconcileAll(s), s.deps[id]))))
  {
    SettledShape(s, s.plans.Keys);
    NothingUnfinished(ReconcileAll(s), s.deps[id]);
    var d :| d in s.deps[id] && ReconcileAll(s).plans[d].status != Completed;
    WaitingTouches(s, id, d);
    WaitingJudged(s, id);
    hide Shaped, Touched, Judge, ReconcileSet, Unfinished;
  }

  lemma LateTouches(s: Store, id: int)
    requires Shaped(s) && id in s.plans && DepsIn(s, s.deps[id])
    requires ReconcileSet(s, {id}).plans[id].status == Queued && !ReconcileSet(s, {id}).plans[id].paused
    requires forall d :: d in s.deps[id] ==> ReconcileAll(s).plans[d].status == Completed
    ensures var near := {id} + DepSet(s, id);
      Touched(s, id) == near + ActivePrefix(ReconcileSet(s, near), id)
  {
    forall d | d in s.deps[id] ensures ReconcileSet(s, {id} + DepSet(s, id)).plans[d].status == Completed {
      ReconciledLikeAll(s, {id} + DepSet(s, id), d);
    }
  }

  lemma LateVerdict(s: Store, id: int)
    requires Shaped(s) && id in s.plans && DepsIn(s, s.deps[id])
    requires ReconcileSet(s, {id}).plans[id].status == Queued && !ReconcileSet(s, {id}).plans[id].paused
    requires Unfinished(ReconcileAll(s), s.deps[id]) == []
    ensures var near, first := {id} + DepSet(s, id), FirstOccupied(ReconcileAll(s), id, 1);
      Evaluate(s, id) == Step(ReconcileSet(s, near + ActivePrefix(ReconcileSet(s, near), id)),
        Judged(if first.None? then Eligible else ProjectBusy(first.value, ReconcileAll(s).plans[first.value].status)))
  {
    SettledShape(s, s.plans.Keys);
    NothingUnfinished(ReconcileAll(s), s.deps[id]);
    LateTouches(s, id);
    WaitingJudged(s, id);
    hide Shaped, Touched, Judge, ReconcileSet, Unfinished;
  }

  /** Settled or half settled, the occupied plans that cannot be merged are the same. */
  lemma OccupiedInAll(s: Store, near: set<int>, id: int, j: int)
    requires Aligned(s) && id in near
    ensures OccupiedOther(ReconcileAll(s), id, j)
      <==> OccupiedOther(ReconcileSet(s, near), id, j) && !Mergeable(ReconcileSet(s, near), j)
  {
  }

  lemma PrefixElements(t: Store, id: int, rows: seq<int>, i: nat)
    requires i < |rows| && AllOccupied(t, id, rows) && Increasing(rows)
    requires (forall k :: 0 <= k < i ==> Mergeable(t, rows[k])) && !Mergeable(t, rows[i])
    ensures ActivePrefix(t, id) == Elements(rows[..i + 1])
    ensures forall j :: j in rows && j < rows[i] ==> Mergeable(t, j)
  {
    assert rows[i] in rows;
    forall j | j in rows && j < rows[i] ensures Mergeable(t, j) && j in rows[..i] {
      var k :| 0 <= k < |rows| && rows[k] == j;
      assert Ordered(rows, i, k);
      assert rows[..i][k] == j;
    }
    forall j | j in rows[..i + 1] ensures j in rows && j <= rows[i] {
      var k :| 0 <= k < i + 1 && rows[k] == j;
      assert Ordered(rows, k, i);
    }
  }

  predicate Increasing(rows: seq<int>) {
    forall a, b :: 0 <= a < |rows| && 0 <= b < |rows| ==> Ordered(rows, a, b)
  }

  predicate Ordered(rows: seq<int>, a: nat, b: nat)
    requires a < |rows| && b < |rows|
  {
    a < b ==> rows[a] < rows[b]
  }

  lemma AppendKeepsOrder(rows: seq<int>, last: int)
    requires Increasing(rows) && forall a :: 0 <= a < |rows| ==> rows[a] < last
    ensures Increasing(rows + [last])
  {
    forall a, b | 0 <= a < |rows| + 1 && 0 <= b < |rows| + 1 ensures Ordered(rows + [last], a, b) {
      assert a < |rows| && b < |rows| ==> Ordered(rows, a, b);
    }
  }

  ghost predicate AllOccupied(t: Store, id: int, rows: seq<int>) {
    forall j :: j in rows <==> OccupiedOther(t, id, j)
  }

  ghost predicate RowsOccupied(t: Store, rows: seq<int>) {
    forall k :: 0 <= k < |rows| ==> rows[k] in t.plans && Occupied(t.plans[rows[k]].status)
  }

  lemma RowsAreOccupied(t: Store, id: int, rows: seq<int>)
    requires AllOccupied(t, id, rows)
    ensures RowsOccupied(t, rows)
  {
    forall k | 0 <= k < |rows| ensures rows[k] in t.plans && Occupied(t.plans[rows[k]].status) {
      assert rows[k] in rows;
      assert OccupiedOther(t, id, rows[k]);
    }
  }

  /** Which rows stay occupied once everything is reconciled. */
  lemma StillOccupied(s: Store, t: Store, near: set<int>, id: int, rows: seq<int>)
    requires Aligned(s) && id in near && t == ReconcileSet(s, near) && AllOccupied(t, id, rows)
    ensures forall j :: OccupiedOther(ReconcileAll(s), id, j) <==> j in rows && !Mergeable(t, j)
  {
    forall j ensures OccupiedOther(ReconcileAll(s), id, j) <==> j in rows && !Mergeable(t, j) {
      OccupiedInAll(s, near, id, j);
    }
  }

  lemma RanOut(s: Store, t: Store, near: set<int>, id: int, rows: seq<int>)
    requires Aligned(s) && id in near && t == ReconcileSet(s, near)
    requires AllOccupied(t, id, rows) && forall k :: 0 <= k < |rows| ==> Mergeable(t, rows[k])
    ensures ReconcileSet(t, Elements(rows)) == ReconcileSet(s, near + ActivePrefix(t, id))
    ensures FirstOccupied(ReconcileAll(s), id, 1) == None
  {
    StillOccupied(s, t, near, id, rows);
    assert ActivePrefix(t, id) == Elements(rows);
    ReconcileTwice(s, near, ActivePrefix(t, id));
  }

  lemma FirstThatStays(s: Store, t: Store, near: set<int>, id: int, rows: seq<int>, i: nat)
    requires Aligned(s) && id in near && t == ReconcileSet(s, near) && i < |rows|
    requires forall j :: j in s.plans ==> 0 < j < s.nextPlan
    requires AllOccupied(t, id, rows) && Increasing(rows)
    requires (forall k :: 0 <= k < i ==> Mergeable(t, rows[k])) && !Mergeable(t, rows[i])
    ensures FirstOccupied(ReconcileAll(s), id, 1) == Some(rows[i])
  {
    StillOccupied(s, t, near, id, rows);
    assert rows[i] in rows;
    PrefixElements(t, id, rows, i);
  }

  /** Stopping at the first row that stays occupied, or at the end, is what the verdict rule needs. */
  lemma StoppedAt(s: Store, t: Store, near: set<int>, id: int, rows: seq<int>, i: nat)
    requires Aligned(s) && id in near && t == ReconcileSet(s, near) && i <= |rows|
    requires forall j :: j in s.plans ==> 0 < j < s.nextPlan
    requires AllOccupied(t, id, rows) && Increasing(rows)
    requires MergeableUpTo(t, rows, i) && (i < |rows| ==> !Mergeable(t, rows[i]))
    ensures var u := ReconciledRows(t, {}, rows, if i < |rows| then i + 1 else i);
      && u == ReconcileSet(s, near + ActivePrefix(t, id))
      && FirstOccupied(ReconcileAll(s), id, 1) == (if i < |rows| then Some(rows[i]) else None)
      && (i < |rows| ==> rows[i] in u.plans && u.plans[rows[i]] == ReconcileAll(s).plans[rows[i]])
  {
    var seen := rows[..if i < |rows| then i + 1 else i];
    assert {} + Elements(seen) == Elements(seen);
    if i < |rows| {
      FirstThatStays(s, t, near, id, rows, i);
      PrefixElements(t, id, rows, i);
      ReconcileTwice(s, near, ActivePrefix(t, id));
      StopsIn(s, t, near, id, rows[i], rows[..i + 1]);
      assert rows[..i + 1][i] == rows[i];
    } else {
      assert rows[..i] == rows;
      RanOut(s, t, near, id, rows);
    }
  }

  lemma StopsIn(s: Store, t: Store, near: set<int>, id: int, x: int, seen: seq<int>)
    requires Aligned(s) && t == ReconcileSet(s, near) && x in t.plans
    ensures var u := ReconcileSet(t, Elements(seen));
      x in seen ==> x in u.plans && u.plans[x] == ReconcileAll(s).plans[x]
  {
  }
}
