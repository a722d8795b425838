/** The writer lease of a project, and idempotency keys, over whole runs. */
module PlanSafety {
  import opened Basics
  import opened PlanTables
  import opened PlanSpec
  import opened PlanInvariants
  import opened PlanOperations
  import opened PlanEligibility
  import opened PlanRuns

  // The writer lease

  ghost predicate Holder(s: Store, project: int, i: int) {
    i in s.plans && s.plans[i].project == project && Occupied(s.plans[i].status)
  }

  /** At most one plan of a project holds its writer lease. */
  ghost predicate Exclusive(s: Store) {
    forall project, i, j :: Holder(s, project, i) && Holder(s, project, j) ==> i == j
  }

  /** A status write that takes the lease past the eligibility check while another plan holds it. */
  ghost predicate Barges(s: Store, c: Call) {
    && c.SetStatus? && c.to == Admitted && c.id in s.plans && s.plans[c.id].status == Queued && !Mergeable(s, c.id)
    && exists j :: OccupiedOther(s, c.id, j)
  }

  ghost predicate NoNewHolder(s: Store, t: Store) {
    forall project, j :: Holder(t, project, j) ==> Holder(s, project, j)
  }

  /** The audit row of an admission. */
  predicate Admits(row: HistoryRow) {
    row.action.StatusChanged? && row.to == Admitted
  }

  /** The log grew, but not by an admission. */
  predicate GrewQuietly(g: seq<HistoryRow>, h: seq<HistoryRow>) {
    g <= h && forall k :: |g| <= k < |h| ==> !Admits(h[k])
  }

  ghost predicate QuietLogs(s: Store, t: Store) {
    forall id :: id in s.history ==> id in t.history && GrewQuietly(s.history[id], t.history[id])
  }

  /** Nobody takes the lease, and no log says so. */
  ghost predicate NoAdmission(s: Store, t: Store) {
    NoNewHolder(s, t) && QuietLogs(s, t)
  }

  lemma NoAdmissionTwice(s: Store, t: Store, u: Store)
    requires NoAdmission(s, t) && NoAdmission(t, u)
    ensures NoAdmission(s, u)
  {
    forall id | id in s.history ensures id in u.history && GrewQuietly(s.history[id], u.history[id]) {
      assert GrewQuietly(s.history[id], t.history[id]) && GrewQuietly(t.history[id], u.history[id]);
    }
  }

  lemma NothingWritten(s: Store, t: Store)
    requires t.plans == s.plans && t.history == s.history
    ensures NoAdmission(s, t)
  {
  }

  lemma StaysExclusive(s: Store, t: Store)
    requires Exclusive(s) && NoNewHolder(s, t)
    ensures Exclusive(t)
  {
  }

  lemma ReconcilingReleases(s: Store, id: int, ids: set<int>)
    requires Aligned(s)
    ensures NoAdmission(s, Reconcile(s, id)) && NoAdmission(s, ReconcileSet(s, ids))
  {
    hide NoAdmission;
    ReconcilingSetReleases(s, ids);
    ReconcilingSetReleases(s, {id});
    ReconcileOne(s, id);
  }

  lemma ReconcilingSetReleases(s: Store, ids: set<int>)
    requires Aligned(s)
    ensures NoAdmission(s, ReconcileSet(s, ids))
  {
    var t := ReconcileSet(s, ids);
    forall id | id in s.history ensures id in t.history && GrewQuietly(s.history[id], t.history[id]) {
    }
  }

  lemma LogReleases(s: Store, id: int, q: Plan, action: Action)
    requires Aligned(s) && id in s.plans && q.project == s.plans[id].project
    requires Occupied(q.status) ==> Occupied(s.plans[id].status)
    requires action.StatusChanged? ==> q.status != Admitted
    ensures NoAdmission(s, Log(s, id, q, action))
  {
  }

  lemma WriteReleases(s: Store, id: int, q: Plan, action: Action)
    requires Aligned(s) && id in s.plans && q.project == s.plans[id].project
    requires Occupied(q.status) ==> Occupied(s.plans[id].status)
    requires action.StatusChanged? ==> q.status != Admitted
    ensures NoAdmission(s, Write(s, id, q, action).store)
  {
    hide NoAdmission;
    LogReleases(s, id, q, action);
    ReconcilingReleases(Log(s, id, q, action), id, {});
    NoAdmissionTwice(s, Log(s, id, q, action), Write(s, id, q, action).store);
  }

  lemma StatusWriteReleases(s: Store, id: int, to: Status)
    requires Aligned(s) && to != Admitted
    ensures NoAdmission(s, Transition(s, id, to).store)
  {
    hide NoAdmission, Reconcile;
    NothingWritten(s, s);
    ReconcilingReleases(s, id, {});
    if id in s.plans && AllowedTransition(s.plans[id].status, to) {
      WriteReleases(s, id, s.plans[id].(status := to), StatusChanged);
    }
  }

  lemma EndingReleases(s: Store, id: int)
    requires Aligned(s)
    ensures NoAdmission(s, Complete(s, id).store) && NoAdmission(s, Cancel(s, id).store)
  {
    hide NoAdmission, Reconcile;
    NothingWritten(s, s);
    ReconcilingReleases(s, id, {});
    if id in s.plans {
      WriteReleases(s, id, s.plans[id].(status := Completed), ReconciledAfterFeatureMerge);
      WriteReleases(s, id, s.plans[id].(status := Cancelled), CancelRequested);
    }
  }

  lemma PauseReleases(s: Store, id: int)
    requires Aligned(s)
    ensures NoAdmission(s, Pause(s, id).store) && NoAdmission(s, Resume(s, id).store)
  {
    hide NoAdmission, Reconcile;
    NothingWritten(s, s);
    ReconcilingReleases(s, id, {});
    if id in s.plans {
      WriteReleases(s, id, s.plans[id].(paused := true), Paused);
      WriteReleases(s, id, s.plans[id].(paused := false), Resumed);
    }
  }

  lemma PriorityReleases(s: Store, id: int, priority: int)
    requires Aligned(s)
    ensures NoAdmission(s, Prioritize(s, id, priority).store)
  {
    hide NoAdmission, Reconcile;
    NothingWritten(s, s);
    ReconcilingReleases(s, id, {});
    if id in s.plans {
      WriteReleases(s, id, s.plans[id].(priority := priority), PrioritySet(s.plans[id].priority, priority));
    }
  }

  lemma RelinkReleases(s: Store, id: int, ds: seq<int>, action: Action)
    requires Aligned(s) && id in s.plans && !action.StatusChanged?
    ensures NoAdmission(s, Reconcile(Relinked(s, id, ds, action), id))
  {
    hide NoAdmission, Reconcile;
    var linked := s.(deps := s.deps[id := ds]);
    NothingWritten(s, linked);
    WriteReleases(linked, id, s.plans[id], action);
    NoAdmissionTwice(s, linked, Reconcile(Relinked(s, id, ds, action), id));
  }

  lemma DependReleases(s: Store, id: int, on: int)
    requires Shaped(s)
    ensures NoAdmission(s, Depend(s, id, on).store) && NoAdmission(s, Undepend(s, id, on).store)
  {
    hide NoAdmission, Reconcile;
    NothingWritten(s, s);
    if id in s.plans {
      RelinkReleases(s, id, s.deps[id] + [on], DependencyAdded(on));
      RelinkReleases(s, id, Keep(s.deps[id], d => d != on), DependencyRemoved(on));
    }
  }

  lemma EvaluateReleases(s: Store, id: int)
    requires Shaped(s)
    ensures NoAdmission(s, Evaluate(s, id).store)
  {
    hide NoAdmission, ReconcileSet, Touched;
    NothingWritten(s, s);
    if id in s.plans {
      ReconcilingReleases(s, id, Touched(s, id));
    }
  }

  /** A new plan is queued, and its log begins with its creation. */
  lemma NewPlanReleases(s: Store, p: Plan, tasks: seq<TaskChoice>, ds: seq<int>)
    requires Shaped(s) && p.status == Queued
    ensures NoAdmission(s, WithNewPlan(s, p, tasks, ds))
  {
    assert s.nextPlan !in s.plans;
  }

  lemma CreateReleases(s: Store, r: CreateRequest)
    requires Shaped(s)
    ensures NoAdmission(s, Create(s, r).store)
  {
    NothingWritten(s, s);
    CreateCases(s, r);
    hide Create, NoAdmission, Reconcile;
    if r.key in s.operations {
      ReconcilingReleases(s, s.operations[r.key].plan, {});
    }
    if r.projectKey in s.projects {
      var p := Plan(s.projects[r.projectKey], r.objective, Criteria(r.criteria), Queued, r.priority, false, 1);
      var t := WithNewPlan(s, p, r.tasks, Dedup(r.dependsOn));
      var u := Remember(t, r.key, Operation(s.nextPlan, CreatePayloadOf(s.projects[r.projectKey], r)));
      NewPlanReleases(s, p, r.tasks, Dedup(r.dependsOn));
      NothingWritten(t, u);
      NoAdmissionTwice(s, t, u);
    }
  }

  lemma RetaskingReleases(s: Store, r: ReplanRequest, op: Operation)
    requires Aligned(s) && r.plan in s.plans
    ensures NoAdmission(s, Reconcile(Remember(Retasked(s, r), r.key, op), r.plan))
  {
    hide NoAdmission, Reconcile;
    var p, rows := s.plans[r.plan], s.(taskRows := s.taskRows[r.plan := RowsFor(r.tasks)]);
    var q := p.(objective := r.objective, criteria := Criteria(r.criteria), revision := p.revision + 1);
    var t, u := Retasked(s, r), Remember(Retasked(s, r), r.key, op);
    NothingWritten(s, rows);
    LogReleases(rows, r.plan, q, Replanned(p.revision + 1));
    NoAdmissionTwice(s, rows, t);
    NothingWritten(t, u);
    NoAdmissionTwice(s, t, u);
    ReconcilingReleases(u, r.plan, {});
    NoAdmissionTwice(s, u, Reconcile(u, r.plan));
  }

  lemma ReplanReleases(s: Store, r: ReplanRequest)
    requires Shaped(s)
    ensures NoAdmission(s, Replan(s, r).store)
  {
    NothingWritten(s, s);
    ReplanCases(s, r);
    hide Replan, NoAdmission, Reconcile;
    if r.key in s.operations {
      ReconcilingReleases(s, s.operations[r.key].plan, {});
    }
    if r.plan in s.plans {
      RetaskingReleases(s, r, Operation(r.plan, ReplanPayloadOf(r)));
    }
  }

  /** No call but an admission or a status write to admitted gives a plan the lease, or logs an admission. */
  lemma OnlyAdmissionTakesTheLease(s: Store, c: Call)
    requires Shaped(s) && !c.AdmitPlan? && !(c.SetStatus? && c.to == Admitted)
    ensures NoAdmission(s, Apply(s, c).store)
  {
    assert Aligned(s);
    hide Shaped, NoAdmission, Create, Pause, Resume, Prioritize, Depend, Undepend, Transition, Complete, Evaluate;
    hide Cancel, Replan, ReconcileSet;
    match c
    case ReadPlans(ids) => ReconcilingReleases(s, 0, ids);
    case CreatePlan(r) => CreateReleases(s, r);
    case PausePlan(id) => PauseReleases(s, id);
    case ResumePlan(id) => PauseReleases(s, id);
    case SetPriority(id, priority) => PriorityReleases(s, id, priority);
    case AddDependency(id, on) => DependReleases(s, id, on);
    case RemoveDependency(id, on) => DependReleases(s, id, on);
    case SetStatus(id, to) => StatusWriteReleases(s, id, to);
    case CompleteAfterMerge(id) => EndingReleases(s, id);
    case EvaluateEligibility(id) => EvaluateReleases(s, id);
    case CancelPlan(id) => EndingReleases(s, id);
    case ReplanPlan(r) => ReplanReleases(s, r);
    case _ => SurroundingsRelease(s, c);
  }

  lemma SurroundingsRelease(s: Store, c: Call)
    requires Shaped(s)
    requires c.RegisterProject? || c.CreateTask? || c.DeleteTask? || c.SetFeatureMerged? || c.CreateIntegration?
    ensures NoAdmission(s, Apply(s, c).store)
  {
    hide NoAdmission;
    SurroundingContents(s, c);
    NothingWritten(s, Apply(s, c).store);
  }

  /** Giving the lease to a queued plan keeps it exclusive exactly when no other plan of the project holds it. */
  lemma LeaseTaken(s: Store, t: Store, id: int)
    requires Exclusive(s) && id in s.plans && s.plans[id].status == Queued
    requires t.plans == s.plans[id := s.plans[id].(status := Admitted)]
    ensures Exclusive(t) <==> !exists j :: OccupiedOther(s, id, j)
  {
    var project := s.plans[id].project;
    assert Holder(t, project, id);
    forall j | OccupiedOther(s, id, j) ensures Holder(t, project, j) {
    }
    forall q, j | Holder(t, q, j) ensures j == id || Holder(s, q, j) {
    }
    assert forall j :: Holder(s, project, j) ==> OccupiedOther(s, id, j);
  }

  lemma QueuedToAdmitted(s: Store, id: int)
    requires Aligned(s) && Exclusive(s) && id in s.plans && s.plans[id].status == Queued
    ensures var u := Log(s, id, s.plans[id].(status := Admitted), StatusChanged);
      Exclusive(Reconcile(u, id)) <==> Mergeable(s, id) || !exists j :: OccupiedOther(s, id, j)
  {
    var u := Log(s, id, s.plans[id].(status := Admitted), StatusChanged);
    if Mergeable(s, id) {
      StaysExclusive(s, Reconcile(u, id));
    } else {
      LeaseTaken(s, u, id);
    }
  }

  lemma StatusWriteToAdmitted(s: Store, c: Call, id: int)
    requires Aligned(s) && Exclusive(s) && c == SetStatus(id, Admitted)
    ensures Exclusive(Transition(s, id, Admitted).store) <==> !Barges(s, c)
  {
    if id in s.plans && s.plans[id].status == Queued {
      QueuedToAdmitted(s, id);
    } else {
      ReconcilingReleases(s, id, {});
      StaysExclusive(s, Reconcile(s, id));
    }
  }

  /** An admission fails, reads, is refused after its evaluation, or writes. */
  lemma AdmitCases(s: Store, id: int)
    requires Shaped(s)
    ensures var step := Admit(s, id);
      || step.store == s || step.store == Reconcile(s, id)
      || (id in s.plans && step.store == ReconcileSet(s, Touched(s, id)))
      || (step.outcome == Done(id, true) && id in s.plans && Judge(s, id).Eligible?)
  {
    hide Touched, Judge, Reconcile;
    if id in s.plans && Judge(s, id).Eligible? {
      EligibleLeavesFreeProject(s, id);
    }
  }

  lemma AdmissionIsExclusive(s: Store, id: int)
    requires Shaped(s) && Exclusive(s)
    ensures Exclusive(Admit(s, id).store)
  {
    hide Admit, Exclusive, NoNewHolder, Touched, Judge, ReconcileSet, Reconcile;
    AdmitCases(s, id);
    ReconcilingReleases(s, id, {});
    StaysExclusive(s, Reconcile(s, id));
    if id in s.plans {
      ReconcilingReleases(s, id, Touched(s, id));
      StaysExclusive(s, ReconcileSet(s, Touched(s, id)));
      if Admit(s, id).outcome == Done(id, true) {
        AdmissionTakesTheLease(s, id);
      }
    }
  }

  lemma AdmissionTakesTheLease(s: Store, id: int)
    requires Shaped(s) && id in s.plans
    requires Exclusive(ReconcileSet(s, Touched(s, id))) && Admit(s, id).outcome == Done(id, true)
    ensures Exclusive(Admit(s, id).store)
  {
    AdmitIsTransition(s, id);
    EligibleLeavesFreeProject(s, id);
    hide Admit, Exclusive, Touched, Judge, ReconcileSet;
    LeaseTaken(ReconcileSet(s, Touched(s, id)), Admit(s, id).store, id);
  }

  /** One call keeps the lease exclusive exactly when it does not barge in. */
  lemma ExclusiveStep(s: Store, c: Call)
    requires Valid(s) && Exclusive(s)
    ensures Exclusive(Apply(s, c).store) <==> !Barges(s, c)
  {
    if c.SetStatus? && c.to == Admitted {
      StatusWriteToAdmitted(s, c, c.id);
    } else if c.AdmitPlan? {
      AdmissionIsExclusive(s, c.id);
    } else {
      OnlyAdmissionTakesTheLease(s, c);
      StaysExclusive(s, Apply(s, c).store);
    }
  }

  /** The lease is exclusive before, between and after the calls. */
  ghost predicate AlwaysExclusive(s: Store, calls: seq<Call>)
    requires Valid(s)
    decreases |calls|
  {
    Exclusive(s) && (calls == [] || (ApplyFollows(s, calls[0]); AlwaysExclusive(Apply(s, calls[0]).store, calls[1..])))
  }

  ghost predicate NeverBarges(s: Store, calls: seq<Call>)
    requires Valid(s)
    decreases |calls|
  {
    calls == []
    || (!Barges(s, calls[0]) && (ApplyFollows(s, calls[0]); NeverBarges(Apply(s, calls[0]).store, calls[1..])))
  }

  /** A run keeps the lease exclusive at every moment if and only if none of its status writes barges in. */
  lemma {:induction false} LeaseIsExclusiveIff(s: Store, calls: seq<Call>)
    requires Valid(s) && Exclusive(s)
    ensures AlwaysExclusive(s, calls) <==> NeverBarges(s, calls)
    decreases |calls|
  {
    if calls != [] {
      ApplyFollows(s, calls[0]);
      ExclusiveStep(s, calls[0]);
      if !Barges(s, calls[0]) {
        LeaseIsExclusiveIff(Apply(s, calls[0]).store, calls[1..]);
      } else {
        assert !AlwaysExclusive(Apply(s, calls[0]).store, calls[1..]);
      }
    }
  }

  predicate DirectAdmission(c: Call) {
    c.SetStatus? && c.to == Admitted
  }

  lemma {:induction false} WithoutDirectAdmissionNeverBarges(s: Store, calls: seq<Call>)
    requires Valid(s) && forall i :: 0 <= i < |calls| ==> !DirectAdmission(calls[i])
    ensures NeverBarges(s, calls)
    decreases |calls|
  {
    if calls != [] {
      assert !DirectAdmission(calls[0]);
      ApplyFollows(s, calls[0]);
      assert forall i :: 0 <= i < |calls| - 1 ==> calls[1..][i] == calls[i + 1];
      WithoutDirectAdmissionNeverBarges(Apply(s, calls[0]).store, calls[1..]);
    }
  }

  /** From an empty database, runs that admit only through the eligibility check keep the lease exclusive throughout. */
  lemma LeaseIsExclusive(calls: seq<Call>)
    requires forall i :: 0 <= i < |calls| ==> !DirectAdmission(calls[i])
    ensures Valid(EMPTY)
    ensures AlwaysExclusive(EMPTY, calls)
  {
    EmptyIsValid();
    WithoutDirectAdmissionNeverBarges(EMPTY, calls);
    LeaseIsExclusiveIff(EMPTY, calls);
  }

  // Idempotency keys

  function KeyOf(c: Call): string {
    match c
    case CreatePlan(r) => r.key
    case ReplanPlan(r) => r.key
    case _ => ""
  }

  ghost predicate Applied(s: Store, c: Call)
    requires Shaped(s)
  {
    Apply(s, c).outcome.Done? && Apply(s, c).outcome.applied
  }

  /** The call asks for what the operation recorded under its key did. */
  predicate SameRequest(s: Store, c: Call, op: Operation) {
    match c
    case CreatePlan(r) => r.projectKey in s.projects && op.payload == CreatePayloadOf(s.projects[r.projectKey], r)
    case ReplanPlan(r) => op.payload == ReplanPayloadOf(r)
    case _ => false
  }

  lemma CreateUnderUsedKey(s: Store, r: CreateRequest)
    requires Shaped(s) && r.key != "" && r.key in s.operations
    ensures var step, op := Create(s, r), s.operations[r.key];
      || (step.outcome.Failed? && step.store == s)
      || (step == Read(s, op.plan) && SameRequest(s, CreatePlan(r), op))
  {
  }

  lemma ReplanUnderUsedKey(s: Store, r: ReplanRequest)
    requires Shaped(s) && r.key != "" && r.key in s.operations
    ensures var step, op := Replan(s, r), s.operations[r.key];
      || (step.outcome.Failed? && step.store == s)
      || (step == Read(s, op.plan) && SameRequest(s, ReplanPlan(r), op))
  {
  }

  /**
   A call under a used key is a read of the recorded plan, or fails and changes nothing; anything but
   the recorded request fails.
   */
  lemma UsedKeyOnlyReads(s: Store, c: Call)
    requires Shaped(s) && KeyOf(c) != "" && KeyOf(c) in s.operations
    ensures var step, op := Apply(s, c), s.operations[KeyOf(c)];
      && !Applied(s, c)
      && (step.store == s || step == Read(s, op.plan))
      && (step.outcome.Failed? ==> step.store == s)
      && (!SameRequest(s, c, op) ==> step.outcome.Failed?)
  {
    match c
    case CreatePlan(r) => CreateUnderUsedKey(s, r);
    case ReplanPlan(r) => ReplanUnderUsedKey(s, r);
  }

  lemma CreateRecords(s: Store, r: CreateRequest)
    requires Shaped(s) && r.key != "" && Create(s, r).outcome.Done? && Create(s, r).outcome.applied
    ensures var t := Create(s, r).store;
      && r.key !in s.operations && r.key in t.operations && t.projects == s.projects
      && t.operations[r.key].plan == s.nextPlan == Create(s, r).outcome.plan
      && SameRequest(t, CreatePlan(r), t.operations[r.key])
  {
  }

  lemma ReplanRecords(s: Store, r: ReplanRequest)
    requires Shaped(s) && r.key != "" && Replan(s, r).outcome.Done? && Replan(s, r).outcome.applied
    ensures var t := Replan(s, r).store;
      && r.key !in s.operations && r.key in t.operations
      && t.operations[r.key].plan == r.plan == Replan(s, r).outcome.plan
      && SameRequest(t, ReplanPlan(r), t.operations[r.key])
  {
  }

  /** An applied call leaves its request recorded under its key, which was free. */
  lemma AppliedCallIsRecorded(s: Store, c: Call)
    requires Shaped(s) && KeyOf(c) != "" && Applied(s, c)
    ensures var t := Apply(s, c).store;
      && KeyOf(c) !in s.operations && KeyOf(c) in t.operations
      && t.operations[KeyOf(c)].plan == Apply(s, c).outcome.plan
      && SameRequest(t, c, t.operations[KeyOf(c)])
  {
    match c
    case CreatePlan(r) => CreateRecords(s, r);
    case ReplanPlan(r) => ReplanRecords(s, r);
  }

  /**
   Once a keyed creation or replan was applied, no later call under the same key is ever applied:
   it reads the recorded plan or fails, and fails whenever it asks for something else.
   */
  lemma KeyIsSpentOnce(s: Store, c: Call, between: seq<Call>, again: Call)
    requires Valid(s) && KeyOf(c) != "" && Applied(s, c) && KeyOf(again) == KeyOf(c)
    ensures var t := Run(s, [c] + between);
      && !Applied(t, again) && KeyOf(c) in t.operations
      && t.operations[KeyOf(c)].plan == Apply(s, c).outcome.plan
      && (Apply(t, again).store == t || Apply(t, again) == Read(t, Apply(s, c).outcome.plan))
      && (!SameRequest(t, again, t.operations[KeyOf(c)]) ==>
            Apply(t, again).outcome.Failed? && Apply(t, again).store == t)
  {
    AppliedCallIsRecorded(s, c);
    RunFrom(s, c, between);
    RunFollows(Apply(s, c).store, between);
    UsedKeyOnlyReads(Run(s, [c] + between), again);
  }

  /** Repeating an applied replan answers with the plan and only reconciles. */
  lemma RepeatedReplanReads(s: Store, c: Call, between: seq<Call>)
    requires Valid(s) && c.ReplanPlan? && KeyOf(c) != "" && Applied(s, c)
    ensures Apply(Run(s, [c] + between), c) == Read(Run(s, [c] + between), c.replan.plan)
  {
    hide Shaped, HistoryOk, EdgesOk, TaskListOk;
    var t := Run(s, [c] + between);
    KeyIsSpentOnce(s, c, between, c);
    AppliedCallIsRecorded(s, c);
    RunFrom(s, c, between);
    RunFollows(Apply(s, c).store, between);
    ReplanRepeats(s, t, c.replan);
  }

  lemma ReplanRepeats(s: Store, t: Store, r: ReplanRequest)
    requires Shaped(s) && Shaped(t) && r.key != "" && Replan(s, r).outcome.Done?
    requires r.plan in t.plans && r.key in t.operations
    requires t.operations[r.key] == Operation(r.plan, ReplanPayloadOf(r))
    ensures Replan(t, r) == Read(t, r.plan)
  {
  }

  lemma CreateRepeats(s: Store, t: Store, r: CreateRequest, plan: int)
    requires Shaped(s) && Shaped(t) && r.key != "" && Create(s, r).outcome.Done?
    requires r.projectKey in t.projects && t.projects[r.projectKey] == s.projects[r.projectKey] && r.key in t.operations
    requires t.operations[r.key] == Operation(plan, CreatePayloadOf(s.projects[r.projectKey], r))
    ensures TaskProjectError(t.tasks, t.projects[r.projectKey], Ids(r.tasks)).None? ==> Create(t, r) == Read(t, plan)
    ensures TaskProjectError(t.tasks, t.projects[r.projectKey], Ids(r.tasks)).Some? ==>
        Create(t, r).store == t && Create(t, r).outcome.Failed?
  {
  }

  /** The tasks still exist in the project. */
  predicate InProject(t: Store, ids: seq<int>, project: int) {
    forall x :: x in ids ==> x in t.tasks && t.tasks[x] == Some(project)
  }

  /** Repeating an applied creation answers with the plan exactly as long as its tasks still exist in the project. */
  lemma RepeatedCreateReads(s: Store, c: Call, between: seq<Call>)
    requires Valid(s) && c.CreatePlan? && KeyOf(c) != "" && Applied(s, c)
    ensures var t := Run(s, [c] + between);
      && c.create.projectKey in t.projects
      && (Apply(t, c).outcome == Done(Apply(s, c).outcome.plan, false)
          <==> InProject(t, Ids(c.create.tasks), t.projects[c.create.projectKey]))
      && (Apply(t, c).store == t || Apply(t, c).store == Reconcile(t, Apply(s, c).outcome.plan))
  {
    var t := Run(s, [c] + between);
    AppliedCallIsRecorded(s, c);
    RunFrom(s, c, between);
    RunFollows(Apply(s, c).store, between);
    CreateRecords(s, c.create);
    CreateRepeats(s, t, c.create, Apply(s, c).outcome.plan);
    TasksInProject(t.tasks, t.projects[c.create.projectKey], Ids(c.create.tasks));
  }
}
