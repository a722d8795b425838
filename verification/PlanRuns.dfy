/** What holds after any sequence of calls, starting from empty tables. */
module PlanRuns {
  import opened Basics
  import opened DependencyGraph
  import opened PlanTables
  import opened PlanSpec
  import opened PlanInvariants
  import opened PlanOperations
  import opened PlanEligibility

  /** One call after the other. */
  ghost function Run(s: Store, calls: seq<Call>): (t: Store)
    requires Valid(s)
    ensures Valid(t)
    decreases |calls|
  {
    if calls == [] then s
    else
      ApplyFollows(s, calls[0]);
      Run(Apply(s, calls[0]).store, calls[1..])
  }

  lemma {:induction false} RunFollows(s: Store, calls: seq<Call>)
    requires Valid(s)
    ensures Follows(s, Run(s, calls))
    decreases |calls|
  {
    if calls == [] {
      LaterReflexive(s);
    } else {
      ApplyFollows(s, calls[0]);
      RunFollows(Apply(s, calls[0]).store, calls[1..]);
      FollowsTransitive(s, Apply(s, calls[0]).store, Run(s, calls));
    }
  }

  /** The tables after `calls`, from an empty database. */
  ghost function Reached(calls: seq<Call>): (t: Store)
    ensures Valid(t)
  {
    EmptyIsValid();
    Run(EMPTY, calls)
  }

  /** Every run keeps the dependency graph acyclic, within one project, and without repeated edges. */
  lemma DependenciesStayAcyclic(calls: seq<Call>)
    ensures var s := Reached(calls);
      && Acyclic(s.deps)
      && (forall a, b :: Edge(s.deps, a, b) ==>
            a in s.plans && b in s.plans && s.plans[a].project == s.plans[b].project)
      && (forall a :: a in s.deps ==> NoDup(s.deps[a]))
  {
    assert EdgesOk(Reached(calls));
  }

  // The audit log

  ghost function Replans(h: seq<HistoryRow>): nat {
    if h == [] then 0
    else Replans(h[..|h| - 1]) + if h[|h| - 1].action.Replanned? then 1 else 0
  }

  /** Row `i` starts from the status the row before it (or `first`) ended in. */
  predicate Linked(first: Status, rows: seq<HistoryRow>, i: nat)
    requires i < |rows|
  {
    rows[i].from == Some(if i == 0 then first else rows[i - 1].to)
  }

  lemma {:induction false} FitsChain(v: View, rows: seq<HistoryRow>)
    requires Fits(v, rows)
    ensures Replay(v, rows).status == if rows == [] then v.status else rows[|rows| - 1].to
    ensures forall i :: 0 <= i < |rows| ==> Linked(v.status, rows, i)
    ensures Replay(v, rows).revision == v.revision + Replans(rows)
  {
    if rows != [] {
      var init := rows[..|rows| - 1];
      FitsChain(v, init);
      forall i | 0 <= i < |rows| ensures Linked(v.status, rows, i) {
        assert i < |init| ==> Linked(v.status, init, i);
      }
    }
  }

  /** How a single audit row may change the status. */
  predicate LegalMove(row: HistoryRow) {
    row.from.Some? &&
    match row.action
    case StatusChanged => MayMove(row.from.value, row.to)
    case ReconciledAfterFeatureMerge => !Terminal(row.from.value) && row.to == Completed
    case CancelRequested => !Terminal(row.from.value) && row.to == Cancelled
    case _ => row.to == row.from.value
  }

  lemma {:induction false} FitsMoves(v: View, rows: seq<HistoryRow>)
    requires Fits(v, rows)
    ensures forall i :: 0 <= i < |rows| ==> LegalMove(rows[i])
  {
    if rows != [] {
      var init, last := rows[..|rows| - 1], rows[|rows| - 1];
      FitsMoves(v, init);
      AllowedIsMayMove(Replay(v, init).status, last.to);
      hide MayMove, AllowedTransition, Replay;
    }
  }

  /**
   The audit log of every plan is a chain from its creation, moves only along the transition
   table, a cancel or a merge, and folding it gives the plan's status, pause flag, priority and
   revision, the latter being one plus the number of replans.
   */
  lemma AuditLogIsFaithful(calls: seq<Call>, id: int)
    requires id in Reached(calls).plans
    ensures var t := Reached(calls); var h, p := t.history[id], t.plans[id];
      && |h| > 0 && h[0] == HistoryRow(None, Queued, Created(h[0].action.priority))
      && (forall i :: 0 < i < |h| ==> h[i].from == Some(h[i - 1].to) && LegalMove(h[i]))
      && Replay(Birth(h[0].action.priority), h[1..]) == ViewOf(p)
      && p.status == h[|h| - 1].to && p.revision == 1 + Replans(h)
  {
    var t := Reached(calls);
    var h := t.history[id];
    assert HistoryOk(t, id);
    var rows := h[1..];
    FitsChain(Birth(h[0].action.priority), rows);
    FitsMoves(Birth(h[0].action.priority), rows);
    ReplansAfterFirst(h);
    forall i | 0 < i < |h| ensures h[i].from == Some(h[i - 1].to) && LegalMove(h[i]) {
      assert Linked(Queued, rows, i - 1) && LegalMove(rows[i - 1]);
    }
  }

  lemma {:induction false} ReplansAfterFirst(h: seq<HistoryRow>)
    requires |h| > 0 && !h[0].action.Replanned?
    ensures Replans(h) == Replans(h[1..])
  {
    if |h| == 1 {
      assert h[..|h| - 1] == [] && h[1..] == [];
    } else {
      ReplansAfterFirst(h[..|h| - 1]);
      assert h[..|h| - 1][1..] == h[1..][..|h[1..]| - 1];
    }
  }

  /** The rows logged between two moments replay the whole change between them, dependencies included. */
  lemma AuditLogExplainsChange(calls: seq<Call>, more: seq<Call>, id: int) returns (rows: seq<HistoryRow>)
    requires id in Reached(calls).plans
    ensures var s := Reached(calls); var t := Run(s, more);
      && id in t.plans && t.history[id] == s.history[id] + rows
      && Replay(ViewOf(s.plans[id]), rows) == ViewOf(t.plans[id])
      && ReplayDeps(s.deps[id], rows) == t.deps[id]
  {
    RunFollows(Reached(calls), more);
    assert PlanLater(Reached(calls), Run(Reached(calls), more), id);
    rows :| Logged(Reached(calls), Run(Reached(calls), more), id, rows);
  }

  // Permanence

  /** Completed and cancelled are never left, and an integration freezes objective, criteria, tasks and revision. */
  lemma EndingsAndIntegrationsLast(s: Store, more: seq<Call>, id: int)
    requires Valid(s) && id in s.plans
    ensures var t := Run(s, more);
      && id in t.plans
      && (Terminal(s.plans[id].status) ==> t.plans[id].status == s.plans[id].status)
      && (id in s.integrations ==>
          id in t.integrations && t.integrations[id] == s.integrations[id] && Frozen(s, t, id))
  {
    RunFollows(s, more);
    assert PlanLater(s, Run(s, more), id);
  }

  lemma RunFrom(s: Store, c: Call, more: seq<Call>)
    requires Valid(s)
    ensures Valid(Apply(s, c).store) && Run(s, [c] + more) == Run(Apply(s, c).store, more)
  {
    ApplyFollows(s, c);
    assert ([c] + more)[1..] == more;
  }

  lemma IntegrationWritten(s: Store, r: IntegrationRequest)
    requires Shaped(s) && Integrate(s, r).outcome.Done?
    ensures var u := Apply(s, CreateIntegration(r)).store;
      && r.plan in u.plans && r.plan in u.integrations && u.plans == s.plans
      && u.integrations[r.plan] == Integration(r.project, r.planRevision, r.branch, r.worktree)
      && u.plans[r.plan].project == r.project
  {
  }

  /** Once integrated, asking again with the same data returns the row, and anything else is rejected. */
  lemma IntegrationIsIdempotent(s: Store, r: IntegrationRequest, more: seq<Call>, again: IntegrationRequest)
    requires Valid(s) && Integrate(s, r).outcome.Done? && again.plan == r.plan
    ensures var t := Run(s, [CreateIntegration(r)] + more);
      && Integrate(t, again).store == t
      && (Integrate(t, again).outcome == Done(r.plan, false) <==>
          again.project == r.project && again.planRevision == r.planRevision
          && again.branch == r.branch && again.worktree == r.worktree)
  {
    hide Shaped, Apply, TaskListOk, EdgesOk, HistoryOk, Run;
    RunFrom(s, CreateIntegration(r), more);
    IntegrationWritten(s, r);
    var u := Apply(s, CreateIntegration(r)).store;
    EndingsAndIntegrationsLast(u, more, r.plan);
    ProjectLasts(u, more, r.plan);
  }

  lemma ProjectLasts(s: Store, more: seq<Call>, id: int)
    requires Valid(s) && id in s.plans
    ensures id in Run(s, more).plans && Run(s, more).plans[id].project == s.plans[id].project
  {
    RunFollows(s, more);
    assert PlanLater(s, Run(s, more), id);
  }

  /**
   The checkpoint's revision agrees with the plan's for ever if it did when the checkpoint was
   written, and never otherwise.
   */
  lemma CheckpointRevisionAgreement(s: Store, r: IntegrationRequest, more: seq<Call>)
    requires Valid(s) && Integrate(s, r).outcome == Done(r.plan, true)
    ensures var t := Run(s, [CreateIntegration(r)] + more);
      && r.plan in t.plans && r.plan in t.integrations
      && (t.integrations[r.plan].planRevision == t.plans[r.plan].revision
          <==> r.planRevision == s.plans[r.plan].revision)
  {
    RunFrom(s, CreateIntegration(r), more);
    IntegrationWritten(s, r);
    EndingsAndIntegrationsLast(Apply(s, CreateIntegration(r)).store, more, r.plan);
  }

  lemma CompletedLastsAfter(s: Store, c: Call, t: Store, more: seq<Call>, id: int)
    requires Valid(s) && t == Apply(s, c).store && id in t.plans && t.plans[id].status == Completed
    ensures id in Run(s, [c] + more).plans && Run(s, [c] + more).plans[id].status == Completed
  {
    RunFrom(s, c, more);
    EndingsAndIntegrationsLast(t, more, id);
  }

  /** An admission that writes is the plain transition on the tables its evaluation left. */
  lemma AdmitIsTransition(s: Store, id: int)
    requires Shaped(s) && Admit(s, id).outcome == Done(id, true)
    ensures id in s.plans && Judge(s, id).Eligible?
    ensures var t := ReconcileSet(s, Touched(s, id));
      Admit(s, id).store == Log(t, id, t.plans[id].(status := Admitted), StatusChanged)
  {
    EligibleLeavesFreeProject(s, id);
  }

  lemma AdmittedWithEvidence(s: Store, id: int, d: int)
    requires Shaped(s) && Admit(s, id).outcome == Done(id, true) && Edge(s.deps, id, d)
    ensures var t := Admit(s, id).store; d in t.plans && t.plans[d].status == Completed
  {
    AdmitIsTransition(s, id);
    EligibleLeavesFreeProject(s, id);
    var t := ReconcileSet(s, Touched(s, id));
    assert Edge(t.deps, id, d);
  }

  lemma EvidenceHolds(s: Store, c: Call, id: int, d: int)
    requires Shaped(s) && c == AdmitPlan(id) && Apply(s, c).outcome == Done(id, true) && Edge(s.deps, id, d)
    ensures d in Apply(s, c).store.plans && Apply(s, c).store.plans[d].status == Completed
  {
    hide Admit, Edge, Shaped;
    assert Apply(s, c) == Admit(s, id);
    hide Apply;
    AdmittedWithEvidence(s, id, d);
  }

  /** Every dependency a plan had when it was admitted was completed then, and is completed ever after. */
  lemma AdmissionEvidenceIsPermanent(s: Store, c: Call, id: int, more: seq<Call>, d: int)
    requires Valid(s) && c == AdmitPlan(id) && Apply(s, c).outcome == Done(id, true) && Edge(s.deps, id, d)
    ensures d in Run(s, [c] + more).plans && Run(s, [c] + more).plans[d].status == Completed
  {
    EvidenceHolds(s, c, id, d);
    CompletedLastsAfter(s, c, Apply(s, c).store, more, d);
  }

  lemma CancelledStaysUnfinished(t: Store, id: int, on: int)
    requires Shaped(t) && on in t.plans && t.plans[on].status == Cancelled && Edge(t.deps, id, on)
    ensures id in t.plans && !Judge(t, id).Eligible?
  {
    SettledShape(t, t.plans.Keys);
    var all := ReconcileAll(t);
    assert Edge(all.deps, id, on) && all.plans[on].status == Cancelled;
    VerdictIsTheRule(all, id);
  }

  lemma IneligibleIsNotAdmitted(t: Store, id: int)
    requires Shaped(t) && id in t.plans && !Judge(t, id).Eligible?
    ensures Evaluate(t, id).outcome != Judged(Eligible) && Admit(t, id).outcome != Done(id, true)
  {
    hide Judge, Touched, ReconcileSet;
  }

  /**
   A dependency on a cancelled plan is never satisfied: as long as the edge stays, in no later state
   is the plan judged eligible, let alone admitted.
   */
  lemma CancelledDependencyBlocks(s: Store, id: int, on: int, more: seq<Call>)
    requires Valid(s) && on in s.plans && s.plans[on].status == Cancelled
    requires Edge(Run(s, more).deps, id, on)
    ensures var t := Run(s, more);
      && id in t.plans && !Judge(t, id).Eligible?
      && Evaluate(t, id).outcome != Judged(Eligible) && Admit(t, id).outcome != Done(id, true)
  {
    var t := Run(s, more);
    assert Shaped(t);
    hide Run, Valid, Shaped, Judge, Evaluate, Admit, Edge;
    EndingsAndIntegrationsLast(s, more, on);
    CancelledStaysUnfinished(t, id, on);
    IneligibleIsNotAdmitted(t, id);
  }

  // Task ownership and task lists

  /** No task ever belongs to two plans that are neither completed nor cancelled. */
  lemma TasksHaveOneOwner(calls: seq<Call>, p: int, q: int, task: int)
    requires Open(Reached(calls), p) && HasTask(Reached(calls), p, task)
    requires Open(Reached(calls), q) && HasTask(Reached(calls), q, task)
    ensures p == q && task in Reached(calls).tasks
    ensures Reached(calls).tasks[task] == Some(Reached(calls).plans[p].project)
  {
    assert TaskListOk(Reached(calls), p);
  }

  predicate Ascending(rows: seq<TaskRow>) {
    forall i :: 0 < i < |rows| ==> rows[i - 1].position <= rows[i].position
  }

  lemma Inserted(rows: seq<TaskRow>, last: TaskRow)
    requires rows == [] || rows[|rows| - 1].position <= last.position
    ensures InsertByPosition(rows, last) == rows + [last]
  {
  }

  lemma LastInserted(rows: seq<TaskRow>)
    requires rows != []
    ensures ListTasks(rows) == InsertByPosition(ListTasks(rows[..|rows| - 1]), rows[|rows| - 1])
  {
  }

  lemma SplitLast(rows: seq<TaskRow>)
    requires rows != []
    ensures rows[..|rows| - 1] + [rows[|rows| - 1]] == rows
  {
  }

  lemma {:induction false} AscendingIsListed(rows: seq<TaskRow>)
    requires Ascending(rows)
    ensures ListTasks(rows) == rows
  {
    if rows != [] {
      var n := |rows| - 1;
      AscendingIsListed(rows[..n]);
      LastInserted(rows);
      hide ListTasks, InsertByPosition;
      Inserted(rows[..n], rows[n]);
      SplitLast(rows);
    }
  }

  /** Sorting rows that are numbered in order changes nothing. */
  lemma NumberedIsListed(rows: seq<TaskRow>)
    requires Numbered(rows)
    ensures ListTasks(rows) == rows
  {
    AscendingIsListed(rows);
  }

  /** What a creation or a replan asks a plan to say. */
  datatype Content = Content(objective: string, criteria: seq<string>, tasks: seq<TaskChoice>)

  const NOTHING := Content("", [], [])

  ghost predicate Says(s: Store, id: int, c: Content) {
    && id in s.plans && s.plans[id].objective == c.objective && s.plans[id].criteria == c.criteria
    && id in s.taskRows && s.taskRows[id] == RowsFor(c.tasks)
  }

  /** What was asked for by the last applied creation or replan of plan `id` in a run. */
  ghost function Requested(s: Store, calls: seq<Call>, id: int, sofar: Content): Content
    requires Valid(s)
    decreases |calls|
  {
    if calls == [] then sofar
    else
      ApplyFollows(s, calls[0]);
      var step := Apply(s, calls[0]);
      Requested(step.store, calls[1..], id, RequestedBy(calls[0], step.outcome, id, sofar))
  }

  ghost function RequestedBy(c: Call, outcome: Outcome, id: int, sofar: Content): Content {
    if outcome != Done(id, true) then sofar
    else
      match c
      case CreatePlan(r) => Content(r.objective, Criteria(r.criteria), r.tasks)
      case ReplanPlan(r) => Content(r.objective, Criteria(r.criteria), r.tasks)
      case _ => sofar
  }

  predicate SameTexts(p: Plan, q: Plan) {
    p.objective == q.objective && p.criteria == q.criteria
  }

  /** No plan appears, and every plan says what it said. */
  ghost predicate SameContents(s: Store, t: Store) {
    t.taskRows == s.taskRows && forall id :: id in t.plans ==> id in s.plans && SameTexts(s.plans[id], t.plans[id])
  }

  lemma SameAgain(s: Store, t: Store, u: Store)
    requires SameContents(s, t) && SameContents(t, u)
    ensures SameContents(s, u)
  {
  }

  lemma ReconcilingKeepsContents(s: Store, id: int, ids: set<int>)
    requires Aligned(s)
    ensures SameContents(s, Reconcile(s, id)) && SameContents(s, ReconcileSet(s, ids))
  {
    hide Apply;
  }

  lemma WriteKeepsContents(s: Store, id: int, q: Plan, action: Action)
    requires Aligned(s) && id in s.plans && SameTexts(s.plans[id], q)
    ensures SameContents(s, Write(s, id, q, action).store)
  {
    var t := Log(s, id, q, action);
    assert SameContents(s, t);
    ReconcilingKeepsContents(t, id, {});
    SameAgain(s, t, Reconcile(t, id));
  }

  lemma TransitionContents(s: Store, id: int, to: Status)
    requires Aligned(s)
    ensures SameContents(s, Transition(s, id, to).store)
  {
    hide Reconcile, ReconcileSet;
    ReconcilingKeepsContents(s, id, {});
    if id in s.plans {
      WriteKeepsContents(s, id, s.plans[id].(status := to), StatusChanged);
    }
  }

  lemma AdmitContents(s: Store, id: int)
    requires Shaped(s)
    ensures SameContents(s, Admit(s, id).store) && SameContents(s, Evaluate(s, id).store)
  {
    hide ReconcileSet, Reconcile;
    ReconcilingKeepsContents(s, id, {});
    if id in s.plans {
      SettledShape(s, Touched(s, id));
      ReconcilingKeepsContents(s, id, Touched(s, id));
      var t := ReconcileSet(s, Touched(s, id));
      TransitionContents(t, id, Admitted);
      SameAgain(s, t, Transition(t, id, Admitted).store);
    }
  }

  lemma DependContents(s: Store, id: int, on: int)
    requires Shaped(s)
    ensures SameContents(s, Depend(s, id, on).store)
  {
    hide Log;
    if id in s.plans {
      RelinkedContents(s, id, s.deps[id] + [on], DependencyAdded(on));
    }
  }

  lemma UndependContents(s: Store, id: int, on: int)
    requires Shaped(s)
    ensures SameContents(s, Undepend(s, id, on).store)
  {
    if id in s.plans {
      RelinkedContents(s, id, Keep(s.deps[id], d => d != on), DependencyRemoved(on));
    }
  }

  lemma RelinkedContents(s: Store, id: int, ds: seq<int>, action: Action)
    requires Aligned(s) && id in s.plans
    ensures SameContents(s, Reconcile(Relinked(s, id, ds, action), id))
  {
    var t := Relinked(s, id, ds, action);
    assert SameContents(s, t);
    ReconcilingKeepsContents(t, id, {});
    SameAgain(s, t, Reconcile(t, id));
  }

  lemma PauseContents(s: Store, id: int)
    requires Aligned(s)
    ensures SameContents(s, Pause(s, id).store) && SameContents(s, Resume(s, id).store)
  {
    ReconcilingKeepsContents(s, id, {});
    if id in s.plans {
      WriteKeepsContents(s, id, s.plans[id].(paused := true), Paused);
      WriteKeepsContents(s, id, s.plans[id].(paused := false), Resumed);
    }
  }

  lemma PriorityContents(s: Store, id: int, priority: int)
    requires Aligned(s)
    ensures SameContents(s, Prioritize(s, id, priority).store)
  {
    ReconcilingKeepsContents(s, id, {});
    if id in s.plans {
      WriteKeepsContents(s, id, s.plans[id].(priority := priority), PrioritySet(s.plans[id].priority, priority));
    }
  }

  lemma EndContents(s: Store, id: int)
    requires Aligned(s)
    ensures SameContents(s, Complete(s, id).store) && SameContents(s, Cancel(s, id).store)
  {
    ReconcilingKeepsContents(s, id, {});
    if id in s.plans {
      WriteKeepsContents(s, id, s.plans[id].(status := Completed), ReconciledAfterFeatureMerge);
      WriteKeepsContents(s, id, s.plans[id].(status := Cancelled), CancelRequested);
    }
  }

  lemma SurroundingContents(s: Store, c: Call)
    requires Shaped(s)
    requires c.RegisterProject? || c.CreateTask? || c.DeleteTask? || c.SetFeatureMerged? || c.CreateIntegration?
    ensures var t := Apply(s, c).store; t.plans == s.plans && t.taskRows == s.taskRows && t.history == s.history
  {
    hide Shaped, ReconcileSet;
  }

  /** Only creations and replans change what plans say. */
  lemma ContentsKept(s: Store, c: Call)
    requires Shaped(s) && !c.CreatePlan? && !c.ReplanPlan?
    ensures SameContents(s, Apply(s, c).store)
  {
    hide OccupiedOther;
    match c
    case ReadPlans(ids) => ReconcilingKeepsContents(s, 0, ids);
    case AdmitPlan(id) => AdmitContents(s, id);
    case EvaluateEligibility(id) => AdmitContents(s, id);
    case AddDependency(id, on) => DependContents(s, id, on);
    case RemoveDependency(id, on) => UndependContents(s, id, on);
    case SetStatus(id, to) => TransitionContents(s, id, to);
    case SetPriority(id, priority) => PriorityContents(s, id, priority);
    case PausePlan(id) => PauseContents(s, id);
    case ResumePlan(id) => PauseContents(s, id);
    case CompleteAfterMerge(id) => EndContents(s, id);
    case CancelPlan(id) => EndContents(s, id);
    case _ => SurroundingContents(s, c);
  }

  /** Plan `id` says `c` now, and the other plans say what they said. */
  ghost predicate SaysNow(s: Store, t: Store, id: int, c: Content) {
    && Says(t, id, c)
    && (forall x :: x in t.plans && x != id ==> x in s.plans && SameTexts(s.plans[x], t.plans[x]))
    && (forall x :: x in t.taskRows && x != id ==> x in s.taskRows && s.taskRows[x] == t.taskRows[x])
  }

  /** The plans' contents after a creation or replan: rewritten for one plan, or as before. */
  ghost predicate Rewrites(s: Store, step: Step, id: int, c: Content) {
    if step.outcome == Done(id, true) then SaysNow(s, step.store, id, c)
    else SameContents(s, step.store) && (step.outcome.Done? ==> !step.outcome.applied)
  }

  /** A creation adds its plan, reads a plan, or fails. */
  lemma CreateCases(s: Store, r: CreateRequest)
    requires Shaped(s)
    ensures var step := Create(s, r);
      || (step.outcome.Failed? && step.store == s)
      || (r.key in s.operations && step == Read(s, s.operations[r.key].plan))
      || (r.projectKey in s.projects
          && var p := Plan(s.projects[r.projectKey], r.objective, Criteria(r.criteria), Queued, r.priority, false, 1);
             var payload := CreatePayloadOf(s.projects[r.projectKey], r);
             var t := WithNewPlan(s, p, r.tasks, Dedup(r.dependsOn));
             step == Step(Remember(t, r.key, Operation(s.nextPlan, payload)), Done(s.nextPlan, true)))
  {
  }

  lemma NewPlanSays(s: Store, p: Plan, tasks: seq<TaskChoice>, ds: seq<int>, key: string, op: Operation)
    requires Shaped(s)
    ensures var t := Remember(WithNewPlan(s, p, tasks, ds), key, op);
      SaysNow(s, t, s.nextPlan, Content(p.objective, p.criteria, tasks))
  {
  }

  lemma CreateContents(s: Store, r: CreateRequest)
    requires Shaped(s)
    ensures Rewrites(s, Create(s, r), s.nextPlan, Content(r.objective, Criteria(r.criteria), r.tasks))
  {
    CreateCases(s, r);
    if r.key in s.operations {
      ReconcilingKeepsContents(s, s.operations[r.key].plan, {});
    }
    if r.projectKey in s.projects {
      var p := Plan(s.projects[r.projectKey], r.objective, Criteria(r.criteria), Queued, r.priority, false, 1);
      var op := Operation(s.nextPlan, CreatePayloadOf(s.projects[r.projectKey], r));
      NewPlanSays(s, p, r.tasks, Dedup(r.dependsOn), r.key, op);
    }
  }

  lemma CreateSays(s: Store, c: Call, id: int, sofar: Content)
    requires Shaped(s) && c.CreatePlan? && (id in s.plans ==> Says(s, id, sofar))
    ensures var step := Apply(s, c); id in step.store.plans ==>
        Says(step.store, id, RequestedBy(c, step.outcome, id, sofar))
  {
    CreateContents(s, c.create);
  }

  lemma RetaskedSays(s: Store, r: ReplanRequest, op: Operation)
    requires Aligned(s) && r.plan in s.plans && s.taskRows.Keys == s.plans.Keys
    ensures SaysNow(s, Reconcile(Remember(Retasked(s, r), r.key, op), r.plan), r.plan,
                    Content(r.objective, Criteria(r.criteria), r.tasks))
  {
  }

  /** A replan rewrites its plan, reads a plan, or fails. */
  lemma ReplanCases(s: Store, r: ReplanRequest)
    requires Shaped(s)
    ensures var step := Replan(s, r);
      || (step.outcome.Failed? && step.store == s)
      || (r.key in s.operations && step == Read(s, s.operations[r.key].plan))
      || (r.plan in s.plans
          && var t := Remember(Retasked(s, r), r.key, Operation(r.plan, ReplanPayloadOf(r)));
             step == Step(Reconcile(t, r.plan), Done(r.plan, true)))
  {
  }

  lemma ReplanContents(s: Store, r: ReplanRequest)
    requires Shaped(s)
    ensures Rewrites(s, Replan(s, r), r.plan, Content(r.objective, Criteria(r.criteria), r.tasks))
  {
    ReplanCases(s, r);
    if r.plan in s.plans {
      RetaskedSays(s, r, Operation(r.plan, ReplanPayloadOf(r)));
    }
    if r.key in s.operations {
      ReconcilingKeepsContents(s, s.operations[r.key].plan, {});
    }
  }

  lemma ReplanSays(s: Store, c: Call, id: int, sofar: Content)
    requires Shaped(s) && c.ReplanPlan? && (id in s.plans ==> Says(s, id, sofar))
    ensures var step := Apply(s, c); id in step.store.plans ==>
        Says(step.store, id, RequestedBy(c, step.outcome, id, sofar))
  {
    hide Shaped, ReconcileSet;
    ReplanContents(s, c.replan);
  }

  lemma StepSays(s: Store, c: Call, id: int, sofar: Content)
    requires Shaped(s) && (id in s.plans ==> Says(s, id, sofar))
    ensures var step := Apply(s, c); id in step.store.plans ==>
        Says(step.store, id, RequestedBy(c, step.outcome, id, sofar))
  {
    if c.CreatePlan? {
      CreateSays(s, c, id, sofar);
    } else if c.ReplanPlan? {
      ReplanSays(s, c, id, sofar);
    } else {
      ContentsKept(s, c);
    }
  }

  lemma {:induction false} RunSays(s: Store, calls: seq<Call>, id: int, sofar: Content)
    requires Valid(s) && (id in s.plans ==> Says(s, id, sofar))
    ensures id in Run(s, calls).plans ==> Says(Run(s, calls), id, Requested(s, calls, id, sofar))
    decreases |calls|
  {
    if calls != [] {
      ApplyFollows(s, calls[0]);
      StepSays(s, calls[0], id, sofar);
      var step := Apply(s, calls[0]);
      RunSays(step.store, calls[1..], id, RequestedBy(calls[0], step.outcome, id, sofar));
    }
  }

  /**
   A plan says what its last applied creation or replan asked for: its objective, its criteria, and
   its tasks, which are listed in requested order and numbered from 1.
   */
  lemma PlanSaysLastRequest(calls: seq<Call>, id: int)
    requires id in Reached(calls).plans
    ensures Valid(EMPTY)
    ensures var t, asked := Reached(calls), Requested(EMPTY, calls, id, NOTHING);
      && t.plans[id].objective == asked.objective && t.plans[id].criteria == asked.criteria
      && ListTasks(t.taskRows[id]) == RowsFor(asked.tasks)
  {
    EmptyIsValid();
    RunSays(EMPTY, calls, id, NOTHING);
    assert TaskListOk(Reached(calls), id);
    NumberedIsListed(Reached(calls).taskRows[id]);
  }

  // Creation and log

  lemma CreatedRows(s: Store, c: Call, id: int)
    requires Shaped(s) && c.CreatePlan? && Apply(s, c).outcome == Done(id, true)
    ensures var u := Apply(s, c).store;
      && id == s.nextPlan && id in u.plans && id in u.deps && id in u.history
      && u.deps[id] == Dedup(c.create.dependsOn)
      && u.history[id] == [HistoryRow(None, Queued, Created(c.create.priority))]
      && ViewOf(u.plans[id]) == Birth(c.create.priority)
  {
  }

  /**
   The whole story of a plan: at any later time its dependencies, status, pause flag, priority and
   revision are those it was created with, changed by exactly what its audit log says since.
   */
  lemma CreationAndLogTellAll(s: Store, c: Call, id: int, more: seq<Call>)
    requires Valid(s) && c.CreatePlan? && Apply(s, c).outcome == Done(id, true)
    ensures var t := Run(s, [c] + more);
      && id in t.plans && id in t.history && id in t.deps && |t.history[id]| > 0
      && t.history[id][0] == HistoryRow(None, Queued, Created(c.create.priority))
      && t.deps[id] == ReplayDeps(Dedup(c.create.dependsOn), t.history[id][1..])
      && ViewOf(t.plans[id]) == Replay(Birth(c.create.priority), t.history[id][1..])
  {
    CreatedRows(s, c, id);
    RunFrom(s, c, more);
    var u, t := Apply(s, c).store, Run(s, [c] + more);
    RunFollows(u, more);
    assert PlanLater(u, t, id);
    var rows :| Logged(u, t, id, rows);
    assert t.history[id][1..] == rows;
  }
}
