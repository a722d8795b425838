/**
 Exactly when the queue accepts a call, and what it has changed when it returns, said in terms of the
 tables before and after.
 */
module PlanEffects {
  import opened Basics
  import opened DependencyGraph
  import opened PlanTables
  import opened PlanSpec
  import opened PlanInvariants
  import opened PlanEligibility

  /** The status in which a read finds a plan that was left in `status`: completed, once its Feature is merged. */
  function Seen(s: Store, id: int, status: Status): Status {
    if id in s.merged && status !in {Completed, Cancelled} then Completed else status
  }

  predicate Keyed(s: Store) {
    s.deps.Keys == s.plans.Keys && s.taskRows.Keys == s.plans.Keys && s.history.Keys == s.plans.Keys
  }

  /** The tables differ in what they say about one plan, if at all. */
  ghost predicate OnlyPlan(s: Store, t: Store, id: int) {
    && Keyed(s) && Keyed(t) && t.plans.Keys == s.plans.Keys
    && (forall j :: j in s.plans && j != id ==>
          t.plans[j] == s.plans[j] && t.deps[j] == s.deps[j] && t.taskRows[j] == s.taskRows[j])
    && t.projects == s.projects && t.tasks == s.tasks && t.integrations == s.integrations && t.merged == s.merged
  }

  lemma ReadEffect(s: Store, id: int)
    requires Keyed(s) && id in s.plans
    ensures var t := Read(s, id).store;
      OnlyPlan(s, t, id) && t.deps == s.deps && t.plans[id] == s.plans[id].(status := Seen(s, id, s.plans[id].status))
  {
  }

  lemma WriteEffect(s: Store, id: int, q: Plan, action: Action)
    requires Keyed(s) && id in s.plans
    ensures var t := Write(s, id, q, action).store;
      OnlyPlan(s, t, id) && t.deps == s.deps && t.plans[id] == q.(status := Seen(s, id, q.status))
  {
  }

  lemma RelinkEffect(s: Store, id: int, ds: seq<int>, action: Action)
    requires Keyed(s) && id in s.plans
    ensures var t := Reconcile(Relinked(s, id, ds, action), id);
      && OnlyPlan(s, t, id) && t.deps == s.deps[id := ds]
      && t.plans[id] == s.plans[id].(status := Seen(s, id, s.plans[id].status))
  {
    var linked := s.(deps := s.deps[id := ds]);
    var t := Reconcile(Relinked(s, id, ds, action), id);
    assert t == Write(linked, id, s.plans[id], action).store;
    hide Reconcile, Relinked, Write, Seen;
    WriteEffect(linked, id, s.plans[id], action);
    assert Seen(linked, id, s.plans[id].status) == Seen(s, id, s.plans[id].status) by {
      SeenDependsOnMerges(s, linked, id);
    }
  }

  lemma SeenDependsOnMerges(s: Store, t: Store, id: int)
    requires s.merged == t.merged
    ensures forall status :: Seen(s, id, status) == Seen(t, id, status)
  {
  }

  lemma EndsAreSeen(s: Store, id: int)
    ensures Seen(s, id, Completed) == Completed && Seen(s, id, Cancelled) == Cancelled
  {
  }

  lemma ShapedIsKeyed(s: Store)
    requires Shaped(s)
    ensures Keyed(s)
  {
  }

  // Pausing, resuming, priority

  lemma PauseEffect(s: Store, id: int)
    requires Shaped(s)
    ensures var step := Apply(s, PausePlan(id)); var t := step.store;
      if id in s.plans && (s.plans[id].paused || s.plans[id].status !in {Completed, Cancelled})
      then
        && step.outcome == Done(id, !s.plans[id].paused) && OnlyPlan(s, t, id)
        && t.plans[id] == s.plans[id].(paused := true, status := Seen(s, id, s.plans[id].status))
      else step.outcome.Failed? && t == s
  {
    ShapedIsKeyed(s);
    hide Shaped, OnlyPlan, Read, Write, Reconcile, Relinked, Seen;
    assert Apply(s, PausePlan(id)) == Pause(s, id);
    hide Apply;
    if id in s.plans {
      ReadEffect(s, id);
      WriteEffect(s, id, s.plans[id].(paused := true), Paused);
    }
  }

  lemma ResumeEffect(s: Store, id: int)
    requires Shaped(s)
    ensures var step := Apply(s, ResumePlan(id)); var t := step.store;
      if id in s.plans
      then
        && step.outcome == Done(id, s.plans[id].paused) && OnlyPlan(s, t, id)
        && t.plans[id] == s.plans[id].(paused := false, status := Seen(s, id, s.plans[id].status))
      else step.outcome.Failed? && t == s
  {
    ShapedIsKeyed(s);
    hide Shaped, OnlyPlan, Read, Write, Reconcile, Relinked, Seen;
    assert Apply(s, ResumePlan(id)) == Resume(s, id);
    hide Apply;
    if id in s.plans {
      ReadEffect(s, id);
      WriteEffect(s, id, s.plans[id].(paused := false), Resumed);
    }
  }

  lemma PriorityEffect(s: Store, id: int, priority: int)
    requires Shaped(s)
    ensures var step := Apply(s, SetPriority(id, priority)); var t := step.store;
      if id in s.plans
      then
        && step.outcome == Done(id, s.plans[id].priority != priority) && OnlyPlan(s, t, id)
        && t.plans[id] == s.plans[id].(priority := priority, status := Seen(s, id, s.plans[id].status))
      else step.outcome.Failed? && t == s
  {
    ShapedIsKeyed(s);
    hide Shaped, OnlyPlan, Read, Write, Reconcile, Relinked, Seen;
    assert Apply(s, SetPriority(id, priority)) == Prioritize(s, id, priority);
    hide Apply;
    if id in s.plans {
      ReadEffect(s, id);
      WriteEffect(s, id, s.plans[id].(priority := priority), PrioritySet(s.plans[id].priority, priority));
    }
  }

  // Statuses

  lemma StatusEffect(s: Store, id: int, to: Status)
    requires Shaped(s)
    ensures var step := Apply(s, SetStatus(id, to)); var t := step.store;
      if id in s.plans && (s.plans[id].status == to || MayMove(s.plans[id].status, to))
      then
        && step.outcome == Done(id, s.plans[id].status != to) && OnlyPlan(s, t, id)
        && t.plans[id] == s.plans[id].(status := Seen(s, id, to))
      else step.outcome.Failed? && t == s
  {
    ShapedIsKeyed(s);
    hide Shaped, OnlyPlan, Read, Write, Reconcile, Relinked, Seen;
    assert Apply(s, SetStatus(id, to)) == Transition(s, id, to);
    hide Apply;
    if id in s.plans {
      ReadEffect(s, id);
      AllowedIsMayMove(s.plans[id].status, to);
      hide MayMove, AllowedTransition;
      WriteEffect(s, id, s.plans[id].(status := to), StatusChanged);
    }
  }

  lemma CompleteEffect(s: Store, id: int)
    requires Shaped(s)
    ensures var step := Apply(s, CompleteAfterMerge(id)); var t := step.store;
      if id in s.plans && s.plans[id].status != Cancelled
      then
        && step.outcome == Done(id, s.plans[id].status != Completed) && OnlyPlan(s, t, id)
        && t.plans[id] == s.plans[id].(status := Completed)
      else step.outcome.Failed? && t == s
  {
    ShapedIsKeyed(s);
    hide Shaped, OnlyPlan, Read, Write, Reconcile, Relinked, Seen;
    assert Apply(s, CompleteAfterMerge(id)) == Complete(s, id);
    hide Apply;
    if id in s.plans {
      ReadEffect(s, id);
      WriteEffect(s, id, s.plans[id].(status := Completed), ReconciledAfterFeatureMerge);
      EndsAreSeen(s, id);
    }
  }

  lemma CancelEffect(s: Store, id: int)
    requires Shaped(s)
    ensures var step := Apply(s, CancelPlan(id)); var t := step.store;
      if id in s.plans
         && (s.plans[id].status == Cancelled || (s.plans[id].status != Completed && id !in s.integrations))
      then
        && step.outcome == Done(id, s.plans[id].status != Cancelled) && OnlyPlan(s, t, id)
        && t.plans[id] == s.plans[id].(status := Cancelled)
      else step.outcome.Failed? && t == s
  {
    ShapedIsKeyed(s);
    hide Shaped, OnlyPlan, Read, Write, Reconcile, Relinked, Seen;
    assert Apply(s, CancelPlan(id)) == Cancel(s, id);
    hide Apply;
    if id in s.plans {
      ReadEffect(s, id);
      WriteEffect(s, id, s.plans[id].(status := Cancelled), CancelRequested);
      EndsAreSeen(s, id);
    }
  }

  /** Only an eligible plan is admitted; one that is being worked on, or completed, is read. */
  lemma AdmitEffect(s: Store, id: int)
    requires Shaped(s)
    ensures var step := Apply(s, AdmitPlan(id)); var t := step.store;
      && (step.outcome == Done(id, true) <==>
            id in s.plans && s.plans[id].status == Queued && Judge(s, id).Eligible?)
      && (step.outcome == Done(id, true) ==> id in t.plans && t.plans[id] == s.plans[id].(status := Admitted))
      && (step.outcome == Done(id, false) <==>
            id in s.plans && s.plans[id].status in {Admitted, Active, WaitingReview, WaitingMerge, Completed})
  {
    hide Shaped, Judge, Touched, ReconcileSet, Log, Write, Reconcile;
    assert Apply(s, AdmitPlan(id)) == Admit(s, id);
    hide Apply;
    if id in s.plans && Judge(s, id).Eligible? {
      EligibleIsWritten(s, id);
    }
  }

  lemma EligibleIsWritten(s: Store, id: int)
    requires Shaped(s) && id in s.plans && Judge(s, id).Eligible?
    ensures s.plans[id].status == Queued
    ensures var step := Transition(ReconcileSet(s, Touched(s, id)), id, Admitted);
      step.outcome == Done(id, true) && id in step.store.plans
      && step.store.plans[id] == s.plans[id].(status := Admitted)
  {
    EligibleStaysQueued(s, id);
    hide Judge, Touched, ReconcileSet, Shaped;
  }

  lemma EligibleStaysQueued(s: Store, id: int)
    requires Shaped(s) && id in s.plans && Judge(s, id).Eligible?
    ensures s.plans[id].status == Queued && !Mergeable(s, id)
    ensures var t := ReconcileSet(s, Touched(s, id));
      id in t.plans && t.plans[id] == s.plans[id] && !Mergeable(t, id)
  {
    EligibleLeavesFreeProject(s, id);
    hide Judge, Touched, Shaped;
  }

  // Evaluations

  /** The plan row as a read leaves it. */
  function Noticed(s: Store, j: int): Plan
    requires j in s.plans
  {
    s.plans[j].(status := Seen(s, j, s.plans[j].status))
  }

  /** A read of these plans notices their merges, and changes nothing else. */
  lemma ReadsEffect(s: Store, ids: set<int>)
    requires Shaped(s)
    ensures var t := Apply(s, ReadPlans(ids)).store;
      && t.plans.Keys == s.plans.Keys && t == s.(plans := t.plans, history := t.history)
      && forall j :: j in s.plans ==>
           t.plans[j] == if j in ids then Noticed(s, j) else s.plans[j]
  {
    assert Apply(s, ReadPlans(ids)).store == ReconcileSet(s, ids);
    hide Apply;
  }

  /** The plan is found queued and not paused. */
  predicate FoundReady(s: Store, id: int) {
    id in s.plans && Seen(s, id, s.plans[id].status) == Queued && !s.plans[id].paused
  }

  /** All its dependencies are found completed. */
  ghost predicate FoundDone(s: Store, id: int) {
    forall d :: Edge(s.deps, id, d) && d in s.plans ==> Seen(s, d, s.plans[d].status) == Completed
  }

  /**
   What an evaluation looks at: the plan; if it is ready its dependencies; and if they are done the
   plans of its project that are worked on, lowest first, up to and including the first that stays so.
   */
  ghost predicate LookedAt(s: Store, id: int, j: int) {
    || j == id
    || (FoundReady(s, id) && Edge(s.deps, id, j))
    || (FoundReady(s, id) && FoundDone(s, id) && WorkedOnBeside(s, id, j)
        && forall k :: k < j && WorkedOnBeside(s, id, k) ==> k in s.merged)
  }

  /** What a read of some plans finds. */
  lemma FoundBy(s: Store, ids: set<int>, j: int)
    requires Aligned(s) && j in s.plans
    ensures var t := ReconcileSet(s, ids);
      && j in t.plans && t.plans[j] == s.plans[j].(status := t.plans[j].status)
      && t.plans[j].status == (if j in ids then Seen(s, j, s.plans[j].status) else s.plans[j].status)
      && (Mergeable(t, j) <==> Mergeable(s, j) && j !in ids)
  {
  }

  /** Once the dependencies are done, reading them does not change who holds the project but for merges. */
  lemma BesideAfter(s: Store, id: int, near: set<int>, k: int)
    requires Shaped(s) && id in s.plans && near == {id} + DepSet(s, id) && FoundDone(s, id)
    ensures var t := ReconcileSet(s, near);
      (OccupiedOther(t, id, k) ==> Mergeable(t, k)) <==> (WorkedOnBeside(s, id, k) ==> k in s.merged)
    ensures k in s.plans && k !in near ==>
        (OccupiedOther(ReconcileSet(s, near), id, k) <==> WorkedOnBeside(s, id, k))
  {
    if k in s.plans {
      FoundBy(s, near, k);
      FoundBy(s, near, id);
      assert k in DepSet(s, id) ==> Edge(s.deps, id, k);
      hide ReconcileSet;
    }
  }

  lemma PrefixIsLookedAt(s: Store, id: int, near: set<int>, j: int)
    requires Shaped(s) && id in s.plans && j in s.plans && near == {id} + DepSet(s, id) && FoundDone(s, id)
    requires j !in near
    ensures j in ActivePrefix(ReconcileSet(s, near), id)
      <==> WorkedOnBeside(s, id, j) && forall k :: k < j && WorkedOnBeside(s, id, k) ==> k in s.merged
  {
    var t := ReconcileSet(s, near);
    FoundBy(s, near, j);
    assert t.plans.Keys == s.plans.Keys;
    forall k
      ensures (OccupiedOther(t, id, k) ==> Mergeable(t, k)) <==> (WorkedOnBeside(s, id, k) ==> k in s.merged)
      ensures k in s.plans && k !in near ==> (OccupiedOther(t, id, k) <==> WorkedOnBeside(s, id, k))
    {
      BesideAfter(s, id, near, k);
    }
    hide ReconcileSet, OccupiedOther, WorkedOnBeside, Mergeable, Shaped, FoundDone;
  }

  lemma TouchedIs(s: Store, id: int)
    requires Shaped(s) && id in s.plans
    ensures var near := {id} + DepSet(s, id);
      Touched(s, id) == if !FoundReady(s, id) then {id}
                        else if !FoundDone(s, id) then near
                        else near + ActivePrefix(ReconcileSet(s, near), id)
  {
    var near := {id} + DepSet(s, id);
    FoundBy(s, {id}, id);
    forall d | d in s.deps[id]
      ensures d in s.plans && ReconcileSet(s, near).plans[d].status == Seen(s, d, s.plans[d].status)
    {
      assert Edge(s.deps, id, d);
      FoundBy(s, near, d);
    }
    hide ReconcileSet, Shaped, Seen, ActivePrefix;
    assert forall d :: Edge(s.deps, id, d) <==> d in s.deps[id];
  }

  lemma TouchedIsLookedAt(s: Store, id: int, j: int)
    requires Shaped(s) && id in s.plans && j in s.plans
    ensures j in Touched(s, id) <==> LookedAt(s, id, j)
  {
    var near := {id} + DepSet(s, id);
    TouchedIs(s, id);
    assert j in DepSet(s, id) <==> Edge(s.deps, id, j);
    if j !in near && FoundDone(s, id) {
      PrefixIsLookedAt(s, id, near, j);
    }
    hide Touched, ReconcileSet, Shaped, FoundDone, FoundReady, WorkedOnBeside, DepSet, ActivePrefix;
  }

  /** An evaluation notices the merges of the plans it looks at, and changes nothing else. */
  lemma EvaluationEffect(s: Store, id: int)
    requires Shaped(s)
    ensures var step := Apply(s, EvaluateEligibility(id)); var t := step.store;
      if id in s.plans
      then
        && step.outcome.Judged? && t.plans.Keys == s.plans.Keys && t == s.(plans := t.plans, history := t.history)
        && forall j :: j in s.plans ==>
             t.plans[j] == if LookedAt(s, id, j) then Noticed(s, j) else s.plans[j]
      else step.outcome.Failed? && t == s
  {
    assert Apply(s, EvaluateEligibility(id)) == Evaluate(s, id);
    hide Apply, Judge;
    if id in s.plans {
      assert Evaluate(s, id).store == ReconcileSet(s, Touched(s, id));
      hide Touched;
      forall j | j in s.plans
        ensures j in ReconcileSet(s, Touched(s, id)).plans
        ensures ReconcileSet(s, Touched(s, id)).plans[j]
          == if LookedAt(s, id, j) then Noticed(s, j) else s.plans[j]
      {
        FoundBy(s, Touched(s, id), j);
        TouchedIsLookedAt(s, id, j);
        hide LookedAt, Shaped, ReconcileSet;
      }
      hide LookedAt, Shaped;
    }
  }

  // Dependencies

  /** A dependency is added between two plans of a project, once, where no way leads back. */
  lemma DependencyEffect(s: Store, id: int, on: int)
    requires Shaped(s)
    ensures var step := Apply(s, AddDependency(id, on)); var t := step.store;
      if id != on && id in s.plans && on in s.plans && s.plans[id].project == s.plans[on].project
         && !Edge(s.deps, id, on) && !Reaches(s.deps, on, id)
      then
        && step.outcome == Done(id, true) && OnlyPlan(s, t, id) && t.deps == s.deps[id := s.deps[id] + [on]]
        && t.plans[id] == s.plans[id].(status := Seen(s, id, s.plans[id].status))
      else step.outcome.Failed? && t == s
  {
    ShapedIsKeyed(s);
    hide Shaped, OnlyPlan, Reconcile, Relinked, Seen, Reaches;
    assert Apply(s, AddDependency(id, on)) == Depend(s, id, on);
    hide Apply;
    if id in s.plans {
      RelinkEffect(s, id, s.deps[id] + [on], DependencyAdded(on));
    }
  }

  /** Removing a dependency takes out that edge and no other. */
  lemma IndependenceEffect(s: Store, id: int, on: int)
    requires Shaped(s)
    ensures var step := Apply(s, RemoveDependency(id, on)); var t := step.store;
      if id in s.plans
      then
        && step.outcome == Done(id, true) && OnlyPlan(s, t, id)
        && (forall a, b :: Edge(t.deps, a, b) <==> Edge(s.deps, a, b) && !(a == id && b == on))
        && t.plans[id] == s.plans[id].(status := Seen(s, id, s.plans[id].status))
      else step.outcome.Failed? && t == s
  {
    ShapedIsKeyed(s);
    hide Shaped, OnlyPlan, Reconcile, Relinked, Seen;
    assert Apply(s, RemoveDependency(id, on)) == Undepend(s, id, on);
    hide Apply;
    if id in s.plans {
      RelinkEffect(s, id, Keep(s.deps[id], d => d != on), DependencyRemoved(on));
    }
  }

  // The surroundings

  /** A project is registered once; a task is new and of the project given; a Feature is merged as told. */
  lemma SurroundingsEffect(s: Store, c: Call)
    requires Shaped(s) && (c.RegisterProject? || c.CreateTask? || c.SetFeatureMerged?)
    ensures var step := Apply(s, c); var t := step.store;
      match c
      case RegisterProject(key) =>
        && key in t.projects && step.outcome == Done(t.projects[key], key !in s.projects)
        && t == s.(projects := t.projects, nextProject := t.nextProject) && t.projects - {key} == s.projects - {key}
        && (key in s.projects ==> t == s)
      case CreateTask(project) =>
        && step.outcome == Done(s.nextTask, true) && s.nextTask !in s.tasks
        && t == s.(tasks := s.tasks[s.nextTask := project], nextTask := t.nextTask)
      case SetFeatureMerged(id, merged) =>
        if id in s.plans
        then
          && step.outcome == Done(id, true) && t == s.(merged := t.merged)
          && forall j :: j in t.merged <==> if j == id then merged else j in s.merged
        else step.outcome.Failed? && t == s
      case _ => false
  {
  }
}
