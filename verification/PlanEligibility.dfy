/** What a verdict means, what an evaluation leaves behind, and why a stuck queue always has a cause. */
module PlanEligibility {
  import opened Basics
  import opened DependencyGraph
  import opened PlanTables
  import opened PlanSpec
  import opened PlanInvariants

  lemma {:induction false} UnfinishedMeaning(s: Store, ds: seq<int>)
    requires forall d :: d in ds ==> d in s.plans
    ensures forall d, st :: (d, st) in Unfinished(s, ds) <==> d in ds && s.plans[d].status == st && st != Completed
  {
    if ds != [] {
      var init, last := ds[..|ds| - 1], ds[|ds| - 1];
      UnfinishedMeaning(s, init);
      assert forall d :: d in ds <==> d in init || d == last;
    }
  }

  lemma NothingUnfinished(s: Store, ds: seq<int>)
    requires forall d :: d in ds ==> d in s.plans
    ensures Unfinished(s, ds) == [] <==> forall d :: d in ds ==> s.plans[d].status == Completed
  {
    UnfinishedMeaning(s, ds);
    if Unfinished(s, ds) == [] {
      forall d | d in ds ensures s.plans[d].status == Completed {
        assert (d, s.plans[d].status) !in Unfinished(s, ds);
      }
    } else {
      assert Unfinished(s, ds)[0] in Unfinished(s, ds);
    }
  }

  /**
   The verdict is Eligible exactly when the plan is queued, unpaused, has only completed dependencies
   and a free project.
   */
  lemma VerdictIsTheRule(s: Store, id: int)
    requires Shaped(s) && id in s.plans
    ensures EagerVerdict(s, id).Eligible? <==> EligibleIn(s, id)
  {
    assert forall d :: d in s.deps[id] <==> Edge(s.deps, id, d);
    NothingUnfinished(s, s.deps[id]);
  }

  /** Another plan of the project that is being worked on. */
  predicate WorkedOnBeside(s: Store, id: int, j: int) {
    && id in s.plans && j in s.plans && j != id && s.plans[j].project == s.plans[id].project
    && s.plans[j].status in {Admitted, Active, WaitingReview, WaitingMerge}
  }

  function Names(blocked: seq<(int, Status)>): seq<int> {
    if blocked == [] then [] else Names(blocked[..|blocked| - 1]) + [blocked[|blocked| - 1].0]
  }

  lemma {:induction false} UnfinishedNames(s: Store, ds: seq<int>)
    requires forall d :: d in ds ==> d in s.plans
    ensures Names(Unfinished(s, ds)) == Keep(ds, d => d in s.plans && s.plans[d].status != Completed)
  {
    if ds != [] {
      var init := ds[..|ds| - 1];
      UnfinishedNames(s, init);
      hide Keep;
      var waits := d => d in s.plans && s.plans[d].status != Completed;
      assert init + [ds[|ds| - 1]] == ds;
      KeepSnoc(init, ds[|ds| - 1], waits);
    }
  }

  /** A plan that may start: queued, unpaused, nothing unfinished before it, and its project free. */
  ghost predicate MayStart(s: Store, id: int)
    requires Shaped(s)
  {
    && id in s.plans && s.plans[id].status == Queued && !s.plans[id].paused
    && (forall d :: Edge(s.deps, id, d) ==> s.plans[d].status == Completed)
    && (forall j :: !WorkedOnBeside(s, id, j))
  }

  /**
   What each verdict says: the plan's status, that it is paused, which dependencies are unfinished, in
   the order in which they were added and with their statuses, or which plan is being worked on, the
   one of lowest id; each only if nothing said earlier holds.
   */
  lemma VerdictExplains(s: Store, id: int)
    requires Shaped(s) && id in s.plans
    ensures var p, waits := s.plans[id], d => d in s.plans && s.plans[d].status != Completed;
      match EagerVerdict(s, id)
      case WrongStatus(status) => status == p.status && status != Queued
      case IsPaused => p.status == Queued && p.paused
      case WaitingOn(blocked) =>
        && p.status == Queued && !p.paused && blocked != [] && Names(blocked) == Keep(s.deps[id], waits)
        && forall d, status :: (d, status) in blocked ==> d in s.plans && s.plans[d].status == status
      case ProjectBusy(j, status) =>
        && p.status == Queued && !p.paused && (forall d :: Edge(s.deps, id, d) ==> s.plans[d].status == Completed)
        && WorkedOnBeside(s, id, j) && s.plans[j].status == status
        && forall k :: k < j ==> !WorkedOnBeside(s, id, k)
      case Eligible => MayStart(s, id)
  {
    assert forall d :: d in s.deps[id] <==> Edge(s.deps, id, d);
    assert forall j :: WorkedOnBeside(s, id, j) <==> OccupiedOther(s, id, j);
    NothingUnfinished(s, s.deps[id]);
    UnfinishedMeaning(s, s.deps[id]);
    UnfinishedNames(s, s.deps[id]);
    hide Unfinished, Keep, Names, WorkedOnBeside;
  }

  /** Reconciling everything keeps the shape of the tables and leaves nothing to reconcile. */
  lemma SettledShape(s: Store, ids: set<int>)
    requires Shaped(s)
    ensures Shaped(ReconcileSet(s, ids))
  {
  }

  /** Every plan of the project that is occupied after the dependencies were settled is about to be completed. */
  lemma FreeProjectSettles(s: Store, near: set<int>, id: int)
    requires Shaped(s) && id in near
    requires forall j :: !OccupiedOther(ReconcileAll(s), id, j)
    ensures var t := ReconcileSet(s, near);
      forall j :: OccupiedOther(t, id, j) ==> Mergeable(t, j) && j in ActivePrefix(t, id)
  {
    var t := ReconcileSet(s, near);
    forall j | OccupiedOther(t, id, j) ensures Mergeable(t, j) {
      assert !OccupiedOther(ReconcileAll(s), id, j);
      assert s.plans[j].status == t.plans[j].status;
    }
  }

  /** Completed dependencies stay completed when only some of the plans are reconciled, if those include them. */
  lemma DepsDoneIn(s: Store, ids: set<int>, id: int)
    requires Shaped(s) && Shaped(ReconcileAll(s)) && EligibleIn(ReconcileAll(s), id) && DepSet(s, id) <= ids
    ensures forall d :: d in s.deps[id] ==> d in s.plans && ReconcileSet(s, ids).plans[d].status == Completed
  {
    hide Mergeable;
    forall d | d in s.deps[id] ensures d in s.plans && ReconcileSet(s, ids).plans[d].status == Completed {
      assert Edge(ReconcileAll(s).deps, id, d) && d in ids;
    }
  }

  lemma TouchedWhenEligible(s: Store, id: int)
    requires Shaped(s) && Shaped(ReconcileAll(s)) && EligibleIn(ReconcileAll(s), id)
    ensures id in s.plans && s.plans[id].status == Queued && !s.plans[id].paused && !Mergeable(s, id)
    ensures var near := {id} + DepSet(s, id);
      Touched(s, id) == near + ActivePrefix(ReconcileSet(s, near), id)
  {
    var near := {id} + DepSet(s, id);
    DepsDoneIn(s, near, id);
  }

  lemma ProjectFreeIn(s: Store, near: set<int>, id: int)
    requires Shaped(s) && id in near
    requires forall j :: !OccupiedOther(ReconcileAll(s), id, j)
    ensures forall j :: !OccupiedOther(ReconcileSet(s, near + ActivePrefix(ReconcileSet(s, near), id)), id, j)
  {
    FreeProjectSettles(s, near, id);
    var t := ReconcileSet(s, near);
    var ids := near + ActivePrefix(t, id);
    forall j ensures !OccupiedOther(ReconcileSet(s, ids), id, j) {
      if OccupiedOther(ReconcileSet(s, ids), id, j) {
        ReconcileLeaves(s, near, j);
        assert OccupiedOther(t, id, j);
      }
    }
  }

  /** After an evaluation that says Eligible, the touched tables themselves satisfy the rule. */
  lemma EligibleLeavesFreeProject(s: Store, id: int)
    requires Shaped(s) && id in s.plans && Judge(s, id).Eligible?
    ensures Shaped(ReconcileSet(s, Touched(s, id)))
    ensures EligibleIn(ReconcileSet(s, Touched(s, id)), id) && !Mergeable(s, id)
  {
    SettledShape(s, s.plans.Keys);
    SettledShape(s, Touched(s, id));
    VerdictIsTheRule(ReconcileAll(s), id);
    TouchedWhenEligible(s, id);
    DepsDoneIn(s, Touched(s, id), id);
    ProjectFreeIn(s, {id} + DepSet(s, id), id);
  }

  // Progress

  /** Why a queued plan is not moving, on settled tables. */
  predicate StuckFor(s: Store, id: int) {
    id in s.plans
    && ((s.plans[id].status == Queued && s.plans[id].paused)
        || s.plans[id].status in {Blocked, Cancelled}
        || Occupied(s.plans[id].status))
  }

  /**
   Every queued plan has, among the plans it transitively waits for (itself included), one that
   is free of unfinished dependencies, or one that is paused, blocked, cancelled or occupied.
   */
  lemma EveryWaitHasACause(s: Store, id: int) returns (cause: int)
    requires Shaped(s) && EdgesOk(s) && id in s.plans && s.plans[id].status == Queued
    ensures Reaches(s.deps, id, cause) && cause in s.plans && s.plans[cause].project == s.plans[id].project
    ensures StuckFor(s, cause)
      || (s.plans[cause].status == Queued && !s.plans[cause].paused
          && forall d :: Edge(s.deps, cause, d) ==> s.plans[d].status == Completed)
  {
    var waiting := set j | j in s.plans && s.plans[j].status != Completed;
    cause := MinimalElement(s.deps, waiting, id, {});
    SameProject(s, id, cause);
  }

  lemma SameProject(s: Store, a: int, b: int)
    requires Shaped(s) && EdgesOk(s) && a in s.plans && Reaches(s.deps, a, b)
    ensures b in s.plans && s.plans[b].project == s.plans[a].project
  {
    var p :| PathBetween(s.deps, p, a, b);
    var S := set j | j in s.plans && s.plans[j].project == s.plans[a].project;
    ClosedTrapsPath(s.deps, S, p);
  }

  ghost predicate QueuedEdge(s: Store, project: int, j: int, d: int) {
    Edge(s.deps, j, d) && j in s.plans && s.plans[j].project == project && s.plans[j].status == Queued
  }

  /** The open plans of a project are all queued and unpaused, and none of them depends on a cancelled plan. */
  ghost predicate Unobstructed(s: Store, project: int) {
    && (forall j :: j in s.plans && s.plans[j].project == project ==>
          Terminal(s.plans[j].status) || (s.plans[j].status == Queued && !s.plans[j].paused))
    && (forall j, d :: QueuedEdge(s, project, j, d) ==> d in s.plans && s.plans[d].status != Cancelled)
  }

  lemma SomePlanSatisfiesTheRule(t: Store, project: int, start: int) returns (id: int)
    requires Shaped(t) && EdgesOk(t) && Unobstructed(t, project)
    requires start in t.plans && t.plans[start].project == project && t.plans[start].status == Queued
    ensures id in t.plans && t.plans[id].project == project && EligibleIn(t, id)
  {
    var queued := set j | j in t.plans && t.plans[j].project == project && t.plans[j].status == Queued;
    id := MinimalElement(t.deps, queued, start, {});
    forall d | Edge(t.deps, id, d) ensures t.plans[d].status == Completed {
      assert QueuedEdge(t, project, id, d) && d !in queued;
    }
  }

  /**
   Deadlock freedom: if, once merged Features are noticed, the project still has a queued plan and
   is unobstructed, then evaluating some queued plan of it answers Eligible.
   */
  lemma SomePlanIsEligible(s: Store, project: int, start: int) returns (id: int)
    requires Valid(s) && Unobstructed(ReconcileAll(s), project)
    requires start in s.plans && s.plans[start].project == project && ReconcileAll(s).plans[start].status == Queued
    ensures id in s.plans && s.plans[id].project == project
    ensures Evaluate(s, id).outcome == Judged(Eligible)
  {
    ReconcileSetFollows(s, s.plans.Keys);
    id := SomePlanSatisfiesTheRule(ReconcileAll(s), project, start);
    VerdictIsTheRule(ReconcileAll(s), id);
  }
}
