/** An unobstructed queue can always be worked off to the end. */
module PlanProgress {
  import opened Basics
  import opened DependencyGraph
  import opened PlanTables
  import opened PlanSpec
  import opened PlanInvariants
  import opened PlanOperations
  import opened PlanEligibility
  import opened PlanRuns
  import opened PlanSafety

  ghost predicate Settled(s: Store) {
    forall id :: !Mergeable(s, id)
  }

  lemma SettlingSettles(s: Store)
    requires Aligned(s)
    ensures Settled(ReconcileAll(s))
  {
    forall id ensures !Mergeable(ReconcileAll(s), id) {
      ReconcileLeaves(s, s.plans.Keys, id);
    }
  }

  lemma SettledIsFixed(s: Store, ids: set<int>)
    requires Aligned(s) && Settled(s)
    ensures ReconcileSet(s, ids) == s
  {
    var t := ReconcileSet(s, ids);
    forall x | x in s.plans ensures t.plans[x] == s.plans[x] && t.history[x] == s.history[x] {
      assert !Mergeable(s, x);
    }
    assert t.plans == s.plans;
    assert t.history == s.history;
  }

  /** On settled tables an allowed status write moves that one plan and nothing else. */
  lemma MoveOnSettled(s: Store, c: Call, id: int, to: Status)
    requires Shaped(s) && Settled(s) && id in s.plans && c == SetStatus(id, to)
    requires AllowedTransition(s.plans[id].status, to)
    ensures var t := Apply(s, c).store;
      Aligned(t) && Settled(t) && t == s.(plans := s.plans[id := s.plans[id].(status := to)], history := t.history)
  {
    var u := Log(s, id, s.plans[id].(status := to), StatusChanged);
    forall j ensures !Mergeable(u, j) {
      assert !Mergeable(s, j);
    }
  }

  lemma AdmitWritesOnSettled(s: Store, id: int)
    requires Shaped(s) && Settled(s) && EligibleIn(s, id)
    ensures Admit(s, id) == Transition(s, id, Admitted)
  {
    SettledIsFixed(s, s.plans.Keys);
    VerdictIsTheRule(s, id);
    SettledIsFixed(s, Touched(s, id));
  }

  lemma AdmitOnSettled(s: Store, c: Call, id: int)
    requires Shaped(s) && Settled(s) && EligibleIn(s, id) && c == AdmitPlan(id)
    ensures var t := Apply(s, c).store;
      && Aligned(t) && Settled(t)
      && t == s.(plans := s.plans[id := s.plans[id].(status := Admitted)], history := t.history)
  {
    hide Apply, Admit, Transition, Settled;
    AdmitWritesOnSettled(s, id);
    var write := SetStatus(id, Admitted);
    CallsAreSteps(s, c, write, id, Admitted);
    MoveOnSettled(s, write, id, Admitted);
  }

  lemma CallsAreSteps(s: Store, admit: Call, write: Call, id: int, to: Status)
    requires Shaped(s) && admit == AdmitPlan(id) && write == SetStatus(id, to)
    ensures Apply(s, admit) == Admit(s, id) && Apply(s, write) == Transition(s, id, to)
  {
    hide Admit, Transition;
  }

  /** `t` is `s` with plan `id` in status `to`; only its audit log grew. */
  ghost predicate Moved(s: Store, t: Store, id: int, to: Status) {
    && Valid(t) && Settled(t) && id in s.plans
    && t == s.(plans := s.plans[id := s.plans[id].(status := to)], history := t.history)
  }

  lemma RunOne(s: Store, calls: seq<Call>, c: Call)
    requires Valid(s)
    ensures Run(s, calls + [c]) == Apply(Run(s, calls), c).store
  {
    RunConcat(s, calls, [c]);
    RunFrom(Run(s, calls), c, []);
    assert [c] + [] == [c];
  }

  lemma NextMove(s: Store, calls: seq<Call>, c: Call, id: int, from: Status, to: Status)
    requires Valid(s) && Moved(s, Run(s, calls), id, from) && c == SetStatus(id, to) && AllowedTransition(from, to)
    ensures Moved(s, Run(s, calls + [c]), id, to)
  {
    RunOne(s, calls, c);
    MoveAgain(s, Run(s, calls), c, id, from, to);
  }

  lemma MoveAgain(s: Store, t: Store, c: Call, id: int, from: Status, to: Status)
    requires Moved(s, t, id, from) && c == SetStatus(id, to) && AllowedTransition(from, to)
    ensures Moved(s, Apply(t, c).store, id, to)
  {
    ApplyFollows(t, c);
    MoveOnSettled(t, c, id, to);
    MovesCompose(s, t, Apply(t, c).store, id, from, to);
  }

  lemma MovesCompose(s: Store, t: Store, u: Store, id: int, from: Status, to: Status)
    requires id in s.plans && t == s.(plans := s.plans[id := s.plans[id].(status := from)], history := t.history)
    requires u == t.(plans := t.plans[id := t.plans[id].(status := to)], history := u.history)
    ensures u == s.(plans := s.plans[id := s.plans[id].(status := to)], history := u.history)
  {
    assert u.plans == s.plans[id := s.plans[id].(status := to)];
  }

  lemma {:induction false} RunConcat(s: Store, a: seq<Call>, b: seq<Call>)
    requires Valid(s)
    ensures Run(s, a + b) == Run(Run(s, a), b)
    decreases |a|
  {
    hide Apply, EdgesOk, Shaped, Follows;
    if a == [] {
      assert a + b == b;
    } else {
      ApplyFollows(s, a[0]);
      RunConcat(Apply(s, a[0]).store, a[1..], b);
      assert (a + b)[1..] == a[1..] + b;
    }
  }

  /** The life of one plan: admitted, worked on, reviewed, merged. */
  function Life(id: int): seq<Call> {
    [AdmitPlan(id)] + [SetStatus(id, Active)] + [SetStatus(id, WaitingReview)]
      + [SetStatus(id, WaitingMerge)] + [SetStatus(id, Completed)]
  }

  lemma EligiblePlanCanFinish(s: Store, id: int)
    requires Valid(s) && Settled(s) && EligibleIn(s, id)
    ensures Moved(s, Run(s, Life(id)), id, Completed)
  {
    hide Shaped, Apply, EdgesOk;
    var c := AdmitPlan(id);
    AdmitOnSettled(s, c, id);
    RunFrom(s, c, []);
    assert [c] + [] == [c];
    NextMove(s, [c], SetStatus(id, Active), id, Admitted, Active);
    var a := [c] + [SetStatus(id, Active)];
    NextMove(s, a, SetStatus(id, WaitingReview), id, Active, WaitingReview);
    var b := a + [SetStatus(id, WaitingReview)];
    NextMove(s, b, SetStatus(id, WaitingMerge), id, WaitingReview, WaitingMerge);
    var d := b + [SetStatus(id, WaitingMerge)];
    NextMove(s, d, SetStatus(id, Completed), id, WaitingMerge, Completed);
  }

  ghost function QueuedPlans(s: Store, project: int): set<int> {
    set j | j in s.plans && s.plans[j].project == project && s.plans[j].status == Queued
  }

  lemma FinishingKeepsUnobstructed(s: Store, t: Store, project: int, id: int)
    requires Shaped(s) && Unobstructed(s, project) && Moved(s, t, id, Completed)
    requires id in QueuedPlans(s, project)
    ensures Unobstructed(t, project) && QueuedPlans(t, project) == QueuedPlans(s, project) - {id}
  {
    hide Valid, Shaped;
    forall j, d | QueuedEdge(t, project, j, d) ensures d in t.plans && t.plans[d].status != Cancelled {
      assert QueuedEdge(s, project, j, d);
    }
  }

  ghost predicate AllClosed(s: Store, project: int) {
    forall j :: Open(s, j) ==> s.plans[j].project != project
  }

  predicate Orderly(calls: seq<Call>) {
    forall i :: 0 <= i < |calls| ==> !DirectAdmission(calls[i])
  }

  lemma NothingQueuedIsClosed(s: Store, project: int)
    requires Unobstructed(s, project) && QueuedPlans(s, project) == {}
    ensures AllClosed(s, project)
  {
    forall j | Open(s, j) ensures s.plans[j].project != project {
      assert j !in QueuedPlans(s, project);
    }
  }

  /** One eligible plan of the project is worked off; the project stays unobstructed. */
  lemma OneLess(s: Store, project: int) returns (calls: seq<Call>)
    requires Valid(s) && Settled(s) && Unobstructed(s, project) && QueuedPlans(s, project) != {}
    ensures Orderly(calls) && Settled(Run(s, calls)) && Unobstructed(Run(s, calls), project)
    ensures |QueuedPlans(Run(s, calls), project)| < |QueuedPlans(s, project)|
  {
    hide Shaped, LinksOk, Run, HistoryOk, TaskListOk, EdgesOk;
    var queued := QueuedPlans(s, project);
    var start := PickOne(queued);
    var id := SomePlanSatisfiesTheRule(s, project, start);
    EligiblePlanCanFinish(s, id);
    calls := Life(id);
    FinishingKeepsUnobstructed(s, Run(s, calls), project, id);
    SmallerIsFewer(queued - {id}, queued);
  }

  /** From settled tables an unobstructed project can be worked off until every plan of it is closed. */
  lemma {:induction false} SettledQueueDrains(s: Store, project: int) returns (calls: seq<Call>)
    requires Valid(s) && Settled(s) && Unobstructed(s, project)
    ensures Orderly(calls) && AllClosed(Run(s, calls), project)
    decreases |QueuedPlans(s, project)|
  {
    if QueuedPlans(s, project) == {} {
      NothingQueuedIsClosed(s, project);
      calls := [];
    } else {
      var first := OneLess(s, project);
      var rest := SettledQueueDrains(Run(s, first), project);
      RunConcat(s, first, rest);
      calls := first + rest;
    }
  }

  /**
   Liveness: whatever the tables, if the project is unobstructed once merged Features are noticed,
   there is a run of reads, admissions and allowed status writes, none of which takes the lease
   past the eligibility check, after which every plan of the project is completed or cancelled.
   */
  lemma QueueDrains(s: Store, project: int) returns (calls: seq<Call>)
    requires Valid(s) && Unobstructed(ReconcileAll(s), project)
    ensures Orderly(calls) && AllClosed(Run(s, calls), project)
  {
    hide Judge, EdgesOk, ReconcileSet, TaskListOk;
    var read := ReadPlans(s.plans.Keys);
    ReconcileSetFollows(s, s.plans.Keys);
    SettlingSettles(s);
    var rest := SettledQueueDrains(ReconcileAll(s), project);
    calls := [read] + rest;
    RunFrom(s, read, rest);
  }
}
