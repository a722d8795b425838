/**
 What every operation keeps: the invariant of the tables, and the relation between the tables
 before and after any number of operations.
 */
module PlanInvariants {
  import opened Basics
  import opened DependencyGraph
  import opened PlanTables
  import opened PlanSpec

  // How a plan moves

  /** The steps of a plan on its way from queued to completed. */
  predicate OnTheWay(from: Status, to: Status) {
    (from, to) in {(Queued, Admitted), (Admitted, Active), (Active, WaitingReview), (WaitingReview, WaitingMerge),
                   (WaitingMerge, Completed)}
  }

  /** A step on its way; aside to blocked, and from there back to queued; or cancelled. */
  predicate MayMove(from: Status, to: Status) {
    || OnTheWay(from, to)
    || (from in {Queued, Admitted, Active, WaitingReview, WaitingMerge} && to in {Blocked, Cancelled})
    || (from == Blocked && to in {Queued, Cancelled})
  }

  lemma AllowedIsMayMove(from: Status, to: Status)
    ensures AllowedTransition(from, to) <==> MayMove(from, to)
  {
  }

  // The invariant

  ghost predicate EdgesOk(s: Store) {
    && Acyclic(s.deps)
    && (forall a :: a in s.deps ==> NoDup(s.deps[a]))
    && (forall a, b :: Edge(s.deps, a, b) ==> a in s.plans && b in s.plans && s.plans[a].project == s.plans[b].project)
  }

  /** The audit log starts with the creation, every row fits, and replaying it gives the plan row. */
  ghost predicate HistoryOk(s: Store, id: int) {
    && id in s.history && id in s.plans
    && FaithfulLog(s.history[id], s.plans[id])
  }

  ghost predicate FaithfulLog(h: seq<HistoryRow>, p: Plan) {
    && |h| > 0 && h[0].action.Created? && h[0].from == None && h[0].to == Queued
    && Fits(Birth(h[0].action.priority), h[1..])
    && Replay(Birth(h[0].action.priority), h[1..]) == ViewOf(p)
  }

  /** A plan's tasks are numbered from 1, distinct, and belong to the plan's project. */
  ghost predicate TaskListOk(s: Store, id: int) {
    && id in s.taskRows && id in s.plans
    && Numbered(s.taskRows[id])
    && (forall r :: r in s.taskRows[id] ==> r.task in s.tasks && s.tasks[r.task] == Some(s.plans[id].project))
  }

  ghost predicate Numbered(rows: seq<TaskRow>) {
    && (forall i :: 0 <= i < |rows| ==> rows[i].position == i + 1)
    && (forall i, j :: 0 <= i < j < |rows| ==> rows[i].task != rows[j].task)
  }

  ghost predicate Open(s: Store, id: int) {
    id in s.plans && !Terminal(s.plans[id].status)
  }

  /** No task belongs to two open plans. */
  ghost predicate OwnershipOk(s: Store) {
    forall p, q, t :: Open(s, p) && Open(s, q) && HasTask(s, p, t) && HasTask(s, q, t) ==> p == q
  }

  ghost predicate OperationOk(s: Store, op: Operation) {
    op.plan in s.plans
    && match op.payload
       case CreatePayload(project, _, _, _, _, _) => s.plans[op.plan].project == project
       case ReplanPayload(plan, _, _, _) => plan == op.plan
  }

  ghost predicate LinksOk(s: Store) {
    && (forall k :: k in s.operations ==> k != "" && OperationOk(s, s.operations[k]))
    && (forall id :: id in s.integrations ==> id in s.plans && s.integrations[id].project == s.plans[id].project)
  }

  ghost predicate Valid(s: Store) {
    && Shaped(s)
    && EdgesOk(s)
    && (forall id :: id in s.plans ==> HistoryOk(s, id))
    && (forall id :: id in s.plans ==> TaskListOk(s, id))
    && OwnershipOk(s)
    && LinksOk(s)
  }

  // What later tables remember of earlier ones

  ghost predicate Logged(s: Store, t: Store, id: int, rows: seq<HistoryRow>)
    requires Shaped(s) && Shaped(t) && id in s.plans && id in t.plans
  {
    && t.history[id] == s.history[id] + rows
    && Fits(ViewOf(s.plans[id]), rows)
    && Replay(ViewOf(s.plans[id]), rows) == ViewOf(t.plans[id])
    && ReplayDeps(s.deps[id], rows) == t.deps[id]
  }

  ghost predicate Frozen(s: Store, t: Store, id: int)
    requires Shaped(s) && Shaped(t) && id in s.plans && id in t.plans
  {
    && t.plans[id].objective == s.plans[id].objective && t.plans[id].criteria == s.plans[id].criteria
    && t.plans[id].revision == s.plans[id].revision && t.taskRows[id] == s.taskRows[id]
  }

  ghost predicate PlanLater(s: Store, t: Store, id: int)
    requires Shaped(s) && Shaped(t) && id in s.plans
  {
    && id in t.plans && t.plans[id].project == s.plans[id].project
    && (Terminal(s.plans[id].status) ==> t.plans[id].status == s.plans[id].status)
    && (exists rows :: Logged(s, t, id, rows))
    && (id in s.integrations ==> Frozen(s, t, id))
  }

  ghost predicate Later(s: Store, t: Store)
    requires Shaped(s) && Shaped(t)
  {
    && s.nextPlan <= t.nextPlan
    && (forall k :: k in s.projects ==> k in t.projects && t.projects[k] == s.projects[k])
    && (forall id :: id in s.plans ==> PlanLater(s, t, id))
    && (forall k :: k in s.operations ==> k in t.operations && t.operations[k] == s.operations[k])
    && (forall id :: id in s.integrations ==> id in t.integrations && t.integrations[id] == s.integrations[id])
  }

  /** `t` is a sound successor of `s`. */
  ghost predicate Follows(s: Store, t: Store) {
    Valid(s) && Valid(t) && Later(s, t)
  }

  // Replaying logs piecewise

  lemma {:induction false} ReplayConcat(v: View, a: seq<HistoryRow>, b: seq<HistoryRow>)
    ensures Replay(v, a + b) == Replay(Replay(v, a), b)
    ensures Fits(v, a + b) <==> Fits(v, a) && Fits(Replay(v, a), b)
  {
    if b == [] {
      assert a + b == a;
    } else {
      ReplayConcat(v, a, b[..|b| - 1]);
      assert (a + b)[..|a + b| - 1] == a + b[..|b| - 1];
    }
  }

  lemma {:induction false} ReplayDepsConcat(ds: seq<int>, a: seq<HistoryRow>, b: seq<HistoryRow>)
    ensures ReplayDeps(ds, a + b) == ReplayDeps(ReplayDeps(ds, a), b)
  {
    if b == [] {
      assert a + b == a;
    } else {
      ReplayDepsConcat(ds, a, b[..|b| - 1]);
      assert (a + b)[..|a + b| - 1] == a + b[..|b| - 1];
    }
  }

  lemma LaterReflexive(s: Store)
    requires Shaped(s)
    ensures Later(s, s)
  {
    forall id | id in s.plans ensures PlanLater(s, s, id) {
      assert s.history[id] == s.history[id] + [];
      assert Logged(s, s, id, []);
    }
  }

  lemma LoggedTransitive(s: Store, t: Store, u: Store, id: int, a: seq<HistoryRow>, b: seq<HistoryRow>)
    requires Shaped(s) && Shaped(t) && Shaped(u) && id in s.plans && id in t.plans && id in u.plans
    requires Logged(s, t, id, a) && Logged(t, u, id, b)
    ensures Logged(s, u, id, a + b)
  {
    var h, ds := s.history[id], s.deps[id];
    hide Shaped, Replay, Fits, ReplayDeps, Acyclic;
    ReplayConcat(ViewOf(s.plans[id]), a, b);
    ReplayDepsConcat(ds, a, b);
    assert h + a + b == h + (a + b);
  }

  lemma PlanLaterTransitive(s: Store, t: Store, u: Store, id: int)
    requires Shaped(s) && Shaped(t) && Shaped(u) && id in s.plans
    requires PlanLater(s, t, id) && PlanLater(t, u, id)
    requires id in s.integrations ==> id in t.integrations
    ensures PlanLater(s, u, id)
  {
    hide Shaped, Logged;
    var a :| Logged(s, t, id, a);
    var b :| Logged(t, u, id, b);
    LoggedTransitive(s, t, u, id, a, b);
  }

  lemma FollowsTransitive(s: Store, t: Store, u: Store)
    requires Follows(s, t) && Follows(t, u)
    ensures Follows(s, u)
  {
    forall id | id in s.plans ensures PlanLater(s, u, id) {
      PlanLaterTransitive(s, t, u, id);
    }
  }

  /** Sound log growth keeps the audit log faithful. */
  lemma HistoryCarries(s: Store, t: Store, id: int)
    requires Shaped(s) && Shaped(t) && id in s.plans && HistoryOk(s, id) && PlanLater(s, t, id)
    ensures HistoryOk(t, id)
  {
    var rows :| Logged(s, t, id, rows);
    var h := s.history[id];
    assert (h + rows)[1..] == h[1..] + rows;
    ReplayConcat(Birth(h[0].action.priority), h[1..], rows);
  }

  lemma OpenShrinks(s: Store, t: Store)
    requires Shaped(s) && Shaped(t) && OwnershipOk(s)
    requires forall id :: Open(t, id) ==> Open(s, id)
    requires t.taskRows == s.taskRows
    ensures OwnershipOk(t)
  {
    assert forall p, x :: HasTask(t, p, x) ==> HasTask(s, p, x);
  }

  // One logged write to one plan

  /** `t` differs from `s` by one logged write to plan `id`; dependencies may change with it. */
  ghost predicate LoggedWrite(s: Store, t: Store, id: int, row: HistoryRow) {
    && Shaped(s) && Shaped(t) && id in s.plans
    && id in t.plans && t.plans == s.plans[id := t.plans[id]]
    && t.history == s.history[id := s.history[id] + [row]]
    && t.deps == s.deps[id := ReplayDeps(s.deps[id], [row])]
    && RowFits(ViewOf(s.plans[id]), row)
    && ReplayRow(ViewOf(s.plans[id]), row) == ViewOf(t.plans[id])
    && t.plans[id].project == s.plans[id].project
    && t.projects == s.projects && t.tasks == s.tasks && t.integrations == s.integrations && t.nextPlan == s.nextPlan
  }

  lemma OneRow(v: View, ds: seq<int>, row: HistoryRow)
    ensures Replay(v, [row]) == ReplayRow(v, row)
    ensures Fits(v, [row]) <==> RowFits(v, row)
    ensures !row.action.DependencyAdded? && !row.action.DependencyRemoved? ==> ReplayDeps(ds, [row]) == ds
    ensures row.action.DependencyAdded? ==> ReplayDeps(ds, [row]) == ds + [row.action.on]
    ensures row.action.DependencyRemoved? ==> ReplayDeps(ds, [row]) == Keep(ds, d => d != row.action.on)
  {
    assert [row][..|[row]| - 1] == [];
  }

  lemma LoggedWriteLater(s: Store, t: Store, id: int, row: HistoryRow)
    requires LoggedWrite(s, t, id, row)
    requires id in s.integrations ==> Frozen(s, t, id)
    requires forall j :: j in s.plans && j != id ==> t.taskRows[j] == s.taskRows[j]
    requires forall k :: k in s.operations ==> k in t.operations && t.operations[k] == s.operations[k]
    ensures Later(s, t)
  {
    forall j | j in s.plans ensures PlanLater(s, t, j) {
      if j == id {
        OneRow(ViewOf(s.plans[id]), s.deps[id], row);
        assert Logged(s, t, id, [row]);
      } else {
        assert s.history[j] == s.history[j] + [];
        assert Logged(s, t, j, []);
      }
    }
  }

  /** A logged write that touches neither dependencies, tasks, objectives nor keys. */
  ghost predicate PlainChange(p: Plan, q: Plan, action: Action) {
    && !action.DependencyAdded? && !action.DependencyRemoved? && !action.Replanned?
    && RowFits(ViewOf(p), HistoryRow(Some(p.status), q.status, action))
    && ReplayRow(ViewOf(p), HistoryRow(Some(p.status), q.status, action)) == ViewOf(q)
    && q.project == p.project && q.objective == p.objective && q.criteria == p.criteria
  }

  lemma PlainWriteLater(s: Store, id: int, q: Plan, action: Action)
    requires Shaped(s) && id in s.plans && PlainChange(s.plans[id], q, action)
    ensures Shaped(Log(s, id, q, action)) && Later(s, Log(s, id, q, action))
  {
    var t := Log(s, id, q, action);
    var row := HistoryRow(Some(s.plans[id].status), q.status, action);
    OneRow(ViewOf(s.plans[id]), s.deps[id], row);
    assert LoggedWrite(s, t, id, row);
    LoggedWriteLater(s, t, id, row);
  }

  lemma HistoriesCarry(s: Store, t: Store)
    requires Valid(s) && Shaped(t) && Later(s, t) && t.plans.Keys == s.plans.Keys
    ensures forall id :: id in t.plans ==> HistoryOk(t, id)
  {
    forall id | id in t.plans ensures HistoryOk(t, id) {
      HistoryCarries(s, t, id);
    }
  }

  lemma TaskListsCarry(s: Store, t: Store)
    requires forall id :: id in s.plans ==> TaskListOk(s, id)
    requires t.plans.Keys == s.plans.Keys && t.taskRows == s.taskRows && t.tasks == s.tasks
    requires forall id :: id in s.plans ==> t.plans[id].project == s.plans[id].project
    ensures forall id :: id in t.plans ==> TaskListOk(t, id)
  {
    forall id | id in t.plans ensures TaskListOk(t, id) {
      assert TaskListOk(s, id);
    }
  }

  lemma LinksCarry(s: Store, t: Store)
    requires LinksOk(s) && t.operations == s.operations && t.integrations == s.integrations
    requires forall id :: id in s.plans ==> id in t.plans && t.plans[id].project == s.plans[id].project
    ensures LinksOk(t)
  {
    forall k | k in t.operations ensures OperationOk(t, t.operations[k]) {
      assert OperationOk(s, s.operations[k]);
    }
  }

  lemma Assemble(s: Store, t: Store)
    requires Valid(s) && Shaped(t) && Later(s, t)
    requires EdgesOk(t) && OwnershipOk(t) && LinksOk(t)
    requires forall id :: id in t.plans ==> HistoryOk(t, id)
    requires forall id :: id in t.plans ==> TaskListOk(t, id)
    ensures Follows(s, t)
  {
  }

  lemma PlainWrite(s: Store, id: int, q: Plan, action: Action)
    requires Valid(s) && id in s.plans && PlainChange(s.plans[id], q, action)
    ensures Follows(s, Log(s, id, q, action))
  {
    hide Shaped;
    var t := Log(s, id, q, action);
    PlainWriteLater(s, id, q, action);
    HistoriesCarry(s, t);
    TaskListsCarry(s, t);
    assert forall j :: Open(t, j) ==> Open(s, j);
    OpenShrinks(s, t);
    LinksCarry(s, t);
    Assemble(s, t);
  }

  lemma ReconcileFollows(s: Store, id: int)
    requires Valid(s)
    ensures Follows(s, Reconcile(s, id))
  {
    if Mergeable(s, id) {
      PlainWrite(s, id, s.plans[id].(status := Completed), ReconciledAfterFeatureMerge);
    } else {
      LaterReflexive(s);
    }
  }

  lemma ReconcileAfter(s: Store, t: Store, id: int)
    requires Follows(s, t)
    ensures Follows(s, Reconcile(t, id))
  {
    ReconcileFollows(t, id);
    FollowsTransitive(s, t, Reconcile(t, id));
  }

  // Reconciliation in any order

  /** After reconciling `ids` exactly the other mergeable plans remain mergeable. */
  lemma ReconcileLeaves(s: Store, ids: set<int>, x: int)
    requires Aligned(s)
    ensures Mergeable(ReconcileSet(s, ids), x) <==> Mergeable(s, x) && x !in ids
  {
  }

  lemma ReconcileTwice(s: Store, a: set<int>, b: set<int>)
    requires Aligned(s)
    ensures ReconcileSet(ReconcileSet(s, a), b) == ReconcileSet(s, a + b)
  {
    var t, u, v := ReconcileSet(s, a), ReconcileSet(ReconcileSet(s, a), b), ReconcileSet(s, a + b);
    forall x | x in s.plans ensures u.plans[x] == v.plans[x] && u.history[x] == v.history[x] {
      ReconcileLeaves(s, a, x);
    }
    assert u.plans == v.plans;
    assert u.history == v.history;
  }

  lemma ReconcileOne(s: Store, id: int)
    requires Aligned(s)
    ensures ReconcileSet(s, {id}) == Reconcile(s, id)
  {
    var t, u := ReconcileSet(s, {id}), Reconcile(s, id);
    if Mergeable(s, id) {
      forall x | x in s.plans ensures t.plans[x] == u.plans[x] && t.history[x] == u.history[x] {
      }
    } else {
      forall x | x in s.plans ensures t.plans[x] == s.plans[x] && t.history[x] == s.history[x] {
      }
    }
    assert t.plans == u.plans;
    assert t.history == u.history;
  }

  lemma ReconcileNone(s: Store)
    requires Aligned(s)
    ensures ReconcileSet(s, {}) == s
  {
    var t := ReconcileSet(s, {});
    forall x | x in s.plans ensures t.plans[x] == s.plans[x] && t.history[x] == s.history[x] {
    }
    assert t.plans == s.plans;
    assert t.history == s.history;
  }

  /** Reconciling is idempotent and two reconciliations commute. */
  lemma ReconcileCommutes(s: Store, a: int, b: int)
    requires Aligned(s)
    ensures Reconcile(Reconcile(s, a), a) == Reconcile(s, a)
    ensures Reconcile(Reconcile(s, a), b) == Reconcile(Reconcile(s, b), a)
  {
    ReconcileOne(s, a);
    ReconcileOne(s, b);
    ReconcileOne(Reconcile(s, a), b);
    ReconcileOne(Reconcile(s, b), a);
    ReconcileTwice(s, {a}, {b});
    ReconcileTwice(s, {b}, {a});
    assert {a} + {b} == {b} + {a};
  }

  ghost function ReconcileEach(s: Store, ids: seq<int>): (t: Store)
    requires Aligned(s)
    ensures Aligned(t)
  {
    if ids == [] then s
    else
      var u := ReconcileEach(s, ids[..|ids| - 1]);
      Reconcile(u, ids[|ids| - 1])
  }

  /** One plan after the other, in any order and with repetitions, comes to the set reconciled at once. */
  lemma {:induction false} ReconcileAnyOrder(s: Store, ids: seq<int>)
    requires Aligned(s)
    ensures ReconcileEach(s, ids) == ReconcileSet(s, set id | id in ids)
  {
    if ids == [] {
      ReconcileNone(s);
      assert (set id | id in ids) == {};
    } else {
      var init, last := ids[..|ids| - 1], ids[|ids| - 1];
      ReconcileAnyOrder(s, init);
      var ready := set id | id in init;
      ReconcileOne(ReconcileSet(s, ready), last);
      ReconcileTwice(s, ready, {last});
      assert (set id | id in ids) == ready + {last};
    }
  }

  lemma {:induction false} ReconcileSetFollows(s: Store, ids: set<int>)
    requires Valid(s)
    ensures Follows(s, ReconcileSet(s, ids))
    decreases ids
  {
    if ids != {} {
      var id := PickOne(ids);
      ReconcileSetFollows(s, ids - {id});
      ReconcileOne(ReconcileSet(s, ids - {id}), id);
      ReconcileTwice(s, ids - {id}, {id});
      assert ids - {id} + {id} == ids;
      ReconcileFollows(ReconcileSet(s, ids - {id}), id);
      FollowsTransitive(s, ReconcileSet(s, ids - {id}), ReconcileSet(s, ids));
    } else {
      ReconcileNone(s);
      LaterReflexive(s);
    }
  }
}
