/**
 When a plan can be in progress although a plan it depends on is not completed: which runs let that
 happen only through dependencies that were added after the admission.
 */
module PlanEvidence {
  import opened DependencyGraph
  import opened PlanTables
  import opened PlanSpec
  import opened PlanInvariants
  import opened PlanOperations
  import opened PlanEligibility
  import opened PlanRuns
  import opened PlanSafety

  predicate Adds(row: HistoryRow, d: int) {
    row.action == DependencyAdded(d)
  }

  ghost predicate NoAdmissionFrom(h: seq<HistoryRow>, k: nat) {
    forall j :: k <= j < |h| ==> !Admits(h[j])
  }

  /** The log adds the dependency after the last admission, if there is one. */
  ghost predicate AddedSinceAdmission(h: seq<HistoryRow>, d: int) {
    exists k :: 0 <= k < |h| && Adds(h[k], d) && NoAdmissionFrom(h, k)
  }

  /** An occupied plan depends on a plan that is not completed. */
  ghost predicate RunsAhead(s: Store, id: int, d: int) {
    && id in s.plans && Occupied(s.plans[id].status)
    && Edge(s.deps, id, d) && d in s.plans && s.plans[d].status != Completed
  }

  /** Plans run ahead only of dependencies they got after their admission. */
  ghost predicate Warranted(s: Store) {
    forall id, d :: RunsAhead(s, id, d) ==> id in s.history && AddedSinceAdmission(s.history[id], d)
  }

  /** A status write that admits a queued plan with a dependency that is not completed. */
  ghost predicate AdmitsUnready(s: Store, c: Call) {
    && c.SetStatus? && c.to == Admitted && c.id in s.plans && s.plans[c.id].status == Queued && !Mergeable(s, c.id)
    && Unready(s, c.id)
  }

  ghost predicate Unready(s: Store, id: int) {
    exists d :: Edge(s.deps, id, d) && d in s.plans && s.plans[d].status != Completed
  }

  // Calls that admit nobody

  lemma QuietGrowthKeeps(g: seq<HistoryRow>, h: seq<HistoryRow>, d: int)
    requires GrewQuietly(g, h) && AddedSinceAdmission(g, d)
    ensures AddedSinceAdmission(h, d)
  {
    var k :| 0 <= k < |g| && Adds(g[k], d) && NoAdmissionFrom(g, k);
    forall j | k <= j < |h| ensures !Admits(h[j]) {
      assert j < |g| ==> h[j] == g[j];
    }
    assert Adds(h[k], d) && NoAdmissionFrom(h, k);
  }

  /** A dependency that the replayed rows introduce was added by one of them. */
  lemma {:induction false} AddedByRow(ds: seq<int>, rows: seq<HistoryRow>, d: int) returns (k: nat)
    requires d in ReplayDeps(ds, rows) && d !in ds
    ensures k < |rows| && Adds(rows[k], d)
  {
    var init, last := rows[..|rows| - 1], rows[|rows| - 1];
    if Adds(last, d) {
      k := |rows| - 1;
    } else {
      k := AddedByRow(ds, init, d);
    }
  }

  lemma NewDependencyIsLate(g: seq<HistoryRow>, rows: seq<HistoryRow>, ds: seq<int>, d: int)
    requires GrewQuietly(g, g + rows) && d in ReplayDeps(ds, rows) && d !in ds
    ensures AddedSinceAdmission(g + rows, d)
  {
    var k := AddedByRow(ds, rows, d);
    assert Adds((g + rows)[|g| + k], d) && NoAdmissionFrom(g + rows, |g| + k);
  }

  /** What runs ahead after a call that admits nobody ran ahead before, or depends on the plan since. */
  lemma QuietCallIsWarranted(s: Store, t: Store, id: int, d: int)
    requires Follows(s, t) && NoAdmission(s, t) && Warranted(s) && RunsAhead(t, id, d)
    ensures id in t.history && AddedSinceAdmission(t.history[id], d)
  {
    assert Shaped(s) && Shaped(t);
    hide Valid, Shaped, EdgesOk, ReplayDeps, Replay, Fits, AddedSinceAdmission;
    assert Holder(t, t.plans[id].project, id);
    assert Holder(s, t.plans[id].project, id);
    KnownBefore(s, t, id, d);
    assert PlanLater(s, t, id);
    var rows :| Logged(s, t, id, rows);
    if Edge(s.deps, id, d) {
      assert RunsAhead(s, id, d);
      QuietGrowthKeeps(s.history[id], t.history[id], d);
    } else {
      NewDependencyIsLate(s.history[id], rows, s.deps[id], d);
    }
  }

  lemma KnownBefore(s: Store, t: Store, id: int, d: int)
    requires Follows(s, t) && id in s.plans
    ensures id in s.deps && id in s.history && id in t.history && id in t.plans && id in t.deps
    ensures Edge(s.deps, id, d) && d in t.plans && t.plans[d].status != Completed ==>
        d in s.plans && s.plans[d].status != Completed
  {
    assert Shaped(s) && Shaped(t) && PlanLater(s, t, id);
    if Edge(s.deps, id, d) {
      assert d in s.plans && PlanLater(s, t, d);
    }
  }

  lemma QuietStep(s: Store, t: Store)
    requires Follows(s, t) && NoAdmission(s, t) && Warranted(s)
    ensures Warranted(t)
  {
    hide Follows, NoAdmission, AddedSinceAdmission;
    forall id, d | RunsAhead(t, id, d) ensures id in t.history && AddedSinceAdmission(t.history[id], d) {
      QuietCallIsWarranted(s, t, id, d);
    }
  }

  // Admissions

  /** Admitting a plan is warranted exactly when all its dependencies are completed. */
  lemma AdmittedWarrant(s: Store, t: Store, id: int)
    requires Aligned(s) && Warranted(s) && id in s.plans && s.plans[id].status == Queued
    requires t == Log(s, id, s.plans[id].(status := Admitted), StatusChanged)
    ensures Warranted(t) <==> !Unready(s, id)
  {
    var h := t.history[id];
    assert Admits(h[|h| - 1]);
    forall d ensures !AddedSinceAdmission(h, d) {
      assert forall k :: 0 <= k < |h| && NoAdmissionFrom(h, k) ==> k > |h| - 1;
    }
    if Unready(s, id) {
      var d :| Edge(s.deps, id, d) && d in s.plans && s.plans[d].status != Completed;
      assert RunsAhead(t, id, d);
    } else {
      forall j, d | RunsAhead(t, j, d) ensures j in t.history && AddedSinceAdmission(t.history[j], d) {
        assert d in s.plans && s.plans[d].status != Completed && Edge(s.deps, j, d);
        assert j != id;
        assert RunsAhead(s, j, d);
      }
    }
  }

  /** A plan whose Feature has merged is completed in the same call. */
  lemma MergedWarrant(s: Store, id: int)
    requires Aligned(s) && Warranted(s) && Mergeable(s, id)
    ensures Warranted(Reconcile(Log(s, id, s.plans[id].(status := Admitted), StatusChanged), id))
  {
    var t := Reconcile(Log(s, id, s.plans[id].(status := Admitted), StatusChanged), id);
    forall j, d | RunsAhead(t, j, d) ensures j in t.history && AddedSinceAdmission(t.history[j], d) {
      assert RunsAhead(s, j, d);
    }
  }

  lemma QueuedAdmissionWarrant(s: Store, id: int)
    requires Aligned(s) && Warranted(s) && id in s.plans && s.plans[id].status == Queued
    ensures Warranted(Transition(s, id, Admitted).store) <==> Mergeable(s, id) || !Unready(s, id)
  {
    var t := Log(s, id, s.plans[id].(status := Admitted), StatusChanged);
    assert Transition(s, id, Admitted).store == Reconcile(t, id);
    assert !Mergeable(s, id) ==> Reconcile(t, id) == t;
    hide Transition, Log, Reconcile, Warranted;
    if Mergeable(s, id) {
      MergedWarrant(s, id);
    } else {
      AdmittedWarrant(s, t, id);
    }
  }

  lemma StatusWriteIs(s: Store, c: Call)
    requires Shaped(s) && c.SetStatus? && c.to == Admitted
    ensures Aligned(s) && Apply(s, c).store == Transition(s, c.id, Admitted).store
    ensures !(c.id in s.plans && s.plans[c.id].status == Queued) ==>
        Apply(s, c).store == s || Apply(s, c).store == Reconcile(s, c.id)
  {
    assert Apply(s, c) == Transition(s, c.id, Admitted);
    hide Apply, Shaped, Reconcile, Log;
  }

  lemma DirectAdmissionWarrant(s: Store, c: Call)
    requires Valid(s) && Warranted(s) && c.SetStatus? && c.to == Admitted
    ensures Warranted(Apply(s, c).store) <==> !AdmitsUnready(s, c)
  {
    assert Shaped(s);
    hide Valid, Shaped, Apply, Transition, Warranted, Reconcile, NoAdmission, Mergeable, Unready;
    StatusWriteIs(s, c);
    if c.id in s.plans && s.plans[c.id].status == Queued {
      QueuedAdmissionWarrant(s, c.id);
    } else {
      ReconcileFollows(s, c.id);
      ReconcilingReleases(s, c.id, {});
      QuietStep(s, Reconcile(s, c.id));
    }
  }

  lemma EligibleIsReady(s: Store, id: int)
    requires Shaped(s) && EligibleIn(s, id)
    ensures id in s.plans && !Unready(s, id)
  {
  }

  lemma AdmissionIsWarranted(s: Store, id: int)
    requires Valid(s) && Warranted(s)
    ensures Warranted(Admit(s, id).store)
  {
    assert Shaped(s) && Aligned(s);
    AdmitCases(s, id);
    hide Admit, Warranted, NoAdmission, Touched, Judge, ReconcileSet, Reconcile, Valid, Shaped, Unready, EligibleIn;
    ReconcileFollows(s, id);
    ReconcilingReleases(s, id, {});
    QuietStep(s, Reconcile(s, id));
    if id in s.plans {
      var t := ReconcileSet(s, Touched(s, id));
      ReconcileSetFollows(s, Touched(s, id));
      ReconcilingReleases(s, id, Touched(s, id));
      QuietStep(s, t);
      if Admit(s, id).outcome == Done(id, true) {
        AdmitIsTransition(s, id);
        EligibleLeavesFreeProject(s, id);
        EligibleIsReady(t, id);
        AdmittedWarrant(t, Admit(s, id).store, id);
      }
    }
  }

  /** One call lets no plan run ahead without warrant if and only if it does not directly admit an unready plan. */
  lemma WarrantStep(s: Store, c: Call)
    requires Valid(s) && Warranted(s)
    ensures Warranted(Apply(s, c).store) <==> !AdmitsUnready(s, c)
  {
    if c.SetStatus? && c.to == Admitted {
      DirectAdmissionWarrant(s, c);
    } else if c.AdmitPlan? {
      AdmissionIsWarranted(s, c.id);
    } else {
      hide Apply, Warranted, NoAdmission;
      ApplyFollows(s, c);
      OnlyAdmissionTakesTheLease(s, c);
      QuietStep(s, Apply(s, c).store);
    }
  }

  // Runs

  ghost predicate AlwaysWarranted(s: Store, calls: seq<Call>)
    requires Valid(s)
    decreases |calls|
  {
    Warranted(s) && (calls == [] || (ApplyFollows(s, calls[0]); AlwaysWarranted(Apply(s, calls[0]).store, calls[1..])))
  }

  ghost predicate NeverAdmitsUnready(s: Store, calls: seq<Call>)
    requires Valid(s)
    decreases |calls|
  {
    calls == []
    || (!AdmitsUnready(s, calls[0])
        && (ApplyFollows(s, calls[0]); NeverAdmitsUnready(Apply(s, calls[0]).store, calls[1..])))
  }

  /**
   Throughout a run plans run ahead only of dependencies they got after their last admission, if and
   only if no status write of the run admits a plan with an uncompleted dependency.
   */
  lemma {:induction false} WarrantIff(s: Store, calls: seq<Call>)
    requires Valid(s) && Warranted(s)
    ensures AlwaysWarranted(s, calls) <==> NeverAdmitsUnready(s, calls)
    decreases |calls|
  {
    hide Warranted, Apply, AdmitsUnready;
    if calls != [] {
      ApplyFollows(s, calls[0]);
      WarrantStep(s, calls[0]);
      if !AdmitsUnready(s, calls[0]) {
        WarrantIff(Apply(s, calls[0]).store, calls[1..]);
      } else {
        assert !AlwaysWarranted(Apply(s, calls[0]).store, calls[1..]);
      }
    }
  }

  lemma {:induction false} OrderlyRunIsWarranted(s: Store, calls: seq<Call>)
    requires Valid(s) && Warranted(s) && forall i :: 0 <= i < |calls| ==> !DirectAdmission(calls[i])
    ensures Warranted(Run(s, calls))
    decreases |calls|
  {
    hide Warranted, Apply;
    if calls != [] {
      assert !DirectAdmission(calls[0]);
      ApplyFollows(s, calls[0]);
      WarrantStep(s, calls[0]);
      assert forall i :: 0 <= i < |calls| - 1 ==> calls[1..][i] == calls[i + 1];
      OrderlyRunIsWarranted(Apply(s, calls[0]).store, calls[1..]);
    }
  }

  /** A plan that became occupied was admitted; `a` is the last time. */
  lemma {:induction false} LastAdmission(v: View, rows: seq<HistoryRow>) returns (a: nat)
    requires Fits(v, rows) && !Occupied(v.status) && Occupied(Replay(v, rows).status)
    ensures a < |rows| && Admits(rows[a]) && NoAdmissionFrom(rows, a + 1)
  {
    var init, last := rows[..|rows| - 1], rows[|rows| - 1];
    if Admits(last) {
      a := |rows| - 1;
    } else {
      a := LastAdmission(v, init);
      forall j | a + 1 <= j < |rows| ensures !Admits(rows[j]) {
        assert j < |init| ==> rows[j] == init[j];
      }
    }
  }

  /**
   In a run that admits only through the eligibility check, an occupied plan with an uncompleted
   dependency got that dependency after its last admission.
   */
  lemma UncompletedDependencyCameLater(calls: seq<Call>, id: int, d: int) returns (a: nat, k: nat)
    requires forall i :: 0 <= i < |calls| ==> !DirectAdmission(calls[i])
    requires RunsAhead(Reached(calls), id, d)
    ensures id in Reached(calls).history
    ensures var h := Reached(calls).history[id];
      a < k < |h| && Admits(h[a]) && NoAdmissionFrom(h, a + 1) && Adds(h[k], d)
  {
    EmptyIsValid();
    assert Warranted(EMPTY);
    OrderlyRunIsWarranted(EMPTY, calls);
    var s := Reached(calls);
    assert HistoryOk(s, id);
    var h := s.history[id];
    assert Replay(Birth(h[0].action.priority), h[1..]) == ViewOf(s.plans[id]);
    hide Run, Valid, Shaped, Fits, Replay, HistoryOk, Edge;
    a := LastAdmission(Birth(h[0].action.priority), h[1..]);
    a := AfterFirst(h, a);
    k :| 0 <= k < |h| && Adds(h[k], d) && NoAdmissionFrom(h, k);
    assert k > a;
  }

  lemma AfterFirst(h: seq<HistoryRow>, a: nat) returns (b: nat)
    requires |h| > 0 && a < |h[1..]| && Admits(h[1..][a]) && NoAdmissionFrom(h[1..], a + 1)
    ensures b == a + 1 < |h| && Admits(h[b]) && NoAdmissionFrom(h, b + 1)
  {
    b := a + 1;
    forall j | b + 1 <= j < |h| ensures !Admits(h[j]) {
      assert h[j] == h[1..][j - 1];
    }
  }
}
