/**
 What the queue's operations do, said in terms of statuses, audit rows and tables: how a plan moves,
 which calls are accepted, and what an accepted call has changed once it returns.
 */
module PlanLaws {
  import opened Basics
  import opened PlanTables
  import opened PlanSpec
  import opened PlanRuns

  // The way of a plan

  /** The statuses a plan has passed through since it was last queued. */
  function WayTo(s: Status): seq<Status> {
    match s
    case Admitted => [Admitted]
    case Active => [Admitted, Active]
    case WaitingReview => [Admitted, Active, WaitingReview]
    case WaitingMerge => [Admitted, Active, WaitingReview, WaitingMerge]
    case Completed => [Admitted, Active, WaitingReview, WaitingMerge, Completed]
    case _ => []
  }

  /** The statuses that audit rows move to. */
  function Moves(rows: seq<HistoryRow>): seq<Status> {
    if rows == [] then []
    else
      var before, last := Moves(rows[..|rows| - 1]), rows[|rows| - 1];
      if last.from != Some(last.to) then before + [last.to] else before
  }

  /** Rows of an audit log, from its creation on. */
  predicate IsLog(h: seq<HistoryRow>) {
    && |h| > 0 && h[0].to == Queued
    && forall i :: 0 < i < |h| ==> h[i].from == Some(h[i - 1].to) && LegalMove(h[i])
  }

  lemma MovesSnoc(h: seq<HistoryRow>, j: nat, k: nat)
    requires j < k < |h|
    ensures Moves(h[j + 1..k + 1])
      == Moves(h[j + 1..k]) + if h[k].from != Some(h[k].to) then [h[k].to] else []
  {
    assert h[j + 1..k + 1][..k - j - 1] == h[j + 1..k];
  }

  lemma NoMoves(h: seq<HistoryRow>, k: nat)
    requires k < |h|
    ensures Moves(h[k + 1..k + 1]) == []
  {
  }

  /** A status on the way was reached step by step since the plan was last queued. */
  lemma {:induction false} StepByStep(h: seq<HistoryRow>, k: nat) returns (j: nat)
    requires IsLog(h) && k < |h|
    requires h[k].to in {Queued, Admitted, Active, WaitingReview, WaitingMerge}
    ensures j <= k && h[j].to == Queued && Moves(h[j + 1..k + 1]) == WayTo(h[k].to)
  {
    hide Moves;
    if h[k].to == Queued {
      j := k;
      NoMoves(h, k);
    } else {
      j := StepByStep(h, k - 1);
      MovesSnoc(h, j, k);
    }
  }

  lemma LogOf(calls: seq<Call>, id: int)
    requires id in Reached(calls).plans
    ensures IsLog(Reached(calls).history[id])
  {
    hide Run, Replay, LegalMove;
    AuditLogIsFaithful(calls, id);
  }

  /**
   In every run a plan comes to each status on its way step by step since it was last queued: the
   status changes logged since are exactly admitted, active, waiting for review and waiting for merge,
   as far as it has come.
   */
  lemma PlansMoveStepByStep(calls: seq<Call>, id: int, k: nat) returns (j: nat)
    requires id in Reached(calls).plans && k < |Reached(calls).history[id]|
    requires Reached(calls).history[id][k].to in {Queued, Admitted, Active, WaitingReview, WaitingMerge}
    ensures var h := Reached(calls).history[id];
      j <= k && h[j].to == Queued && Moves(h[j + 1..k + 1]) == WayTo(h[k].to)
  {
    LogOf(calls, id);
    hide Run, Reached, LegalMove;
    j := StepByStep(Reached(calls).history[id], k);
  }

  /** Unless its Feature was merged, a plan is completed from waiting for merge only, at the end of all those steps. */
  lemma CompletedByAllSteps(calls: seq<Call>, id: int, k: nat) returns (j: nat)
    requires id in Reached(calls).plans && k < |Reached(calls).history[id]|
    requires Reached(calls).history[id][k].action == StatusChanged && Reached(calls).history[id][k].to == Completed
    ensures var h := Reached(calls).history[id];
      && h[k].from == Some(WaitingMerge)
      && j < k && h[j].to == Queued
      && Moves(h[j + 1..k + 1]) == [Admitted, Active, WaitingReview, WaitingMerge, Completed]
  {
    LogOf(calls, id);
    hide Run, Reached, Moves, IsLog, LegalMove;
    j := CompletedAtTheEnd(Reached(calls).history[id], k);
  }

  lemma CompletedAtTheEnd(h: seq<HistoryRow>, k: nat) returns (j: nat)
    requires IsLog(h) && k < |h| && h[k].action == StatusChanged && h[k].to == Completed
    ensures h[k].from == Some(WaitingMerge) && j < k && h[j].to == Queued
    ensures Moves(h[j + 1..k + 1]) == [Admitted, Active, WaitingReview, WaitingMerge, Completed]
  {
    hide Moves;
    assert k > 0;
    assert h[k].from == Some(h[k - 1].to) && LegalMove(h[k]);
    j := StepByStep(h, k - 1);
    MovesSnoc(h, j, k);
  }
}
