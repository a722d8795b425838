/**
 The completion-review outbox: rows claimed under expiring leases, finished by the lease holder,
 and retried. Times are instants; the clock is the caller's.
 */
module ReviewOutbox {
  import opened Basics

  datatype Status = Pending | Running | Succeeded | WaitingProvider | Failed

  datatype Subject = Subject(kind: string, id: string, version: string)

  datatype Review = Review(subject: Subject, status: Status, attempts: nat, availableAt: int,
                           owner: Option<string>, expiresAt: Option<int>,
                           startedAt: Option<int>, finishedAt: Option<int>)

  datatype Rows = Rows(reviews: map<int, Review>, nextId: int)

  const EMPTY := Rows(map[], 1)

  const MIN_LEASE_MS := 1000

  datatype Error = WorkerRequired | LeaseTooShort | NotClaimed | NotRetryable

  /** What a successful call did. */
  datatype Event =
    | Enqueued(id: int, available: int)
    | Claimed(id: int, worker: string, at: int, expires: int)
    | Finished(id: int, worker: string, at: int, result: Status)
    | Retried(id: int, available: int)

  datatype Call =
    | Enqueue(subject: Subject, at: int)
    | Claim(worker: string, leaseMs: int, at: int)
    | Finish(id: int, worker: string, result: Status, at: int)
    | Retry(id: int, availableAt: int, at: int)

  datatype Answer = Row(id: int) | Nothing | Refused(error: Error)

  datatype Step = Step(rows: Rows, answer: Answer, events: seq<Event>)

  predicate Claimable(r: Review, now: int) {
    || (r.status == Pending && r.availableAt <= now)
    || (r.status == Running && r.expiresAt.Some? && r.expiresAt.value <= now)
  }

  predicate ClaimableRow(reviews: map<int, Review>, now: int, id: int) {
    id in reviews && Claimable(reviews[id], now)
  }

  /** ORDER BY available_at, id */
  predicate Precedes(reviews: map<int, Review>, a: int, b: int) {
    a in reviews && b in reviews
    && (reviews[a].availableAt < reviews[b].availableAt
        || (reviews[a].availableAt == reviews[b].availableAt && a < b))
  }

  predicate IsFirst(reviews: map<int, Review>, now: int, id: int) {
    ClaimableRow(reviews, now, id)
    && forall j | j in reviews :: ClaimableRow(reviews, now, j) && j != id ==> Precedes(reviews, id, j)
  }

  /** There is a first claimable row unless there is none at all. */
  lemma {:induction false} FirstExists(reviews: map<int, Review>, now: int, ids: set<int>) returns (first: int)
    requires ids != {} && forall j :: j in ids ==> ClaimableRow(reviews, now, j)
    ensures first in ids && forall j :: j in ids && j != first ==> Precedes(reviews, first, j)
    decreases |ids|
  {
    var id := PickOne(ids);
    if ids == {id} {
      first := id;
    } else {
      var rest := ids - {id};
      assert ids == rest + {id};
      var other := FirstExists(reviews, now, rest);
      first := if Precedes(reviews, id, other) then id else other;
    }
  }

  /** The claimable row that comes first: SELECT … ORDER BY available_at, id LIMIT 1. */
  function Candidate(reviews: map<int, Review>, now: int): (r: Option<int>)
    ensures r.Some? ==> IsFirst(reviews, now, r.value)
    ensures r.None? <==> forall j | j in reviews :: !ClaimableRow(reviews, now, j)
  {
    if exists id | id in reviews :: IsFirst(reviews, now, id) then
      FirstIsUnique(reviews, now);
      var id :| id in reviews && IsFirst(reviews, now, id);
      Some(id)
    else
      NoFirst(reviews, now);
      None
  }

  lemma NoFirst(reviews: map<int, Review>, now: int)
    requires forall id | id in reviews :: !IsFirst(reviews, now, id)
    ensures forall j | j in reviews :: !ClaimableRow(reviews, now, j)
  {
    var ids := set j | j in reviews && ClaimableRow(reviews, now, j);
    if ids != {} {
      var first := FirstExists(reviews, now, ids);
      assert IsFirst(reviews, now, first);
    }
    forall j | j in reviews ensures !ClaimableRow(reviews, now, j) {
      assert j !in ids;
    }
  }

  lemma FirstIsUnique(reviews: map<int, Review>, now: int)
    ensures forall a, b :: IsFirst(reviews, now, a) && IsFirst(reviews, now, b) ==> a == b
  {
  }

  // The operations

  /** The rows that hold a subject: one at most, by the table's unique key. */
  ghost function HeldBy(reviews: map<int, Review>, subject: Subject): set<int> {
    set id | id in reviews && reviews[id].subject == subject
  }

  ghost predicate OneRowPerSubject(reviews: map<int, Review>) {
    forall a, b :: a in reviews && b in reviews && reviews[a].subject == reviews[b].subject ==> a == b
  }

  /** INSERT, or nothing when the subject already has its row. */
  ghost function EnqueueStep(rows: Rows, subject: Subject, at: int): Step {
    if exists id :: id in HeldBy(rows.reviews, subject) then
      var id :| id in HeldBy(rows.reviews, subject);
      Step(rows, Row(id), [])
    else
      var r := Review(subject, Pending, 0, at, None, None, None, None);
      Step(Rows(rows.reviews[rows.nextId := r], rows.nextId + 1), Row(rows.nextId), [Enqueued(rows.nextId, at)])
  }

  function Leased(r: Review, worker: string, at: int, expires: int): Review {
    r.(status := Running, attempts := r.attempts + 1, owner := Some(worker), expiresAt := Some(expires),
       startedAt := if r.startedAt.Some? then r.startedAt else Some(at), finishedAt := None)
  }

  function ClaimStep(rows: Rows, worker: string, leaseMs: int, at: int): Step {
    if worker == "" then Step(rows, Refused(WorkerRequired), [])
    else if leaseMs < MIN_LEASE_MS then Step(rows, Refused(LeaseTooShort), [])
    else
      match Candidate(rows.reviews, at)
      case None => Step(rows, Nothing, [])
      case Some(id) =>
        var r := Leased(rows.reviews[id], worker, at, at + leaseMs);
        Step(rows.(reviews := rows.reviews[id := r]), Row(id), [Claimed(id, worker, at, at + leaseMs)])
  }

  predicate Outcome(result: Status) {
    result in {Succeeded, WaitingProvider, Failed}
  }

  function FinishStep(rows: Rows, id: int, worker: string, result: Status, at: int): Step {
    if id in rows.reviews && rows.reviews[id].status == Running && rows.reviews[id].owner == Some(worker)
       && rows.reviews[id].expiresAt.Some? && at < rows.reviews[id].expiresAt.value && Outcome(result)
    then
      var r := rows.reviews[id].(status := result, owner := None, expiresAt := None,
                                 finishedAt := if result == WaitingProvider then None else Some(at));
      Step(rows.(reviews := rows.reviews[id := r]), Row(id), [Finished(id, worker, at, result)])
    else Step(rows, Refused(NotClaimed), [])
  }

  function RetryStep(rows: Rows, id: int, availableAt: int): Step {
    if id in rows.reviews && rows.reviews[id].status in {WaitingProvider, Failed} then
      var r := rows.reviews[id].(status := Pending, availableAt := availableAt, owner := None, expiresAt := None,
                                 finishedAt := None);
      Step(rows.(reviews := rows.reviews[id := r]), Row(id), [Retried(id, availableAt)])
    else Step(rows, Refused(NotRetryable), [])
  }

  ghost function Apply(rows: Rows, c: Call): Step {
    match c
    case Enqueue(subject, at) => EnqueueStep(rows, subject, at)
    case Claim(worker, leaseMs, at) => ClaimStep(rows, worker, leaseMs, at)
    case Finish(id, worker, result, at) => FinishStep(rows, id, worker, result, at)
    case Retry(id, availableAt, _) => RetryStep(rows, id, availableAt)
  }

  // Runs and their traces

  ghost function Reached(calls: seq<Call>): Rows {
    if calls == [] then EMPTY else Apply(Reached(calls[..|calls| - 1]), calls[|calls| - 1]).rows
  }

  ghost function Trace(calls: seq<Call>): seq<Event> {
    if calls == [] then []
    else Trace(calls[..|calls| - 1]) + Apply(Reached(calls[..|calls| - 1]), calls[|calls| - 1]).events
  }

  /** The last thing that happened to row `id`. */
  function Latest(trace: seq<Event>, id: int): Option<Event> {
    if trace == [] then None
    else if trace[|trace| - 1].id == id then Some(trace[|trace| - 1])
    else Latest(trace[..|trace| - 1], id)
  }

  function Claims(trace: seq<Event>, id: int): nat {
    if trace == [] then 0
    else
      Claims(trace[..|trace| - 1], id)
        + if trace[|trace| - 1].Claimed? && trace[|trace| - 1].id == id then 1 else 0
  }

  function Earlier(a: Option<int>, b: Option<int>): Option<int> {
    if a.Some? then a else b
  }

  function ClaimedAt(e: Event, id: int): Option<int> {
    if e.Claimed? && e.id == id then Some(e.at) else None
  }

  /** When row `id` was first claimed. */
  function FirstClaim(trace: seq<Event>, id: int): Option<int> {
    if trace == [] then None
    else
      var last := trace[|trace| - 1];
      Earlier(FirstClaim(trace[..|trace| - 1], id), ClaimedAt(last, id))
  }

  /** The time from which an event makes row `id` claimable. */
  function OfferedAt(e: Event, id: int): Option<int> {
    if (e.Enqueued? || e.Retried?) && e.id == id then Some(e.available) else None
  }

  /** Since when row `id` may be claimed, by its enqueueing or its last retry. */
  function Available(trace: seq<Event>, id: int): Option<int> {
    if trace == [] then None
    else
      var last := trace[|trace| - 1];
      Earlier(OfferedAt(last, id), Available(trace[..|trace| - 1], id))
  }

  /** The row agrees with what the trace says about it. */
  ghost predicate Mirrors(r: Review, trace: seq<Event>, id: int) {
    && r.attempts == Claims(trace, id)
    && r.startedAt == FirstClaim(trace, id) && Some(r.availableAt) == Available(trace, id)
    && (r.status == Running <==> r.owner.Some?) && (r.status == Running <==> r.expiresAt.Some?)
    && (r.finishedAt.Some? <==> r.status == Succeeded || r.status == Failed)
    && match Latest(trace, id)
       case None => false
       case Some(Enqueued(_, _)) => r.status == Pending
       case Some(Retried(_, _)) => r.status == Pending
       case Some(Claimed(_, worker, _, expires)) =>
         r.status == Running && r.owner == Some(worker) && r.expiresAt == Some(expires)
       case Some(Finished(_, _, at, result)) =>
         r.status == result && Outcome(result) && (r.finishedAt.Some? ==> r.finishedAt == Some(at))
  }

  /** An event is legal after a trace: only the latest claimant finishes, in time; nobody claims over a live lease. */
  predicate Legal(trace: seq<Event>, e: Event) {
    match e
    case Enqueued(id, _) => Latest(trace, id).None?
    case Claimed(id, _, at, expires) =>
      at + MIN_LEASE_MS <= expires
      && (match Latest(trace, id)
          case Some(Enqueued(_, _)) => true
          case Some(Retried(_, _)) => true
          case Some(Claimed(_, _, _, lapsed)) => lapsed <= at
          case _ => false)
    case Finished(id, worker, at, result) =>
      Outcome(result)
      && (match Latest(trace, id)
          case Some(Claimed(_, holder, _, expires)) => holder == worker && at < expires
          case _ => false)
    case Retried(id, _) =>
      match Latest(trace, id)
      case Some(Finished(_, _, _, result)) => result != Succeeded
      case _ => false
  }

  ghost predicate Agrees(rows: Rows, trace: seq<Event>) {
    && (forall id :: id in rows.reviews ==> id < rows.nextId && Mirrors(rows.reviews[id], trace, id))
    && (forall id :: Latest(trace, id).Some? ==> id in rows.reviews)
    && OneRowPerSubject(rows.reviews)
  }

  lemma OneMoreEvent(trace: seq<Event>, e: Event)
    ensures forall id :: Latest(trace + [e], id) == if e.id == id then Some(e) else Latest(trace, id)
    ensures forall id :: Claims(trace + [e], id) == Claims(trace, id) + if e.Claimed? && e.id == id then 1 else 0
    ensures forall id :: FirstClaim(trace + [e], id) == Earlier(FirstClaim(trace, id), ClaimedAt(e, id))
    ensures forall id :: Available(trace + [e], id) == Earlier(OfferedAt(e, id), Available(trace, id))
  {
    assert (trace + [e])[..|trace + [e]| - 1] == trace;
  }

  lemma NeverSeen(trace: seq<Event>, id: int)
    requires Latest(trace, id).None?
    ensures Claims(trace, id) == 0 && FirstClaim(trace, id).None?
  {
    if trace != [] {
      NeverSeen(trace[..|trace| - 1], id);
    }
  }

  /** A row changed in step with its event keeps rows and trace in agreement. */
  lemma RowChanges(rows: Rows, trace: seq<Event>, e: Event, r: Review)
    requires Agrees(rows, trace) && e.id in rows.reviews && rows.reviews[e.id].subject == r.subject
    requires Mirrors(r, trace + [e], e.id)
    ensures Agrees(rows.(reviews := rows.reviews[e.id := r]), trace + [e])
  {
    OneMoreEvent(trace, e);
    var after := rows.(reviews := rows.reviews[e.id := r]);
    forall id | id in after.reviews ensures id < after.nextId && Mirrors(after.reviews[id], trace + [e], id) {
      if id != e.id {
        assert Mirrors(rows.reviews[id], trace, id);
      }
    }
  }

  lemma RowAppears(rows: Rows, trace: seq<Event>, subject: Subject, at: int)
    requires Agrees(rows, trace) && forall id :: id !in HeldBy(rows.reviews, subject)
    ensures var step := EnqueueStep(rows, subject, at);
      Agrees(step.rows, trace + step.events) && |step.events| == 1 && Legal(trace, step.events[0])
  {
    var step := EnqueueStep(rows, subject, at);
    var id := rows.nextId;
    OneMoreEvent(trace, Enqueued(id, at));
    NeverSeen(trace, id);
    assert forall a :: a in rows.reviews && rows.reviews[a].subject == subject ==> a in HeldBy(rows.reviews, subject);
    forall a | a in step.rows.reviews
      ensures a < step.rows.nextId && Mirrors(step.rows.reviews[a], trace + [Enqueued(id, at)], a)
    {
      if a != id {
        assert Mirrors(rows.reviews[a], trace, a);
      }
    }
  }

  lemma ClaimAgrees(rows: Rows, trace: seq<Event>, worker: string, leaseMs: int, at: int)
    requires Agrees(rows, trace) && ClaimStep(rows, worker, leaseMs, at).events != []
    ensures var step := ClaimStep(rows, worker, leaseMs, at);
      Agrees(step.rows, trace + step.events) && |step.events| == 1 && Legal(trace, step.events[0])
  {
    var e := ClaimStep(rows, worker, leaseMs, at).events[0];
    OneMoreEvent(trace, e);
    assert Mirrors(rows.reviews[e.id], trace, e.id);
    RowChanges(rows, trace, e, Leased(rows.reviews[e.id], worker, at, at + leaseMs));
  }

  lemma FinishAgrees(rows: Rows, trace: seq<Event>, id: int, worker: string, result: Status, at: int)
    requires Agrees(rows, trace) && FinishStep(rows, id, worker, result, at).events != []
    ensures var step := FinishStep(rows, id, worker, result, at);
      Agrees(step.rows, trace + step.events) && |step.events| == 1 && Legal(trace, step.events[0])
  {
    var step := FinishStep(rows, id, worker, result, at);
    OneMoreEvent(trace, step.events[0]);
    assert Mirrors(rows.reviews[id], trace, id);
    RowChanges(rows, trace, step.events[0], step.rows.reviews[id]);
  }

  lemma RetryAgrees(rows: Rows, trace: seq<Event>, id: int, availableAt: int)
    requires Agrees(rows, trace) && RetryStep(rows, id, availableAt).events != []
    ensures var step := RetryStep(rows, id, availableAt);
      Agrees(step.rows, trace + step.events) && |step.events| == 1 && Legal(trace, step.events[0])
  {
    var step := RetryStep(rows, id, availableAt);
    OneMoreEvent(trace, step.events[0]);
    assert Mirrors(rows.reviews[id], trace, id);
    RowChanges(rows, trace, step.events[0], step.rows.reviews[id]);
  }

  lemma QuietStep(rows: Rows, c: Call)
    requires Apply(rows, c).events == []
    ensures Apply(rows, c).rows == rows
  {
  }

  /** Every call keeps rows and trace in agreement, and adds at most one event, which is legal. */
  lemma StepAgrees(rows: Rows, trace: seq<Event>, c: Call)
    requires Agrees(rows, trace)
    ensures var step := Apply(rows, c);
      && Agrees(step.rows, trace + step.events)
      && |step.events| <= 1 && (step.events != [] ==> Legal(trace, step.events[0]))
  {
    var step := Apply(rows, c);
    if step.events == [] {
      QuietStep(rows, c);
      assert trace + step.events == trace;
    } else {
      match c
      case Enqueue(subject, at) => RowAppears(rows, trace, subject, at);
      case Claim(worker, leaseMs, at) => ClaimAgrees(rows, trace, worker, leaseMs, at);
      case Finish(id, worker, result, at) => FinishAgrees(rows, trace, id, worker, result, at);
      case Retry(id, availableAt, _) => RetryAgrees(rows, trace, id, availableAt);
    }
  }

  lemma {:induction false} RowsMirrorTrace(calls: seq<Call>)
    ensures Agrees(Reached(calls), Trace(calls))
  {
    if calls != [] {
      RowsMirrorTrace(calls[..|calls| - 1]);
      StepAgrees(Reached(calls[..|calls| - 1]), Trace(calls[..|calls| - 1]), calls[|calls| - 1]);
    }
  }

  ghost predicate LegalTrace(trace: seq<Event>) {
    forall k :: 0 <= k < |trace| ==> Legal(trace[..k], trace[k])
  }

  /** Every event of every run is legal. */
  lemma {:induction false} TraceIsLegal(calls: seq<Call>)
    ensures LegalTrace(Trace(calls))
  {
    if calls != [] {
      var init := calls[..|calls| - 1];
      TraceIsLegal(init);
      RowsMirrorTrace(init);
      StepAgrees(Reached(init), Trace(init), calls[|calls| - 1]);
      forall k | 0 <= k < |Trace(calls)| ensures Legal(Trace(calls)[..k], Trace(calls)[k]) {
        if k < |Trace(init)| {
          assert Trace(calls)[..k] == Trace(init)[..k];
        } else {
          assert Trace(calls)[..k] == Trace(init);
        }
      }
    }
  }

  /**
   Fencing, as the caller sees it: a finish succeeds if and only if the last thing that happened to
   the row is a claim by this worker whose lease has not expired.
   */
  lemma FinishIsFenced(calls: seq<Call>, id: int, worker: string, result: Status, at: int)
    requires Outcome(result)
    ensures var latest := Latest(Trace(calls), id);
      FinishStep(Reached(calls), id, worker, result, at).answer == Row(id)
      <==> latest.Some? && latest.value.Claimed? && latest.value.worker == worker && at < latest.value.expires
  {
    RowsMirrorTrace(calls);
  }

  /**
   What a row says about its past: its attempts are its claims, it started with the first of them,
   and it is owned while it runs.
   */
  lemma AttemptsCountClaims(calls: seq<Call>, id: int)
    requires id in Reached(calls).reviews
    ensures var r := Reached(calls).reviews[id]; var trace := Trace(calls);
      && r.attempts == Claims(trace, id)
      && r.startedAt == FirstClaim(trace, id) && Some(r.availableAt) == Available(trace, id)
      && (r.status == Running <==> r.owner.Some?) && (r.status == Running <==> r.expiresAt.Some?)
      && (r.finishedAt.Some? <==> r.status == Succeeded || r.status == Failed)
  {
    RowsMirrorTrace(calls);
  }

  // What legal traces exclude

  lemma {:induction false} LatestAt(trace: seq<Event>, id: int) returns (k: nat)
    requires Latest(trace, id).Some?
    ensures k < |trace| && trace[k] == Latest(trace, id).value && trace[k].id == id
    ensures forall j :: k < j < |trace| ==> trace[j].id != id
  {
    if trace[|trace| - 1].id == id {
      k := |trace| - 1;
    } else {
      k := LatestAt(trace[..|trace| - 1], id);
    }
  }

  /** The latest event of a row that has one at `i` is at `i` or later. */
  lemma {:induction false} LatestSince(trace: seq<Event>, j: nat, id: int, i: nat) returns (k: nat)
    requires i < j <= |trace| && trace[i].id == id
    ensures i <= k < j && Latest(trace[..j], id) == Some(trace[k]) && trace[k].id == id
  {
    if trace[j - 1].id == id {
      k := j - 1;
    } else {
      k := LatestSince(trace, j - 1, id, i);
      assert trace[..j][..j - 1] == trace[..j - 1];
    }
  }

  /** Between two finishes of a row its finisher claims it again: no attempt is finished twice. */
  lemma OneFinishPerClaim(trace: seq<Event>, i: nat, j: nat) returns (k: nat)
    requires LegalTrace(trace) && i < j < |trace|
    requires trace[i].Finished? && trace[j].Finished? && trace[i].id == trace[j].id
    ensures i < k < j && trace[k].Claimed? && trace[k].id == trace[j].id && trace[k].worker == trace[j].worker
    ensures trace[j].at < trace[k].expires
  {
    assert Legal(trace[..j], trace[j]);
    k := LatestSince(trace, j, trace[j].id, i);
  }

  /**
   A claim that is finished was the last one: once another worker claims the row, its former worker
   cannot finish it.
   */
  lemma FinisherIsLatestClaimant(trace: seq<Event>, j: nat) returns (i: nat)
    requires LegalTrace(trace) && j < |trace| && trace[j].Finished?
    ensures i < j && trace[i].Claimed? && trace[i].id == trace[j].id
    ensures trace[i].worker == trace[j].worker && trace[j].at < trace[i].expires
    ensures forall k :: i < k < j ==> trace[k].id != trace[j].id
  {
    assert Legal(trace[..j], trace[j]);
    i := LatestAt(trace[..j], trace[j].id);
    assert forall k :: i < k < j ==> trace[k] == trace[..j][k];
  }

  /** Two leases of one row never overlap: the earlier one was finished, or had expired when it was next claimed. */
  lemma {:induction false} LeasesDoNotOverlap(trace: seq<Event>, i: nat, j: nat) returns (k: nat)
    requires LegalTrace(trace) && i < j < |trace| && trace[i].Claimed? && trace[j].Claimed?
    requires trace[i].id == trace[j].id
    ensures i < k <= j && trace[k].id == trace[i].id
    ensures trace[k].Finished? || (trace[k].Claimed? && trace[i].expires <= trace[k].at)
    decreases j
  {
    assert Legal(trace[..j], trace[j]);
    var m := LatestSince(trace, j, trace[j].id, i);
    if m == i {
      k := j;
    } else if trace[m].Claimed? {
      k := LeasesDoNotOverlap(trace, i, m);
    } else {
      k := RetriedAfterFinish(trace, i, m);
    }
  }

  lemma RetriedAfterFinish(trace: seq<Event>, i: nat, m: nat) returns (k: nat)
    requires LegalTrace(trace) && i < m < |trace| && trace[i].Claimed? && trace[m].id == trace[i].id
    requires !trace[m].Claimed?
    ensures i < k <= m && trace[k].Finished? && trace[k].id == trace[i].id
  {
    assert Legal(trace[..m], trace[m]);
    k := LatestSince(trace, m, trace[m].id, i);
    if trace[m].Finished? {
      k := m;
    }
  }

  /** Succeeded is absorbing: nothing happens to the row afterwards. */
  lemma {:induction false} SucceededIsFinal(trace: seq<Event>, i: nat, j: nat)
    requires LegalTrace(trace) && i < j < |trace| && trace[i].Finished? && trace[i].result == Succeeded
    ensures trace[j].id != trace[i].id
    decreases j
  {
    if trace[j].id == trace[i].id {
      assert Legal(trace[..j], trace[j]);
      var k := LatestSince(trace, j, trace[j].id, i);
      if k > i {
        SucceededIsFinal(trace, i, k);
      }
    }
  }

  // Draining the queue

  /** The answers to claims made one after another at one instant. */
  function Drain(rows: Rows, at: int, claims: seq<(string, int)>): seq<Answer>
    decreases |claims|
  {
    if claims == [] then []
    else
      var step := ClaimStep(rows, claims[0].0, claims[0].1, at);
      [step.answer] + Drain(step.rows, at, claims[1..])
  }

  predicate WellFormed(claims: seq<(string, int)>) {
    forall k :: 0 <= k < |claims| ==> claims[k].0 != "" && claims[k].1 >= MIN_LEASE_MS
  }

  /** The claimable rows, each once, in claim order. */
  ghost predicate IsLine(reviews: map<int, Review>, at: int, line: seq<int>) {
    && (forall id :: id in line <==> ClaimableRow(reviews, at, id))
    && (forall i, j :: 0 <= i < j < |line| ==> line[i] != line[j] && Precedes(reviews, line[i], line[j]))
  }

  /** Claiming the first row of the line leaves the rest of it, because a new lease has not expired yet. */
  lemma ClaimTakesTheFirst(rows: Rows, worker: string, leaseMs: int, at: int, line: seq<int>)
    requires worker != "" && leaseMs >= MIN_LEASE_MS && IsLine(rows.reviews, at, line)
    ensures var step := ClaimStep(rows, worker, leaseMs, at);
      if line == [] then step.rows == rows && step.answer == Nothing
      else step.answer == Row(line[0]) && IsLine(step.rows.reviews, at, line[1..])
  {
    var step := ClaimStep(rows, worker, leaseMs, at);
    if line != [] {
      assert line[0] in line;
      assert IsFirst(rows.reviews, at, line[0]);
      FirstIsUnique(rows.reviews, at);
      var rest := line[1..];
      assert line == [line[0]] + rest;
      assert line[0] !in rest by {
        assert forall k :: 0 <= k < |rest| ==> rest[k] == line[k + 1];
      }
      forall id ensures id in rest <==> ClaimableRow(step.rows.reviews, at, id) {
        assert id in line <==> id == line[0] || id in rest;
      }
    } else {
      forall id | id in rows.reviews ensures !ClaimableRow(rows.reviews, at, id) {
        assert id !in line;
      }
    }
  }

  /**
   Repeated claims at one instant, whoever makes them and for whatever lease, return the claimable
   rows in order, each once, and then nothing.
   */
  lemma {:induction false} DrainFollowsTheLine(rows: Rows, at: int, claims: seq<(string, int)>, line: seq<int>)
    requires WellFormed(claims) && IsLine(rows.reviews, at, line)
    ensures |Drain(rows, at, claims)| == |claims|
    ensures forall k :: 0 <= k < |claims| ==> Drain(rows, at, claims)[k] == if k < |line| then Row(line[k]) else Nothing
    decreases |claims|
  {
    if claims != [] {
      var (worker, leaseMs) := claims[0];
      var step := ClaimStep(rows, worker, leaseMs, at);
      ClaimTakesTheFirst(rows, worker, leaseMs, at, line);
      var rest := if line == [] then [] else line[1..];
      DrainFollowsTheLine(step.rows, at, claims[1..], rest);
      var answers := Drain(step.rows, at, claims[1..]);
      assert Drain(rows, at, claims) == [step.answer] + answers;
      forall k | 0 < k < |claims| ensures ([step.answer] + answers)[k] == if k < |line| then Row(line[k]) else Nothing {
        assert ([step.answer] + answers)[k] == answers[k - 1];
      }
    }
  }

  /** Every table has a line. */
  lemma {:induction false} LineExists(reviews: map<int, Review>, at: int, ids: set<int>) returns (line: seq<int>)
    requires forall id :: id in ids ==> ClaimableRow(reviews, at, id)
    ensures forall id :: id in line <==> id in ids
    ensures forall i, j :: 0 <= i < j < |line| ==> line[i] != line[j] && Precedes(reviews, line[i], line[j])
    decreases |ids|
  {
    if ids == {} {
      line := [];
    } else {
      var first := FirstExists(reviews, at, ids);
      var rest := LineExists(reviews, at, ids - {first});
      line := [first] + rest;
      forall i, j | 0 <= i < j < |line| ensures line[i] != line[j] && Precedes(reviews, line[i], line[j]) {
        assert line[j] == rest[j - 1] && rest[j - 1] in rest;
      }
    }
  }

  /** Enough claims at one instant empty the queue: all of it, nothing twice. */
  lemma DrainEmptiesTheQueue(rows: Rows, at: int, claims: seq<(string, int)>)
    requires WellFormed(claims) && |claims| > |rows.reviews|
    ensures forall id :: ClaimableRow(rows.reviews, at, id) <==> Row(id) in Drain(rows, at, claims)
    ensures |Drain(rows, at, claims)| == |claims| && Drain(rows, at, claims)[|claims| - 1] == Nothing
  {
    var line := LineExists(rows.reviews, at, set id | id in rows.reviews && ClaimableRow(rows.reviews, at, id));
    DrainFollowsTheLine(rows, at, claims, line);
    LineFits(rows.reviews.Keys, line);
    var answers := Drain(rows, at, claims);
    forall id ensures ClaimableRow(rows.reviews, at, id) <==> Row(id) in answers {
      if ClaimableRow(rows.reviews, at, id) {
        assert id in line;
        var k :| 0 <= k < |line| && line[k] == id;
        assert answers[k] == Row(id);
      }
    }
  }

  lemma {:induction false} LineFits(ids: set<int>, line: seq<int>)
    requires forall id :: id in line ==> id in ids
    requires forall i, j :: 0 <= i < j < |line| ==> line[i] != line[j]
    ensures |line| <= |ids|
    decreases |line|
  {
    if line != [] {
      var rest := line[1..];
      assert line[0] in line;
      forall id | id in rest ensures id in ids - {line[0]} {
        var k :| 0 <= k < |rest| && rest[k] == id;
        assert line[k + 1] == id && line[0] != line[k + 1];
      }
      LineFits(ids - {line[0]}, rest);
      assert ids == ids - {line[0]} + {line[0]};
    }
  }

  /** The outbox table, and the trace of what was done to it. */
  class Outbox {
    var reviews: map<int, Review>
    var nextId: int
    ghost var trace: seq<Event>

    ghost function Table(): Rows
      reads this
    {
      Rows(reviews, nextId)
    }

    ghost predicate Valid()
      reads this
    {
      Agrees(Table(), trace) && LegalTrace(trace)
    }

    constructor ()
      ensures Valid() && Table() == EMPTY && trace == []
    {
      reviews := map[];
      nextId := 1;
      trace := [];
    }

    ghost method Record(c: Call, before: Rows)
      requires Agrees(before, trace) && LegalTrace(trace) && Table() == Apply(before, c).rows
      modifies this`trace
      ensures Valid() && trace == old(trace) + Apply(before, c).events
    {
      StepAgrees(before, trace, c);
      var events := Apply(before, c).events;
      forall k | 0 <= k < |trace + events| ensures Legal((trace + events)[..k], (trace + events)[k]) {
        if k < |trace| {
          assert (trace + events)[..k] == trace[..k];
        } else {
          assert (trace + events)[..k] == trace;
        }
      }
      trace := trace + events;
    }

    method EnqueueFeatureCompletionReview(subject: Subject, at: int) returns (id: int)
      requires Valid()
      modifies this
      ensures var step := EnqueueStep(old(Table()), subject, at);
        Valid() && Table() == step.rows && Row(id) == step.answer && trace == old(trace) + step.events
      ensures id in reviews && reviews[id].subject == subject
    {
      ghost var before := Table();
      if known :| known in reviews && reviews[known].subject == subject {
        assert known in HeldBy(before.reviews, subject);
        id := known;
      } else {
        id := nextId;
        reviews, nextId := reviews[id := Review(subject, Pending, 0, at, None, None, None, None)], nextId + 1;
      }
      Record(Enqueue(subject, at), before);
    }

    method ClaimCompletionReview(worker: string, leaseMs: int, at: int) returns (answer: Answer)
      requires Valid()
      modifies this
      ensures var step := ClaimStep(old(Table()), worker, leaseMs, at);
        Valid() && Table() == step.rows && answer == step.answer && trace == old(trace) + step.events
    {
      ghost var before := Table();
      if worker == "" {
        answer := Refused(WorkerRequired);
      } else if leaseMs < MIN_LEASE_MS {
        answer := Refused(LeaseTooShort);
      } else {
        var candidate := Candidate(reviews, at);
        if candidate.None? {
          answer := Nothing;
        } else {
          var id := candidate.value;
          reviews := reviews[id := Leased(reviews[id], worker, at, at + leaseMs)];
          answer := Row(id);
        }
      }
      Record(Claim(worker, leaseMs, at), before);
    }

    method FinishCompletionReview(id: int, worker: string, result: Status, at: int) returns (answer: Answer)
      requires Valid() && Outcome(result)
      modifies this
      ensures var step := FinishStep(old(Table()), id, worker, result, at);
        Valid() && Table() == step.rows && answer == step.answer && trace == old(trace) + step.events
      ensures var latest := Latest(old(trace), id);
        answer == Row(id)
        <==> latest.Some? && latest.value.Claimed? && latest.value.worker == worker && at < latest.value.expires
    {
      ghost var before := Table();
      answer := Refused(NotClaimed);
      if id in reviews {
        var r := reviews[id];
        if r.status == Running && r.owner == Some(worker) && r.expiresAt.Some? && at < r.expiresAt.value {
          reviews := reviews[id := r.(status := result, owner := None, expiresAt := None,
                                      finishedAt := if result == WaitingProvider then None else Some(at))];
          answer := Row(id);
        }
      }
      Record(Finish(id, worker, result, at), before);
    }

    method RetryCompletionReview(id: int, availableAt: int, at: int) returns (answer: Answer)
      requires Valid()
      modifies this
      ensures var step := RetryStep(old(Table()), id, availableAt);
        Valid() && Table() == step.rows && answer == step.answer && trace == old(trace) + step.events
    {
      ghost var before := Table();
      answer := Refused(NotRetryable);
      if id in reviews && (reviews[id].status == WaitingProvider || reviews[id].status == Failed) {
        reviews := reviews[id := reviews[id].(status := Pending, availableAt := availableAt, owner := None,
                                              expiresAt := None, finishedAt := None)];
        answer := Row(id);
      }
      Record(Retry(id, availableAt, at), before);
    }
  }
}
