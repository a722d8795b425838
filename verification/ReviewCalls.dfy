/**
 What the outbox promises the caller of each operation, in terms of the arguments of the call and
 until another call is made on the row.
 */
module ReviewCalls {
  import opened Basics
  import opened ReviewOutbox

  /** One call after the other. */
  ghost function After(rows: Rows, calls: seq<Call>): Rows {
    if calls == [] then rows else Apply(After(rows, calls[..|calls| - 1]), calls[|calls| - 1]).rows
  }

  /** Ids are handed out once. */
  ghost predicate Fresh(rows: Rows) {
    forall id :: id in rows.reviews ==> id < rows.nextId
  }

  lemma FreshStep(rows: Rows, c: Call)
    requires Fresh(rows)
    ensures Fresh(Apply(rows, c).rows)
  {
  }

  lemma {:induction false} ReachedIsFresh(calls: seq<Call>)
    ensures Fresh(Reached(calls))
  {
    RowsMirrorTrace(calls);
  }

  ghost function AnswerTo(rows: Rows, c: Call): Answer {
    Apply(rows, c).answer
  }

  /** A claim that is made is refused exactly for its worker or its lease. */
  lemma ClaimIsRefusedIff(rows: Rows, worker: string, leaseMs: int, at: int)
    ensures AnswerTo(rows, Claim(worker, leaseMs, at)).Refused? <==> worker == "" || leaseMs < 1000
    ensures AnswerTo(rows, Claim(worker, leaseMs, at)).Refused? ==> Apply(rows, Claim(worker, leaseMs, at)).rows == rows
  {
  }

  /** The row is waiting to be claimed from `from` on. */
  predicate Offers(rows: Rows, id: int, from: int) {
    id in rows.reviews && rows.reviews[id].status == Pending && rows.reviews[id].availableAt == from
  }

  /** The row is claimed by `worker` until `until`. */
  predicate Leases(rows: Rows, id: int, worker: string, until: int) {
    && id in rows.reviews && rows.reviews[id].status == Running
    && rows.reviews[id].owner == Some(worker) && rows.reviews[id].expiresAt == Some(until)
  }

  /** The row was finished with `result` at `at`; a row that waits for its provider has no end yet. */
  predicate Rests(rows: Rows, id: int, result: Status, at: int) {
    && id in rows.reviews && rows.reviews[id].status == result
    && rows.reviews[id].finishedAt == if result == WaitingProvider then None else Some(at)
  }

  // The line

  /** Every row that a claim could have had instead has been available for less long, or is younger. */
  lemma ClaimsInOrder(rows: Rows, worker: string, leaseMs: int, at: int, id: int, other: int)
    requires AnswerTo(rows, Claim(worker, leaseMs, at)) == Row(id)
    requires other != id && other in rows.reviews
    requires var r := rows.reviews[other];
      || (r.status == Pending && r.availableAt <= at)
      || (r.status == Running && r.expiresAt.Some? && r.expiresAt.value <= at)
    ensures id in rows.reviews
    ensures rows.reviews[id].availableAt < rows.reviews[other].availableAt
      || (rows.reviews[id].availableAt == rows.reviews[other].availableAt && id < other)
  {
    assert ClaimableRow(rows.reviews, at, other);
  }

  /** A claim that is in order has an answer when there is a row to claim: that one, or one that precedes it. */
  lemma SomeRowIsClaimed(rows: Rows, worker: string, leaseMs: int, at: int, id: int)
    requires worker != "" && leaseMs >= 1000 && ClaimableRow(rows.reviews, at, id)
    ensures var answer := AnswerTo(rows, Claim(worker, leaseMs, at));
      answer.Row? && (answer.id == id || Precedes(rows.reviews, answer.id, id))
  {
  }

  // A claim

  /** A call that does not touch the lease: no claim from its end on, and no finish by its holder. */
  predicate LeavesLease(c: Call, id: int, worker: string, until: int) {
    (c.Claim? ==> c.at < until) && !(c.Finish? && c.id == id && c.worker == worker)
  }

  lemma LeaseStep(rows: Rows, c: Call, id: int, worker: string, until: int)
    requires Fresh(rows) && Leases(rows, id, worker, until) && LeavesLease(c, id, worker, until)
    ensures Leases(Apply(rows, c).rows, id, worker, until) && (c.Claim? ==> Apply(rows, c).answer != Row(id))
  {
  }

  lemma {:induction false} LeaseStands(rows: Rows, calls: seq<Call>, id: int, worker: string, until: int)
    requires Fresh(rows) && Leases(rows, id, worker, until)
    requires forall n :: 0 <= n < |calls| ==> LeavesLease(calls[n], id, worker, until)
    ensures Fresh(After(rows, calls)) && Leases(After(rows, calls), id, worker, until)
    decreases |calls|
  {
    if calls != [] {
      LeaseStands(rows, calls[..|calls| - 1], id, worker, until);
      FreshStep(After(rows, calls[..|calls| - 1]), calls[|calls| - 1]);
      LeaseStep(After(rows, calls[..|calls| - 1]), calls[|calls| - 1], id, worker, until);
    }
  }

  /** What a lease means to every caller. */
  lemma LeaseMeans(rows: Rows, id: int, worker: string, until: int)
    requires Leases(rows, id, worker, until)
    ensures forall w, leaseMs, t :: t < until ==> AnswerTo(rows, Claim(w, leaseMs, t)) != Row(id)
    ensures forall w, leaseMs, t :: until <= t && w != "" && leaseMs >= 1000 ==>
        var answer := AnswerTo(rows, Claim(w, leaseMs, t));
        answer.Row? && (answer.id == id || Precedes(rows.reviews, answer.id, id))
    ensures forall w, result, t :: result in {Succeeded, WaitingProvider, Failed} ==>
        (AnswerTo(rows, Finish(id, w, result, t)) == Row(id) <==> w == worker && t < until)
  {
    forall w, leaseMs, t | until <= t && w != "" && leaseMs >= 1000
      ensures var answer := AnswerTo(rows, Claim(w, leaseMs, t));
        answer.Row? && (answer.id == id || Precedes(rows.reviews, answer.id, id))
    {
      SomeRowIsClaimed(rows, w, leaseMs, t, id);
    }
  }

  /**
   A claim holds its row for as long as it asked: until then no claim returns the row and a finish is
   accepted from this worker only, whatever is called in between short of that finish; from then on
   nobody can finish it, and a claim returns it unless it returns a row that precedes it.
   */
  lemma ClaimHolds(before: seq<Call>, worker: string, leaseMs: int, at: int, id: int, calls: seq<Call>)
    requires AnswerTo(Reached(before), Claim(worker, leaseMs, at)) == Row(id)
    requires forall n :: 0 <= n < |calls| ==> LeavesLease(calls[n], id, worker, at + leaseMs)
    ensures var later := After(Apply(Reached(before), Claim(worker, leaseMs, at)).rows, calls);
      && (forall w, l, t :: t < at + leaseMs ==> AnswerTo(later, Claim(w, l, t)) != Row(id))
      && (forall w, result, t :: result in {Succeeded, WaitingProvider, Failed} ==>
            (AnswerTo(later, Finish(id, w, result, t)) == Row(id) <==> w == worker && t < at + leaseMs))
      && (forall w, l, t :: at + leaseMs <= t && w != "" && l >= 1000 ==>
            var answer := AnswerTo(later, Claim(w, l, t));
            answer.Row? && (answer.id == id || Precedes(later.reviews, answer.id, id)))
  {
    hide Apply, Reached, After, Leases;
    var rows := Reached(before);
    var claimed := Apply(rows, Claim(worker, leaseMs, at)).rows;
    ReachedIsFresh(before);
    FreshStep(rows, Claim(worker, leaseMs, at));
    ClaimLeases(rows, worker, leaseMs, at, id);
    LeaseStands(claimed, calls, id, worker, at + leaseMs);
    LeaseMeans(After(claimed, calls), id, worker, at + leaseMs);
  }

  lemma ClaimLeases(rows: Rows, worker: string, leaseMs: int, at: int, id: int)
    requires AnswerTo(rows, Claim(worker, leaseMs, at)) == Row(id)
    ensures Leases(Apply(rows, Claim(worker, leaseMs, at)).rows, id, worker, at + leaseMs)
  {
  }

  // An offer

  predicate LeavesOffer(c: Call, from: int) {
    c.Claim? ==> c.at < from
  }

  lemma OfferStep(rows: Rows, c: Call, id: int, from: int)
    requires Fresh(rows) && Offers(rows, id, from) && LeavesOffer(c, from)
    ensures Offers(Apply(rows, c).rows, id, from)
  {
  }

  lemma {:induction false} OfferStands(rows: Rows, calls: seq<Call>, id: int, from: int)
    requires Fresh(rows) && Offers(rows, id, from)
    requires forall n :: 0 <= n < |calls| ==> LeavesOffer(calls[n], from)
    ensures Fresh(After(rows, calls)) && Offers(After(rows, calls), id, from)
    decreases |calls|
  {
    if calls != [] {
      OfferStands(rows, calls[..|calls| - 1], id, from);
      FreshStep(After(rows, calls[..|calls| - 1]), calls[|calls| - 1]);
      OfferStep(After(rows, calls[..|calls| - 1]), calls[|calls| - 1], id, from);
    }
  }

  /** The first enqueueing of a subject, or an accepted retry, which offers the row from a given time on. */
  predicate OffersFrom(rows: Rows, c: Call, id: int, from: int) {
    match c
    case Enqueue(subject, at) =>
      from == at && forall known | known in rows.reviews :: rows.reviews[known].subject != subject
    case Retry(row, availableAt, _) => row == id && from == availableAt
    case _ => false
  }

  /**
   A row that was enqueued or retried is claimed from the time given on, and not before, whatever is
   called in between: until then no claim returns it, and from then on a claim returns it unless it
   returns a row that precedes it.
   */
  lemma OfferWaits(before: seq<Call>, c: Call, id: int, from: int, calls: seq<Call>)
    requires AnswerTo(Reached(before), c) == Row(id) && OffersFrom(Reached(before), c, id, from)
    requires forall n :: 0 <= n < |calls| ==> LeavesOffer(calls[n], from)
    ensures var later := After(Apply(Reached(before), c).rows, calls);
      && (forall w, l, t :: t < from ==> AnswerTo(later, Claim(w, l, t)) != Row(id))
      && (forall w, l, t :: from <= t && w != "" && l >= 1000 ==>
            var answer := AnswerTo(later, Claim(w, l, t));
            answer.Row? && (answer.id == id || Precedes(later.reviews, answer.id, id)))
  {
    hide Apply, Reached, After, Offers;
    var rows := Reached(before);
    var offered := Apply(rows, c).rows;
    ReachedIsFresh(before);
    FreshStep(rows, c);
    CallOffers(rows, c, id, from);
    OfferStands(offered, calls, id, from);
    OfferMeans(After(offered, calls), id, from);
  }

  lemma CallOffers(rows: Rows, c: Call, id: int, from: int)
    requires AnswerTo(rows, c) == Row(id) && OffersFrom(rows, c, id, from)
    ensures Offers(Apply(rows, c).rows, id, from)
  {
    if c.Enqueue? {
      assert forall known :: known !in HeldBy(rows.reviews, c.subject);
    }
  }

  lemma OfferMeans(rows: Rows, id: int, from: int)
    requires Offers(rows, id, from)
    ensures forall w, leaseMs, t :: t < from ==> AnswerTo(rows, Claim(w, leaseMs, t)) != Row(id)
    ensures forall w, leaseMs, t :: from <= t && w != "" && leaseMs >= 1000 ==>
        var answer := AnswerTo(rows, Claim(w, leaseMs, t));
        answer.Row? && (answer.id == id || Precedes(rows.reviews, answer.id, id))
  {
    forall w, leaseMs, t | from <= t && w != "" && leaseMs >= 1000
      ensures var answer := AnswerTo(rows, Claim(w, leaseMs, t));
        answer.Row? && (answer.id == id || Precedes(rows.reviews, answer.id, id))
    {
      SomeRowIsClaimed(rows, w, leaseMs, t, id);
    }
  }

  // An outcome

  lemma RestStep(rows: Rows, c: Call, id: int, result: Status, at: int)
    requires Fresh(rows) && result in {Succeeded, WaitingProvider, Failed} && Rests(rows, id, result, at)
    requires result == Succeeded || !(c.Retry? && c.id == id)
    ensures Rests(Apply(rows, c).rows, id, result, at)
  {
  }

  lemma {:induction false} RestStands(rows: Rows, calls: seq<Call>, id: int, result: Status, at: int)
    requires Fresh(rows) && result in {Succeeded, WaitingProvider, Failed} && Rests(rows, id, result, at)
    requires forall n :: 0 <= n < |calls| ==> result == Succeeded || !(calls[n].Retry? && calls[n].id == id)
    ensures Fresh(After(rows, calls)) && Rests(After(rows, calls), id, result, at)
    decreases |calls|
  {
    if calls != [] {
      RestStands(rows, calls[..|calls| - 1], id, result, at);
      FreshStep(After(rows, calls[..|calls| - 1]), calls[|calls| - 1]);
      RestStep(After(rows, calls[..|calls| - 1]), calls[|calls| - 1], id, result, at);
    }
  }

  /**
   A finished row has the result that was given, is claimed and finished by nobody, and may be retried
   if and only if it did not succeed, whatever is called in between short of that retry.
   */
  lemma OutcomeStands(before: seq<Call>, id: int, worker: string, result: Status, at: int, calls: seq<Call>)
    requires result in {Succeeded, WaitingProvider, Failed}
    requires AnswerTo(Reached(before), Finish(id, worker, result, at)) == Row(id)
    requires forall n :: 0 <= n < |calls| ==> result == Succeeded || !(calls[n].Retry? && calls[n].id == id)
    ensures var later := After(Apply(Reached(before), Finish(id, worker, result, at)).rows, calls);
      && id in later.reviews && later.reviews[id].status == result
      && later.reviews[id].finishedAt == (if result == WaitingProvider then None else Some(at))
      && (forall w, l, t :: AnswerTo(later, Claim(w, l, t)) != Row(id))
      && (forall w, outcome, t :: AnswerTo(later, Finish(id, w, outcome, t)) != Row(id))
      && (forall from, t :: AnswerTo(later, Retry(id, from, t)) == Row(id) <==> result != Succeeded)
  {
    hide Apply, Reached, After, Rests;
    var rows := Reached(before);
    var finished := Apply(rows, Finish(id, worker, result, at)).rows;
    ReachedIsFresh(before);
    FreshStep(rows, Finish(id, worker, result, at));
    FinishRests(rows, id, worker, result, at);
    RestStands(finished, calls, id, result, at);
    RestMeans(After(finished, calls), id, result, at);
  }

  lemma FinishRests(rows: Rows, id: int, worker: string, result: Status, at: int)
    requires result in {Succeeded, WaitingProvider, Failed} && AnswerTo(rows, Finish(id, worker, result, at)) == Row(id)
    ensures Rests(Apply(rows, Finish(id, worker, result, at)).rows, id, result, at)
  {
  }

  lemma RestMeans(rows: Rows, id: int, result: Status, at: int)
    requires result in {Succeeded, WaitingProvider, Failed} && Rests(rows, id, result, at)
    ensures id in rows.reviews && rows.reviews[id].status == result
    ensures rows.reviews[id].finishedAt == if result == WaitingProvider then None else Some(at)
    ensures forall w, leaseMs, t :: AnswerTo(rows, Claim(w, leaseMs, t)) != Row(id)
    ensures forall w, outcome, t :: AnswerTo(rows, Finish(id, w, outcome, t)) != Row(id)
    ensures forall from, t :: AnswerTo(rows, Retry(id, from, t)) == Row(id) <==> result != Succeeded
  {
  }

  // A subject

  lemma SubjectStays(rows: Rows, c: Call, id: int, subject: Subject)
    requires Fresh(rows) && id in rows.reviews && rows.reviews[id].subject == subject
    ensures var after := Apply(rows, c).rows.reviews; id in after && after[id].subject == subject
  {
  }

  lemma {:induction false} SubjectLasts(rows: Rows, calls: seq<Call>, id: int, subject: Subject)
    requires Fresh(rows) && id in rows.reviews && rows.reviews[id].subject == subject
    ensures var later := After(rows, calls);
      Fresh(later) && id in later.reviews && later.reviews[id].subject == subject
    decreases |calls|
  {
    hide Apply;
    if calls != [] {
      SubjectLasts(rows, calls[..|calls| - 1], id, subject);
      FreshStep(After(rows, calls[..|calls| - 1]), calls[|calls| - 1]);
      SubjectStays(After(rows, calls[..|calls| - 1]), calls[|calls| - 1], id, subject);
    }
  }

  lemma {:induction false} AgreesLater(rows: Rows, trace: seq<Event>, calls: seq<Call>) returns (more: seq<Event>)
    requires Agrees(rows, trace)
    ensures Agrees(After(rows, calls), more)
    decreases |calls|
  {
    more := trace;
    if calls != [] {
      more := AgreesLater(rows, trace, calls[..|calls| - 1]);
      StepAgrees(After(rows, calls[..|calls| - 1]), more, calls[|calls| - 1]);
      more := more + Apply(After(rows, calls[..|calls| - 1]), calls[|calls| - 1]).events;
    }
  }

  lemma EnqueueMeets(rows: Rows, subject: Subject, at: int, id: int)
    requires OneRowPerSubject(rows.reviews) && id in rows.reviews && rows.reviews[id].subject == subject
    ensures AnswerTo(rows, Enqueue(subject, at)) == Row(id) && Apply(rows, Enqueue(subject, at)).rows == rows
  {
    assert id in HeldBy(rows.reviews, subject);
  }

  lemma EnqueuedHasSubject(rows: Rows, subject: Subject, at: int)
    ensures var step := Apply(rows, Enqueue(subject, at));
      && step.answer.Row? && step.answer.id in step.rows.reviews
      && step.rows.reviews[step.answer.id].subject == subject
  {
  }

  /** A subject has one row: enqueueing it again, in any later state, answers that row and changes nothing. */
  lemma EnqueuedOnce(before: seq<Call>, subject: Subject, at: int, calls: seq<Call>, again: int)
    ensures var step := Apply(Reached(before), Enqueue(subject, at)); var later := After(step.rows, calls);
      && AnswerTo(later, Enqueue(subject, again)) == step.answer
      && Apply(later, Enqueue(subject, again)).rows == later
  {
    hide Apply, Reached, After, Agrees;
    var rows, c := Reached(before), Enqueue(subject, at);
    var step := Apply(rows, c);
    ReachedIsFresh(before);
    RowsMirrorTrace(before);
    FreshStep(rows, c);
    StepAgrees(rows, Trace(before), c);
    EnqueuedHasSubject(rows, subject, at);
    SubjectLasts(step.rows, calls, step.answer.id, subject);
    var trace := AgreesLater(step.rows, Trace(before) + step.events, calls);
    AgreesIsUnique(After(step.rows, calls), trace);
    EnqueueMeets(After(step.rows, calls), subject, again, step.answer.id);
  }

  lemma AgreesIsUnique(rows: Rows, trace: seq<Event>)
    requires Agrees(rows, trace)
    ensures OneRowPerSubject(rows.reviews)
  {
  }

  // Trace and calls

  /** The event is what the call asked for, on the row it was answered with. */
  predicate Tells(e: Event, c: Call) {
    match e
    case Enqueued(_, available) => c.Enqueue? && c.at == available
    case Claimed(_, worker, at, expires) => c == Claim(worker, expires - at, at)
    case Finished(id, worker, at, result) => c == Finish(id, worker, result, at)
    case Retried(id, available) => c.Retry? && c.id == id && c.availableAt == available
  }

  lemma StepTells(rows: Rows, c: Call)
    requires Apply(rows, c).events != []
    ensures var step := Apply(rows, c);
      |step.events| == 1 && Tells(step.events[0], c) && step.answer == Row(step.events[0].id)
  {
  }

  /** Every event of a run is a call of the run, with the arguments of the call. */
  lemma {:induction false} TraceIsOfCalls(calls: seq<Call>, k: nat) returns (n: nat)
    requires k < |Trace(calls)|
    ensures n < |calls| && Tells(Trace(calls)[k], calls[n])
    ensures AnswerTo(Reached(calls[..n]), calls[n]) == Row(Trace(calls)[k].id)
  {
    var init := calls[..|calls| - 1];
    if k < |Trace(init)| {
      n := TraceIsOfCalls(init, k);
      assert init[..n] == calls[..n];
    } else {
      n := |init|;
      StepTells(Reached(init), calls[n]);
    }
  }
}
