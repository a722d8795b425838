/** Exactly when a provider can have more leases than its limit, over every interleaving. */
module RegistryCapacity {
  import opened RoutingPolicy
  import opened ProviderRegistry

  /** No provider has more leases than its limit. */
  ghost predicate WithinLimits(s: Registry) {
    forall p :: Count(s, p) <= Limit(s, p)
  }

  /** A resumed acquire finds its provider ready and full, but below the limit captured when it was not. */
  predicate Overruns(s: Registry, c: Call) {
    && c.Resume? && c.ready && c.ticket in s.waiting
    && var r := s.waiting[c.ticket];
       && r.at < |r.order|
       && Limit(s, r.order[r.at]) <= Count(s, r.order[r.at]) < r.limit
  }

  lemma SameCounts(s: Registry, after: Registry)
    requires WithinLimits(s) && after.active == s.active
    requires forall p :: Count(s, p) > 0 ==> Limit(after, p) >= Limit(s, p)
    ensures WithinLimits(after)
  {
    forall p ensures Count(after, p) <= Limit(after, p) {
      assert Count(s, p) <= Limit(s, p);
    }
  }

  lemma OneMoreLease(s: Registry, after: Registry, p: Provider)
    requires WithinLimits(s) && after.limits == s.limits && after.active == s.active[p := Count(s, p) + 1]
    ensures WithinLimits(after) <==> Count(s, p) < Limit(s, p)
  {
    forall q | q != p ensures Count(after, q) <= Limit(after, q) {
      assert Count(s, q) <= Limit(s, q);
    }
    assert Count(after, p) == Count(s, p) + 1;
  }

  lemma ResumeCapacity(s: Registry, ticket: int, ready: bool, now: int)
    requires WithinLimits(s)
    ensures WithinLimits(ResumeStep(s, ticket, ready, now).registry) <==> !Overruns(s, Resume(ticket, ready, now))
  {
    var after := ResumeStep(s, ticket, ready, now).registry;
    if ResumeStep(s, ticket, ready, now).answer.Granted? {
      OneMoreLease(s, after, s.waiting[ticket].order[s.waiting[ticket].at]);
    } else {
      SameCounts(s, after);
    }
  }

  lemma ReleaseCapacity(s: Registry, lease: int, retryAfterMs: int, now: int)
    requires Sound(s) && WithinLimits(s)
    ensures WithinLimits(ReleaseStep(s, lease, retryAfterMs, now).registry)
  {
    if lease in s.leases && !s.leases[lease].released {
      CountedAfterRelease(s.active, s.leases, lease);
      var after := ReleaseStep(s, lease, retryAfterMs, now).registry;
      forall p ensures Count(after, p) <= Limit(after, p) {
        assert Count(s, p) <= Limit(s, p);
      }
    }
  }

  lemma AcquireCapacity(s: Registry, c: Capability, excluded: set<Provider>, order: seq<Provider>, now: int)
    requires WithinLimits(s)
    ensures WithinLimits(AcquireStep(s, c, excluded, order, now).registry)
  {
    SameCounts(s, AcquireStep(s, c, excluded, order, now).registry);
  }

  lemma OtherCapacity(s: Registry, c: Call)
    requires Sound(s) && WithinLimits(s) && !c.Acquire? && !c.Resume? && !c.Release?
    ensures WithinLimits(Apply(s, c).registry)
  {
    SameCounts(s, Apply(s, c).registry);
  }

  /** One step keeps every provider within its limit if and only if it does not overrun. */
  lemma CapacityStep(s: Registry, c: Call)
    requires Sound(s) && WithinLimits(s)
    ensures WithinLimits(Apply(s, c).registry) <==> !Overruns(s, c)
  {
    match c
    case Acquire(capability, excluded, preferred, policy, now) =>
      AcquireCapacity(s, capability, excluded, PrioritizedOrder(s, capability, preferred, policy), now);
    case Resume(ticket, ready, now) => ResumeCapacity(s, ticket, ready, now);
    case Release(lease, retryAfterMs, now) => ReleaseCapacity(s, lease, retryAfterMs, now);
    case _ => OtherCapacity(s, c);
  }

  ghost predicate LeasesWithinLimits(s: Registry) {
    forall p :: |Held(s.leases, p)| <= Limit(s, p)
  }

  /** At no moment of the run does a provider have more unreleased leases than its limit. */
  ghost predicate AlwaysWithinLimits(connected: set<Provider>, calls: seq<Call>) {
    LeasesWithinLimits(Reached(connected, calls))
    && (calls == [] || AlwaysWithinLimits(connected, calls[..|calls| - 1]))
  }

  ghost predicate NeverOverruns(connected: set<Provider>, calls: seq<Call>) {
    calls == []
    || (!Overruns(Reached(connected, calls[..|calls| - 1]), calls[|calls| - 1])
        && NeverOverruns(connected, calls[..|calls| - 1]))
  }

  /** Leases are within the limits exactly when counts are. */
  lemma LeasesAreCounts(connected: set<Provider>, calls: seq<Call>)
    ensures Sound(Reached(connected, calls))
    ensures LeasesWithinLimits(Reached(connected, calls)) <==> WithinLimits(Reached(connected, calls))
  {
    CountIsUnreleasedLeases(connected, calls);
    var s := Reached(connected, calls);
    assert forall p :: Count(s, p) == |Held(s.leases, p)|;
    if WithinLimits(s) {
      forall p ensures |Held(s.leases, p)| <= Limit(s, p) {
        assert Count(s, p) <= Limit(s, p);
      }
    }
    if LeasesWithinLimits(s) {
      forall p ensures Count(s, p) <= Limit(s, p) {
        assert |Held(s.leases, p)| <= Limit(s, p);
      }
    }
  }

  /**
   Capacity over every interleaving: no provider ever has more unreleased leases than its limit, if
   and only if no resumed acquire ever finds its provider full but below the limit it had captured.
   */
  lemma {:induction false} CapacityIff(connected: set<Provider>, calls: seq<Call>)
    ensures AlwaysWithinLimits(connected, calls) <==> NeverOverruns(connected, calls)
    decreases |calls|
  {
    LeasesAreCounts(connected, calls);
    if calls == [] {
      assert WithinLimits(Initial(connected));
    } else {
      var init, last := calls[..|calls| - 1], calls[|calls| - 1];
      CapacityIff(connected, init);
      LeasesAreCounts(connected, init);
      if LeasesWithinLimits(Reached(connected, init)) {
        CapacityStep(Reached(connected, init), last);
      }
    }
  }

  // A condition on limits that suffices

  /** No count exceeds its limit, and no suspended acquire captured more than the limit in force. */
  ghost predicate Bounded(s: Registry) {
    && (forall p :: Count(s, p) <= Limit(s, p))
    && (forall t :: t in s.waiting ==> WithinLimit(s, s.waiting[t]))
  }

  predicate WithinLimit(s: Registry, r: Request) {
    r.at < |r.order| ==> r.limit <= Limit(s, r.order[r.at])
  }

  /** An accepted replacement or removal that lowers the limit under an acquire suspended on the provider. */
  ghost predicate Squeezes(s: Registry, c: Call) {
    && (c.Replace? || c.Unregister?) && c.provider in s.skills && Count(s, c.provider) <= 0
    && exists t :: t in s.waiting && Waits(s.waiting[t], c.provider) && s.waiting[t].limit > NewLimit(c)
  }

  function NewLimit(c: Call): int {
    if c.Replace? then Max(1, c.limit) else 1
  }

  lemma ReleaseBounded(s: Registry, lease: int, retryAfterMs: int, now: int)
    requires Sound(s) && Bounded(s)
    ensures Bounded(ReleaseStep(s, lease, retryAfterMs, now).registry)
  {
    if lease in s.leases && !s.leases[lease].released {
      CountedAfterRelease(s.active, s.leases, lease);
      var after := ReleaseStep(s, lease, retryAfterMs, now).registry;
      forall p ensures Count(after, p) <= Limit(after, p) {
        assert Count(s, p) <= Limit(s, p);
      }
    }
  }

  lemma ProbeBounded(s: Registry, ticket: int, c: Capability, excluded: set<Provider>, order: seq<Provider>, at: nat,
                     now: int)
    requires Bounded(s) && at <= |order|
    ensures Bounded(Probe(s, ticket, c, excluded, order, at, now).registry)
  {
    var after := Probe(s, ticket, c, excluded, order, at, now).registry;
    forall p ensures Count(after, p) <= Limit(after, p) {
      assert Count(s, p) <= Limit(s, p);
    }
    forall t | t in after.waiting ensures WithinLimit(after, after.waiting[t]) {
      if t != ticket {
        assert WithinLimit(s, s.waiting[t]);
      }
    }
  }

  lemma GrantBounded(s: Registry, after: Registry, p: Provider)
    requires Bounded(s) && Count(s, p) < Limit(s, p) && after.limits == s.limits
    requires after.active == s.active[p := Count(s, p) + 1] && forall t :: t in after.waiting ==>
        t in s.waiting && after.waiting[t] == s.waiting[t]
    ensures Bounded(after)
  {
    forall q ensures Count(after, q) <= Limit(after, q) {
      assert Count(s, q) <= Limit(s, q);
    }
    forall t | t in after.waiting ensures WithinLimit(after, after.waiting[t]) {
      assert WithinLimit(s, s.waiting[t]);
    }
  }

  lemma RequestBounded(s: Registry, ticket: int)
    requires Sound(s) && Bounded(s) && ticket in s.waiting
    ensures Asks(s.waiting[ticket]) && WithinLimit(s, s.waiting[ticket])
  {
  }

  lemma ResumeBounded(s: Registry, ticket: int, ready: bool, now: int)
    requires Sound(s) && Bounded(s)
    ensures Bounded(ResumeStep(s, ticket, ready, now).registry)
  {
    hide Probe, Bounded;
    if ticket in s.waiting {
      var r := s.waiting[ticket];
      RequestBounded(s, ticket);
      if ready && Count(s, r.order[r.at]) < r.limit {
        GrantBounded(s, ResumeStep(s, ticket, ready, now).registry, r.order[r.at]);
      } else {
        ProbeBounded(s, ticket, r.capability, r.excluded, r.order, r.at + 1, now);
      }
    }
  }

  lemma AcquireBounded(s: Registry, c: Capability, excluded: set<Provider>, order: seq<Provider>, now: int)
    requires Bounded(s)
    ensures Bounded(AcquireStep(s, c, excluded, order, now).registry)
  {
    var before := s.(next := s.next + 1);
    TicketBounded(s, before);
    ProbeBounded(before, s.next, c, excluded, order, 0, now);
    assert AcquireStep(s, c, excluded, order, now) == Probe(before, s.next, c, excluded, order, 0, now);
  }

  lemma TicketBounded(s: Registry, after: Registry)
    requires Bounded(s) && after == s.(next := s.next + 1)
    ensures Bounded(after)
  {
    LimitsBounded(s, after);
    forall t | t in s.waiting ensures WithinLimit(after, s.waiting[t]) {
      assert WithinLimit(s, s.waiting[t]);
    }
  }

  lemma AcquireProviderBounded(s: Registry, p: Provider, c: Capability, policy: Policy)
    requires Bounded(s)
    ensures Bounded(AcquireProviderStep(s, p, c, policy).registry)
  {
    var after := AcquireProviderStep(s, p, c, policy).registry;
    forall t | t in after.waiting ensures WithinLimit(after, after.waiting[t]) {
      assert t in s.waiting ==> WithinLimit(s, s.waiting[t]);
    }
    forall q ensures Count(after, q) <= Limit(after, q) {
      assert Count(s, q) <= Limit(s, q);
    }
  }

  lemma RegisterBounded(s: Registry, p: Provider, capabilities: set<Capability>, limit: int, connect: bool)
    requires Sound(s) && Bounded(s)
    ensures Bounded(RegisterStep(s, p, capabilities, limit, connect).registry)
  {
    var after := RegisterStep(s, p, capabilities, limit, connect).registry;
    assert forall q :: Limit(after, q) >= Limit(s, q);
    LimitsBounded(s, after);
    forall t | t in s.waiting ensures WithinLimit(after, s.waiting[t]) {
      assert WithinLimit(s, s.waiting[t]);
    }
  }

  /** A new limit bounds everything unless something suspended captured more. */
  lemma LimitsBounded(s: Registry, after: Registry)
    requires Bounded(s) && after.active == s.active && after.waiting == s.waiting
    requires forall p :: Count(s, p) > 0 ==> Limit(after, p) >= Limit(s, p)
    ensures Bounded(after) <==> forall t :: t in s.waiting ==> WithinLimit(after, s.waiting[t])
  {
    forall p ensures Count(after, p) <= Limit(after, p) {
      assert Count(s, p) <= Limit(s, p);
    }
  }

  /** One step keeps counts and captured limits within the limits if and only if it does not squeeze. */
  lemma BoundedStep(s: Registry, c: Call)
    requires Sound(s) && Bounded(s)
    ensures Bounded(Apply(s, c).registry) <==> !Squeezes(s, c)
  {
    match c
    case Acquire(capability, excluded, preferred, policy, now) =>
      AcquireBounded(s, capability, excluded, PrioritizedOrder(s, capability, preferred, policy), now);
    case AcquireProvider(p, capability, policy) => AcquireProviderBounded(s, p, capability, policy);
    case Resume(ticket, ready, now) => ResumeBounded(s, ticket, ready, now);
    case Release(lease, retryAfterMs, now) => ReleaseBounded(s, lease, retryAfterMs, now);
    case Register(p, capabilities, limit, connect) => RegisterBounded(s, p, capabilities, limit, connect);
    case _ => LimitStep(s, c);
  }

  lemma LimitLowered(s: Registry, after: Registry, p: Provider, limit: int)
    requires Bounded(s) && Count(s, p) <= 0 && after.active == s.active && after.waiting == s.waiting
    requires Limit(after, p) == limit && forall q :: q != p ==> Limit(after, q) == Limit(s, q)
    ensures Bounded(after) <==> !exists t :: t in s.waiting && Waits(s.waiting[t], p) && s.waiting[t].limit > limit
  {
    LimitsBounded(s, after);
    forall t | t in s.waiting
      ensures WithinLimit(after, s.waiting[t]) <==> !(Waits(s.waiting[t], p) && s.waiting[t].limit > limit)
    {
      assert WithinLimit(s, s.waiting[t]);
    }
  }

  lemma SameLimits(s: Registry, after: Registry)
    requires Bounded(s) && after.active == s.active && after.waiting == s.waiting && after.limits == s.limits
    ensures Bounded(after)
  {
    LimitsBounded(s, after);
    assert forall t :: t in s.waiting ==> WithinLimit(s, s.waiting[t]);
  }

  lemma LimitStep(s: Registry, c: Call)
    requires Bounded(s) && (c.Connect? || c.Disconnect? || c.Replace? || c.Unregister?)
    ensures Bounded(Apply(s, c).registry) <==> !Squeezes(s, c)
  {
    var after := Apply(s, c).registry;
    hide Bounded, Waits;
    if (c.Replace? || c.Unregister?) && c.provider in s.skills && Count(s, c.provider) <= 0 {
      LimitLowered(s, after, c.provider, NewLimit(c));
    } else {
      SameLimits(s, after);
    }
  }

  ghost predicate NeverSqueezes(connected: set<Provider>, calls: seq<Call>) {
    calls == []
    || (!Squeezes(Reached(connected, calls[..|calls| - 1]), calls[|calls| - 1])
        && NeverSqueezes(connected, calls[..|calls| - 1]))
  }

  lemma UnsqueezedStep(s: Registry, c: Call)
    requires Sound(s) && Bounded(s) && !Squeezes(s, c)
    ensures Bounded(Apply(s, c).registry) && !Overruns(s, c)
  {
    BoundedStep(s, c);
    if c.Resume? && c.ticket in s.waiting {
      assert WithinLimit(s, s.waiting[c.ticket]);
    }
  }

  lemma {:induction false} UnsqueezedNeverOverruns(connected: set<Provider>, calls: seq<Call>)
    requires NeverSqueezes(connected, calls)
    ensures Bounded(Reached(connected, calls)) && NeverOverruns(connected, calls)
    decreases |calls|
  {
    hide Apply, Squeezes, Overruns;
    if calls != [] {
      var init := calls[..|calls| - 1];
      UnsqueezedNeverOverruns(connected, init);
      CountIsUnreleasedLeases(connected, init);
      UnsqueezedStep(Reached(connected, init), calls[|init|]);
    }
  }

  /** A run that never lowers a limit under a suspended acquire never overruns. */
  lemma UnsqueezedRunsAreWithinLimits(connected: set<Provider>, calls: seq<Call>)
    requires NeverSqueezes(connected, calls)
    ensures NeverOverruns(connected, calls) && AlwaysWithinLimits(connected, calls)
  {
    UnsqueezedNeverOverruns(connected, calls);
    CapacityIff(connected, calls);
  }

  lemma {:induction false} FixedLimitsNeverSqueeze(connected: set<Provider>, calls: seq<Call>)
    requires forall n :: 0 <= n < |calls| ==> !calls[n].Replace? && !calls[n].Unregister?
    ensures NeverSqueezes(connected, calls)
    decreases |calls|
  {
    if calls != [] {
      FixedLimitsNeverSqueeze(connected, calls[..|calls| - 1]);
    }
  }

  /** With limits fixed once providers are registered, every run respects them. */
  lemma FixedLimitsAreRespected(connected: set<Provider>, calls: seq<Call>)
    requires forall n :: 0 <= n < |calls| ==> !calls[n].Replace? && !calls[n].Unregister?
    ensures AlwaysWithinLimits(connected, calls)
  {
    FixedLimitsNeverSqueeze(connected, calls);
    UnsqueezedRunsAreWithinLimits(connected, calls);
  }

  predicate AsksForOne(c: Call) {
    (c.Register? ==> c.limit <= 1) && (c.Replace? ==> c.limit <= 1)
  }

  lemma LimitsStayOne(s: Registry, c: Call)
    requires AsksForOne(c) && forall p :: p in s.limits ==> s.limits[p] == 1
    ensures forall p :: p in Apply(s, c).registry.limits ==> Apply(s, c).registry.limits[p] == 1
  {
  }

  /** With the default limit of one, replacing and removing providers is harmless too: one lease at a time. */
  lemma {:induction false} OneLeaseAtATime(connected: set<Provider>, calls: seq<Call>)
    requires forall n :: 0 <= n < |calls| ==> AsksForOne(calls[n])
    ensures var s := Reached(connected, calls);
      && Bounded(s) && (forall p :: p in s.limits ==> s.limits[p] == 1) && (forall p :: |Held(s.leases, p)| <= 1)
  {
    if calls != [] {
      var init, c := calls[..|calls| - 1], calls[|calls| - 1];
      OneLeaseAtATime(connected, init);
      var s := Reached(connected, init);
      CountIsUnreleasedLeases(connected, init);
      LimitsStayOne(s, c);
      assert forall t :: t in s.waiting ==> WithinLimit(s, s.waiting[t]);
      BoundedStep(s, c);
    }
    CountIsUnreleasedLeases(connected, calls);
    forall p ensures |Held(Reached(connected, calls).leases, p)| <= 1 {
      assert Count(Reached(connected, calls), p) <= Limit(Reached(connected, calls), p);
    }
  }
}
