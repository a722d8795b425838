/** Two runs of the registry that do what its limits and cooldowns seem to rule out. */
module RegistryWitnesses {
  import opened RoutingPolicy
  import opened ProviderRegistry

  /**
   Six calls that leave a provider with two leases and a limit of one: a replacement squeezes two
   suspended acquires.
   */
  function SqueezedCalls(p: Provider, policy: Policy): seq<Call> {
    [Register(p, {Coding}, 2, true), AcquireProvider(p, Coding, policy), AcquireProvider(p, Coding, policy),
     Replace(p, {Coding}, 1), Resume(1, true, 0), Resume(2, true, 0)]
  }

  lemma AfterTake(s: Registry, calls: seq<Call>, n: nat)
    requires n < |calls|
    ensures After(s, calls[..n + 1]) == Apply(After(s, calls[..n]), calls[n]).registry
  {
    assert calls[..n + 1][..n] == calls[..n];
  }

  /** The two suspended acquires, once the limit is one, are both granted. */
  lemma BothAreGranted(s: Registry, p: Provider, t: int, u: int)
    requires Count(s, p) == 0 && t != u && t in s.waiting && u in s.waiting
    requires s.waiting[t].order == [p] && s.waiting[t].at == 0 && s.waiting[t].limit == 2
    requires s.waiting[u] == s.waiting[t]
    ensures var after := ResumeStep(ResumeStep(s, t, true, 0).registry, u, true, 0).registry;
      Count(after, p) == 2 && after.limits == s.limits
  {
    var first := ResumeStep(s, t, true, 0).registry;
    assert Count(first, p) == 1 && u in first.waiting && first.waiting[u] == s.waiting[u];
  }

  lemma Dispatch(s: Registry, c: Call)
    ensures c.Register? ==> Apply(s, c) == RegisterStep(s, c.provider, c.capabilities, c.limit, c.connect)
    ensures c.AcquireProvider? ==> Apply(s, c) == AcquireProviderStep(s, c.provider, c.capability, c.policy)
    ensures c.Replace? ==> Apply(s, c) == ReplaceStep(s, c.provider, c.capabilities, c.limit)
    ensures c.Resume? ==> Apply(s, c) == ResumeStep(s, c.ticket, c.ready, c.now)
    ensures c.Release? ==> Apply(s, c) == ReleaseStep(s, c.lease, c.retryAfterMs, c.now)
  {
  }

  /** One more call of a run, from the registry it finds. */
  lemma NextIs(start: Registry, calls: seq<Call>, n: nat, s: Registry)
    requires n < |calls| && s == After(start, calls[..n])
    ensures After(start, calls[..n + 1]) == Apply(s, calls[n]).registry
  {
    hide Apply;
    AfterTake(start, calls, n);
  }

  lemma NothingHappened(start: Registry, calls: seq<Call>)
    ensures After(start, calls[..0]) == start && calls[..|calls|] == calls
  {
  }

  /** Two acquires of a provider with room for two are suspended. */
  function TwoWait(start: Registry, p: Provider, policy: Policy): Registry {
    var registered := RegisterStep(start, p, {Coding}, 2, true).registry;
    var once := AcquireProviderStep(registered, p, Coding, policy).registry;
    AcquireProviderStep(once, p, Coding, policy).registry
  }

  lemma RunToTwoWaiting(start: Registry, p: Provider, policy: Policy, calls: seq<Call>)
    requires |calls| >= 3 && calls[0] == Register(p, {Coding}, 2, true)
    requires calls[1] == AcquireProvider(p, Coding, policy) && calls[2] == calls[1]
    ensures After(start, calls[..3]) == TwoWait(start, p, policy)
  {
    hide Apply, After, RegisterStep, AcquireProviderStep;
    NothingHappened(start, calls);
    var registered := RegisterStep(start, p, {Coding}, 2, true).registry;
    var once := AcquireProviderStep(registered, p, Coding, policy).registry;
    Dispatch(start, calls[0]);
    NextIs(start, calls, 0, start);
    Dispatch(registered, calls[1]);
    NextIs(start, calls, 1, registered);
    Dispatch(once, calls[2]);
    NextIs(start, calls, 2, once);
  }

  lemma BothWait(p: Provider, policy: Policy)
    requires IsEnabled(policy, p)
    ensures var s, request := TwoWait(Initial({}), p, policy), Request(Coding, {}, [p], 0, 2);
      && s.waiting == map[1 := request, 2 := request] && s.next == 3 && s.leases == map[] && Count(s, p) == 0
      && Limit(s, p) == 2 && Selectable(s, p, Coding, policy)
  {
    var start := RegisterStep(Initial({}), p, {Coding}, 2, true).registry;
    var once := AcquireProviderStep(start, p, Coding, policy).registry;
    assert once.waiting == map[1 := Request(Coding, {}, [p], 0, 2)] && once.next == 2;
    assert Selectable(once, p, Coding, policy) && Count(once, p) == 0;
  }

  lemma SqueezedRun(p: Provider, policy: Policy, calls: seq<Call>, start: Registry)
    requires calls == SqueezedCalls(p, policy)
    ensures var s := ReplaceStep(TwoWait(start, p, policy), p, {Coding}, 1).registry;
      After(start, calls) == ResumeStep(ResumeStep(s, 1, true, 0).registry, 2, true, 0).registry
  {
    hide Apply, After, TwoWait, ReplaceStep, ResumeStep;
    NothingHappened(start, calls);
    RunToTwoWaiting(start, p, policy, calls);
    var twice := TwoWait(start, p, policy);
    Dispatch(twice, calls[3]);
    NextIs(start, calls, 3, twice);
    var s := ReplaceStep(twice, p, {Coding}, 1).registry;
    Dispatch(s, calls[4]);
    NextIs(start, calls, 4, s);
    var first := ResumeStep(s, 1, true, 0).registry;
    Dispatch(first, calls[5]);
    NextIs(start, calls, 5, first);
  }

  /** Lowering a limit under suspended acquires does exceed it, for any provider and any policy that enables it. */
  lemma SqueezingExceedsTheLimit(p: Provider, policy: Policy)
    requires IsEnabled(policy, p)
    ensures var s := Reached({}, SqueezedCalls(p, policy));
      Limit(s, p) == 1 && Count(s, p) == 2 && |Held(s.leases, p)| == 2
  {
    var calls := SqueezedCalls(p, policy);
    BothWait(p, policy);
    SqueezedRun(p, policy, calls, Initial({}));
    hide TwoWait;
    var squeezed := ReplaceStep(TwoWait(Initial({}), p, policy), p, {Coding}, 1).registry;
    BothAreGranted(squeezed, p, 1, 2);
    CountIsUnreleasedLeases({}, calls);
  }

  // A provider that is leased while it cools down

  /**
   Two acquires wait for a provider; the first is granted it and releases it with a retryable failure,
   so that it cools down for five seconds.
   */
  function CooledCalls(p: Provider, policy: Policy): seq<Call> {
    [Register(p, {Coding}, 2, true), AcquireProvider(p, Coding, policy), AcquireProvider(p, Coding, policy),
     Resume(1, true, 0), Release(3, 5000, 0)]
  }

  /** The first suspended acquire is granted its provider and releases it. */
  function FirstFails(s: Registry): Registry {
    ReleaseStep(ResumeStep(s, 1, true, 0).registry, 3, 5000, 0).registry
  }

  lemma CooledRun(p: Provider, policy: Policy, calls: seq<Call>, start: Registry)
    requires calls == CooledCalls(p, policy)
    ensures After(start, calls) == FirstFails(TwoWait(start, p, policy))
  {
    hide Apply, After, TwoWait, ResumeStep, ReleaseStep;
    NothingHappened(start, calls);
    RunToTwoWaiting(start, p, policy, calls);
    var twice := TwoWait(start, p, policy);
    Dispatch(twice, calls[3]);
    NextIs(start, calls, 3, twice);
    var granted := ResumeStep(twice, 1, true, 0).registry;
    Dispatch(granted, calls[4]);
    NextIs(start, calls, 4, granted);
  }

  /**
   While the provider cools down, the acquire that waits for it is granted it and another acquire of
   this provider asks it, for any provider and any policy that enables it.
   */
  lemma CoolingProviderIsGranted(p: Provider, policy: Policy)
    requires IsEnabled(policy, p)
    ensures var s := Reached({}, CooledCalls(p, policy));
      && Cooling(s.cooldowns, p, 0)
      && ResumeStep(s, 2, true, 0).answer.Granted?
      && AcquireProviderStep(s, p, Coding, policy).answer.Asking?
  {
    CooledRun(p, policy, CooledCalls(p, policy), Initial({}));
    BothWait(p, policy);
    hide TwoWait;
    var granted := ResumeStep(TwoWait(Initial({}), p, policy), 1, true, 0).registry;
    assert granted.leases == map[3 := Lease(p, false)] && Count(granted, p) == 1;
  }

  // A cooldown that is cut short

  /** Two leases of one provider: the first failure asks for five seconds, the second for one. */
  function ShortenedCalls(p: Provider, policy: Policy): seq<Call> {
    [Register(p, {Coding}, 2, true), AcquireProvider(p, Coding, policy), AcquireProvider(p, Coding, policy),
     Resume(1, true, 0), Resume(2, true, 0), Release(3, 5000, 0), Release(4, 1000, 0)]
  }

  /** Both suspended acquires are granted their provider, and the first releases it. */
  function OneOfTwoFails(s: Registry): Registry {
    ReleaseStep(ResumeStep(ResumeStep(s, 1, true, 0).registry, 2, true, 0).registry, 3, 5000, 0).registry
  }

  lemma ShortenedRun(p: Provider, policy: Policy, calls: seq<Call>, start: Registry)
    requires calls == ShortenedCalls(p, policy)
    ensures var s := OneOfTwoFails(TwoWait(start, p, policy));
      After(start, calls[..6]) == s && After(start, calls) == ReleaseStep(s, 4, 1000, 0).registry
  {
    hide Apply, After, TwoWait, ResumeStep, ReleaseStep;
    NothingHappened(start, calls);
    RunToTwoWaiting(start, p, policy, calls);
    var twice := TwoWait(start, p, policy);
    Dispatch(twice, calls[3]);
    NextIs(start, calls, 3, twice);
    var first := ResumeStep(twice, 1, true, 0).registry;
    Dispatch(first, calls[4]);
    NextIs(start, calls, 4, first);
    var both := ResumeStep(first, 2, true, 0).registry;
    Dispatch(both, calls[5]);
    NextIs(start, calls, 5, both);
    var once := ReleaseStep(both, 3, 5000, 0).registry;
    Dispatch(once, calls[6]);
    NextIs(start, calls, 6, once);
  }

  lemma OneOfTwoCools(s: Registry, p: Provider)
    requires s.waiting == map[1 := Request(Coding, {}, [p], 0, 2), 2 := Request(Coding, {}, [p], 0, 2)]
    requires s.next == 3 && s.leases == map[] && Count(s, p) == 0
    ensures var after := OneOfTwoFails(s);
      CoolingUntil(after, p, 5000) && 4 in after.leases && after.leases[4] == Lease(p, false)
  {
    var first := ResumeStep(s, 1, true, 0).registry;
    assert first.leases == map[3 := Lease(p, false)] && first.next == 4 && Count(first, p) == 1;
    assert 2 in first.waiting && first.waiting[2] == s.waiting[2];
    var both := ResumeStep(first, 2, true, 0).registry;
    assert both.leases == map[3 := Lease(p, false), 4 := Lease(p, false)];
  }

  lemma LastReleaseCounts(s: Registry, p: Provider)
    requires 4 in s.leases && s.leases[4] == Lease(p, false)
    ensures !Cooling(ReleaseStep(s, 4, 1000, 0).registry.cooldowns, p, 1000)
  {
  }

  /** The provider was to rest for five seconds and rests for one. */
  lemma CooldownIsCutShort(p: Provider, policy: Policy)
    requires IsEnabled(policy, p)
    ensures var calls := ShortenedCalls(p, policy);
      && CoolingUntil(Reached({}, calls[..6]), p, 5000)
      && !Cooling(Reached({}, calls).cooldowns, p, 1000)
  {
    var s := TwoWait(Initial({}), p, policy);
    ShortenedRun(p, policy, ShortenedCalls(p, policy), Initial({}));
    BothWait(p, policy);
    hide TwoWait, OneOfTwoFails, ReleaseStep, After;
    OneOfTwoCools(s, p);
    LastReleaseCounts(OneOfTwoFails(s), p);
  }
}
