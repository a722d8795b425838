/** Which provider an acquire asks and gets, said in terms of the tables of the registry. */
module RegistryLaws {
  import opened Basics
  import opened RoutingPolicy
  import opened ProviderRegistry

  function LeasesOut(s: Registry, p: Provider): int {
    if p in s.active then s.active[p] else 0
  }

  /** Room for leases: at least one. */
  function Room(s: Registry, p: Provider): int {
    if p in s.limits && s.limits[p] > 1 then s.limits[p] else 1
  }

  /** What an acquire checks of a provider when it comes to it. */
  predicate Passes(s: Registry, c: Capability, excluded: set<Provider>, now: int, p: Provider) {
    && p !in excluded && !(p in s.cooldowns && now < s.cooldowns[p])
    && p in s.skills && c in s.skills[p] && LeasesOut(s, p) < Room(s, p)
  }

  predicate Suits(s: Registry, c: Capability, excluded: set<Provider>, now: int, p: Provider) {
    p in s.connected && Passes(s, c, excluded, now, p)
  }

  lemma EligiblePasses(s: Registry, c: Capability, excluded: set<Provider>, now: int, p: Provider)
    ensures Eligible(s, c, excluded, now, p) <==> Passes(s, c, excluded, now, p)
  {
  }

  // A fresh acquire

  /** `p` suits, and nobody before it in the order does. */
  ghost predicate FirstToSuit(s: Registry, c: Capability, excluded: set<Provider>, now: int, order: seq<Provider>,
                              p: Provider)
  {
    && p in order && Suits(s, c, excluded, now, p)
    && forall k :: 0 <= k < Place(order, p) ==> !Suits(s, c, excluded, now, order[k])
  }

  ghost predicate IsPreferred(order: seq<Provider>, preferred: Option<Provider>, p: Provider) {
    preferred == Some(p) && p != "" && p in order
  }

  /** What stands before `xs[i]` in the order, and is in `xs` at all, stands before it in `xs`. */
  lemma EarlierInBoth(order: seq<Provider>, xs: seq<Provider>, i: nat, k: nat) returns (m: nat)
    requires InOrderOf(order, xs) && NoDup(order) && i < |xs|
    requires xs[i] in order && k < Place(order, xs[i]) && order[k] in xs
    ensures m < i && xs[m] == order[k]
  {
    m :| 0 <= m < |xs| && xs[m] == order[k];
    assert Place(order, order[k]) == k;
    assert xs[m] in xs;
  }

  lemma OrderedByItself(order: seq<Provider>)
    requires NoDup(order)
    ensures InOrderOf(order, order)
  {
    forall i, j | 0 <= i < j < |order| ensures Place(order, order[i]) < Place(order, order[j]) {
      assert Place(order, order[i]) == i && Place(order, order[j]) == j;
    }
  }

  /** The order of an acquire: the connected ones, in order, but for the preferred one in front. */
  lemma OrderOfAcquire(s: Registry, c: Capability, preferred: Option<Provider>, policy: Policy)
    returns (rest: seq<Provider>)
    ensures var order := Resolve(policy, c, s.providers); var mine := PrioritizedOrder(s, c, preferred, policy);
      NoDup(order) && InOrderOf(order, rest) && Arranged(s, preferred, order, mine, rest)
  {
    var order := Resolve(policy, c, s.providers);
    ResolveNoDup(policy, c, s.providers);
    hide Resolve, Place, InOrderOf;
    OrderedByItself(order);
    KeepKeepsOrder(order, order, Connected(s.connected));
    rest := OthersBehind(order, ProviderOrder(s, c, policy), preferred);
  }

  lemma OthersBehind(order: seq<Provider>, kept: seq<Provider>, preferred: Option<Provider>)
    returns (rest: seq<Provider>)
    requires InOrderOf(order, kept)
    ensures InOrderOf(order, rest)
    ensures var mine := Prioritized(kept, preferred);
      && (forall p :: p in mine <==> p in kept)
      && (if preferred.Some? && preferred.value != "" && preferred.value in kept
          then mine == [preferred.value] + rest && (forall p :: p in rest <==> p in mine && p != preferred.value)
          else mine == rest)
  {
    hide InOrderOf;
    rest := kept;
    if preferred.Some? && preferred.value != "" && preferred.value in kept {
      rest := Keep(kept, Others(preferred.value));
      KeepKeepsOrder(order, kept, Others(preferred.value));
    }
  }

  /**
   An acquire asks the preferred provider if that one suits, and otherwise the first provider of the
   resolved order that does; it gives up if and only if none does. Who suits is registered with the
   capability, connected, not excluded, not cooling down and below its limit.
   */
  lemma AcquireAsks(s: Registry, c: Capability, excluded: set<Provider>, preferred: Option<Provider>, policy: Policy,
                    now: int)
    ensures var step := Apply(s, Acquire(c, excluded, preferred, policy, now));
      var order := Resolve(policy, c, s.providers);
      && (step.answer.Unavailable? <==> forall p :: p in order ==> !Suits(s, c, excluded, now, p))
      && (!step.answer.Unavailable? ==>
            exists p :: Asked(step) == Some(p) && p in order && Suits(s, c, excluded, now, p)
              && (if exists q :: IsPreferred(order, preferred, q) && Suits(s, c, excluded, now, q)
                  then preferred == Some(p) else FirstToSuit(s, c, excluded, now, order, p)))
  {
    var order, mine := Resolve(policy, c, s.providers), PrioritizedOrder(s, c, preferred, policy);
    var rest := OrderOfAcquire(s, c, preferred, policy);
    assert Apply(s, Acquire(c, excluded, preferred, policy, now)) == AcquireStep(s, c, excluded, mine, now);
    hide Apply, AcquireStep, Resolve, PrioritizedOrder, Place, InOrderOf, Arranged, Asked;
    var i := FirstIsTheSame(s, c, excluded, now, mine);
    FirstOfArranged(s, c, excluded, preferred, now, order, mine, rest, i);
  }

  /** The first that passes, of the connected ones with the preferred in front, is the one to ask. */
  lemma FirstOfArranged(s: Registry, c: Capability, excluded: set<Provider>, preferred: Option<Provider>, now: int,
                        order: seq<Provider>, mine: seq<Provider>, rest: seq<Provider>, i: nat)
    requires NoDup(order) && InOrderOf(order, rest) && Arranged(s, preferred, order, mine, rest) && i <= |mine|
    requires i < |mine| ==> Passes(s, c, excluded, now, mine[i])
    requires forall k :: 0 <= k < i ==> !Passes(s, c, excluded, now, mine[k])
    ensures i == |mine| <==> forall p :: p in order ==> !Suits(s, c, excluded, now, p)
    ensures i < |mine| ==>
        && mine[i] in order && Suits(s, c, excluded, now, mine[i])
        && (if exists q :: IsPreferred(order, preferred, q) && Suits(s, c, excluded, now, q)
            then preferred == Some(mine[i]) else FirstToSuit(s, c, excluded, now, order, mine[i]))
  {
    hide Passes, InOrderOf, Place;
    if i < |mine| {
      assert mine[i] in mine;
      if !exists q :: IsPreferred(order, preferred, q) && Suits(s, c, excluded, now, q) {
        forall k | 0 <= k < Place(order, mine[i]) ensures !Suits(s, c, excluded, now, order[k]) {
          NobodyPassedOver(s, c, excluded, preferred, now, order, mine, rest, i, k);
        }
      }
    }
  }

  ghost predicate Arranged(s: Registry, preferred: Option<Provider>, order: seq<Provider>, mine: seq<Provider>,
                           rest: seq<Provider>)
  {
    && (forall p :: p in mine <==> p in order && p in s.connected)
    && (if preferred.Some? && preferred.value != "" && preferred.value in order && preferred.value in s.connected
        then mine == [preferred.value] + rest && (forall p :: p in rest <==> p in mine && p != preferred.value)
        else mine == rest)
  }

  lemma NobodyPassedOver(s: Registry, c: Capability, excluded: set<Provider>, preferred: Option<Provider>, now: int,
                         order: seq<Provider>, mine: seq<Provider>, rest: seq<Provider>, i: nat, k: nat)
    requires NoDup(order) && InOrderOf(order, rest) && Arranged(s, preferred, order, mine, rest)
    requires i < |mine| && mine[i] in order && k < Place(order, mine[i])
    requires Passes(s, c, excluded, now, mine[i])
    requires forall m :: 0 <= m < i ==> !Passes(s, c, excluded, now, mine[m])
    requires forall q :: IsPreferred(order, preferred, q) ==> !Suits(s, c, excluded, now, q)
    ensures !Suits(s, c, excluded, now, order[k])
  {
    hide Passes, InOrderOf;
    if order[k] in mine {
      if mine == rest {
        var m := EarlierInBoth(order, rest, i, k);
      } else {
        assert IsPreferred(order, preferred, mine[0]);
        if order[k] != mine[0] {
          var m := EarlierInBoth(order, rest, i - 1, k);
          assert mine[m + 1] == order[k];
        }
      }
    }
  }

  lemma FirstIsTheSame(s: Registry, c: Capability, excluded: set<Provider>, now: int, mine: seq<Provider>)
    returns (i: nat)
    ensures i <= |mine| && (i < |mine| ==> Passes(s, c, excluded, now, mine[i]))
    ensures forall k :: 0 <= k < i ==> !Passes(s, c, excluded, now, mine[k])
    ensures var step := AcquireStep(s, c, excluded, mine, now);
      if i < |mine| then !step.answer.Unavailable? && Asked(step) == Some(mine[i]) else step.answer.Unavailable?
  {
    i := FirstEligible(s.(next := s.next + 1), c, excluded, now, mine, 0);
    hide FirstEligible;
    forall p ensures Eligible(s.(next := s.next + 1), c, excluded, now, p) <==> Passes(s, c, excluded, now, p) {
    }
    hide Eligible, Passes;
  }

  // An acquire of one provider

  /** It asks the provider exactly when it is registered with the capability, connected, enabled and below its limit. */
  lemma AcquireProviderAsks(s: Registry, p: Provider, c: Capability, policy: Policy)
    ensures var step := Apply(s, AcquireProvider(p, c, policy));
      if p in s.skills && c in s.skills[p] && p in s.connected
         && (p !in policy.controls || policy.controls[p].mode == Enabled) && LeasesOut(s, p) < Room(s, p)
      then Asked(step) == Some(p) && step.registry.waiting[step.answer.ticket].limit == Room(s, p)
      else step.answer.Unavailable? && step.registry == s
  {
  }

  // A resumed acquire

  /** The provider that a suspended acquire waits for. */
  function WaitsFor(s: Registry, ticket: int): Option<Provider> {
    if ticket in s.waiting && s.waiting[ticket].at < |s.waiting[ticket].order|
    then Some(s.waiting[ticket].order[s.waiting[ticket].at]) else None
  }

  /**
   A resumed acquire is granted the provider it waited for if and only if that is ready and has fewer
   leases than the limit captured; then one more lease of it is out. Otherwise it asks the first later
   provider of its order that passes now, if there is one.
   */
  lemma ResumeGrantsOrMovesOn(s: Registry, ticket: int, ready: bool, now: int)
    requires WaitsFor(s, ticket).Some?
    ensures var step := Apply(s, Resume(ticket, ready, now));
      var r, p := s.waiting[ticket], WaitsFor(s, ticket).value;
      if ready && LeasesOut(s, p) < r.limit then
        && step.answer == Granted(s.next) && LeasesOut(step.registry, p) == LeasesOut(s, p) + 1
        && step.registry.leases == s.leases[s.next := Lease(p, false)] && ticket !in step.registry.waiting
      else
        && step.registry.leases == s.leases && step.registry.active == s.active
        && (step.answer.Unavailable? <==>
              forall k :: r.at < k < |r.order| ==> !Passes(s, r.capability, r.excluded, now, r.order[k]))
        && (!step.answer.Unavailable? ==>
              step.answer == Asking(ticket) && ticket in step.registry.waiting
              && NextToPass(s, r, now, step.registry.waiting[ticket]))
  {
    assert Apply(s, Resume(ticket, ready, now)) == ResumeStep(s, ticket, ready, now);
    hide Apply, Resolve, Eligible;
    forall p, c, excluded ensures Eligible(s, c, excluded, now, p) <==> Passes(s, c, excluded, now, p) {
      EligiblePasses(s, c, excluded, now, p);
    }
  }

  /** The request waits for the first later provider of its order that passes, and captured its limit. */
  ghost predicate NextToPass(s: Registry, r: Request, now: int, after: Request) {
    && after.order == r.order && after.capability == r.capability && after.excluded == r.excluded
    && r.at < after.at < |r.order|
    && Passes(s, r.capability, r.excluded, now, r.order[after.at])
    && after.limit == Room(s, r.order[after.at])
    && forall k :: r.at < k < after.at ==> !Passes(s, r.capability, r.excluded, now, r.order[k])
  }

  // Where requests come from

  /** Everything the request may be granted was connected and enabled when its call was made. */
  ghost predicate StartedBy(s: Registry, c: Call, r: Request) {
    match c
    case Acquire(capability, excluded, preferred, policy, now) =>
      && r.capability == capability && r.excluded == excluded
      && forall p :: p in r.order ==> p in s.connected && p in Resolve(policy, capability, s.providers)
    case AcquireProvider(p, capability, policy) =>
      && r.capability == capability && r.order == [p] && p in s.connected
      && (p !in policy.controls || policy.controls[p].mode == Enabled)
    case _ => false
  }

  /** The request is the one of that ticket before, at whatever place of its order. */
  ghost predicate Continues(s: Registry, ticket: int, r: Request) {
    && ticket in s.waiting && r.order == s.waiting[ticket].order && r.capability == s.waiting[ticket].capability
    && r.excluded == s.waiting[ticket].excluded
  }

  lemma ProbeRequest(s: Registry, ticket: int, c: Capability, excluded: set<Provider>, order: seq<Provider>, at: nat,
                     now: int)
    requires at <= |order|
    ensures var after := Probe(s, ticket, c, excluded, order, at, now).registry.waiting;
      forall t :: t in after ==>
        if t == ticket then after[t].order == order && after[t].capability == c && after[t].excluded == excluded
        else t in s.waiting && after[t] == s.waiting[t]
  {
  }

  lemma OrderIsConnected(s: Registry, c: Capability, preferred: Option<Provider>, policy: Policy)
    ensures forall p :: p in PrioritizedOrder(s, c, preferred, policy) ==>
        p in s.connected && p in Resolve(policy, c, s.providers)
  {
    var rest := OrderOfAcquire(s, c, preferred, policy);
    hide Resolve, PrioritizedOrder, InOrderOf, NoDup;
  }

  lemma AcquireIs(s: Registry, c: Call)
    requires c.Acquire?
    ensures var order := PrioritizedOrder(s, c.capability, c.preferred, c.policy);
      Apply(s, c) == Probe(s.(next := s.next + 1), s.next, c.capability, c.excluded, order, 0, c.now)
  {
    hide Probe, PrioritizedOrder;
  }

  lemma AcquireStarts(s: Registry, c: Call, ticket: int)
    requires c.Acquire? && ticket in Apply(s, c).registry.waiting
    ensures StartedBy(s, c, Apply(s, c).registry.waiting[ticket])
      || Continues(s, ticket, Apply(s, c).registry.waiting[ticket])
  {
    hide Apply, Probe, PrioritizedOrder, Resolve;
    var order := PrioritizedOrder(s, c.capability, c.preferred, c.policy);
    OrderIsConnected(s, c.capability, c.preferred, c.policy);
    AcquireIs(s, c);
    ProbeRequest(s.(next := s.next + 1), s.next, c.capability, c.excluded, order, 0, c.now);
  }

  lemma ResumeStarts(s: Registry, c: Call, ticket: int)
    requires c.Resume? && ticket in Apply(s, c).registry.waiting
    ensures Continues(s, ticket, Apply(s, c).registry.waiting[ticket])
  {
    hide Probe;
    assert Apply(s, c) == ResumeStep(s, c.ticket, c.ready, c.now);
    hide Apply;
    if c.ticket in s.waiting && s.waiting[c.ticket].at < |s.waiting[c.ticket].order| {
      var r := s.waiting[c.ticket];
      ProbeRequest(s, c.ticket, r.capability, r.excluded, r.order, r.at + 1, c.now);
    }
  }

  lemma OtherStarts(s: Registry, c: Call, ticket: int)
    requires !c.Acquire? && !c.Resume? && ticket in Apply(s, c).registry.waiting
    ensures StartedBy(s, c, Apply(s, c).registry.waiting[ticket])
      || Continues(s, ticket, Apply(s, c).registry.waiting[ticket])
  {
    hide Resolve;
    if c.AcquireProvider? {
      AcquireProviderAsks(s, c.provider, c.capability, c.policy);
    }
  }

  /** Every suspended acquire of a run was started by a call that named its capability, exclusions and providers. */
  lemma {:induction false} RequestHasItsCall(connected: set<Provider>, calls: seq<Call>, ticket: int) returns (n: nat)
    requires ticket in Reached(connected, calls).waiting
    ensures n < |calls|
    ensures StartedBy(Reached(connected, calls[..n]), calls[n], Reached(connected, calls).waiting[ticket])
  {
    hide Apply, StartedBy;
    var init := calls[..|calls| - 1];
    if calls[|init|].Acquire? {
      AcquireStarts(Reached(connected, init), calls[|init|], ticket);
    } else if calls[|init|].Resume? {
      ResumeStarts(Reached(connected, init), calls[|init|], ticket);
    } else {
      OtherStarts(Reached(connected, init), calls[|init|], ticket);
    }
    n := |init|;
    if !StartedBy(Reached(connected, init), calls[n], Reached(connected, calls).waiting[ticket]) {
      n := RequestHasItsCall(connected, init, ticket);
      assert init[..n] == calls[..n];
      SameRequest(Reached(connected, init[..n]), calls[n], Reached(connected, init).waiting[ticket],
                  Reached(connected, calls).waiting[ticket]);
    }
  }

  lemma SameRequest(s: Registry, c: Call, r: Request, after: Request)
    requires StartedBy(s, c, r)
    requires after.order == r.order && after.capability == r.capability && after.excluded == r.excluded
    ensures StartedBy(s, c, after)
  {
  }

  // Disconnected providers

  predicate Connects(c: Call, p: Provider) {
    (c.Connect? || (c.Register? && c.connect)) && c.provider == p
  }

  lemma StaysApart(s: Registry, c: Call, p: Provider)
    requires p !in s.connected && !Connects(c, p)
    ensures p !in Apply(s, c).registry.connected
  {
    hide Resolve;
  }

  lemma {:induction false} StaysDisconnected(s: Registry, calls: seq<Call>, p: Provider)
    requires p !in s.connected && forall n :: 0 <= n < |calls| ==> !Connects(calls[n], p)
    ensures p !in After(s, calls).connected
    decreases |calls|
  {
    hide Apply;
    if calls != [] {
      StaysDisconnected(s, calls[..|calls| - 1], p);
      StaysApart(After(s, calls[..|calls| - 1]), calls[|calls| - 1], p);
    }
  }

  /**
   After an accepted disconnection no new acquire asks the provider, whatever happens, until it is
   connected again.
   */
  lemma DisconnectedIsNotAsked(s: Registry, p: Provider, calls: seq<Call>, acquire: Call)
    requires Apply(s, Disconnect(p)).answer == Done
    requires forall n :: 0 <= n < |calls| ==> !Connects(calls[n], p)
    requires acquire.Acquire? || acquire.AcquireProvider?
    ensures Asked(Apply(After(Apply(s, Disconnect(p)).registry, calls), acquire)) != Some(p)
  {
    hide Apply, After, Asked;
    DisconnectIsDone(s, p);
    StaysDisconnected(Apply(s, Disconnect(p)).registry, calls, p);
    ApartIsNotAsked(After(Apply(s, Disconnect(p)).registry, calls), p, acquire);
  }

  lemma DisconnectIsDone(s: Registry, p: Provider)
    requires Apply(s, Disconnect(p)).answer == Done
    ensures p !in Apply(s, Disconnect(p)).registry.connected
  {
  }

  lemma ApartIsNotAsked(s: Registry, p: Provider, acquire: Call)
    requires p !in s.connected && (acquire.Acquire? || acquire.AcquireProvider?)
    ensures Asked(Apply(s, acquire)) != Some(p)
  {
    if acquire.Acquire? {
      AcquireAsks(s, acquire.capability, acquire.excluded, acquire.preferred, acquire.policy, acquire.now);
      hide Apply;
      assert Apply(s, acquire).answer.Unavailable? ==> Asked(Apply(s, acquire)).None?;
    } else {
      AcquireProviderAsks(s, acquire.provider, acquire.capability, acquire.policy);
    }
  }

  // Refusals

  /** A provider with an unreleased lease cannot be replaced, removed or disconnected, in any run. */
  lemma RefusedIff(connected: set<Provider>, calls: seq<Call>, c: Call)
    ensures var s := Reached(connected, calls); var answer := Apply(s, c).answer;
      && (c.Register? ==> (answer.Refused? <==> c.provider in s.skills))
      && (c.Connect? ==> (answer.Refused? <==> c.provider !in s.skills))
      && (c.Replace? || c.Unregister? || c.Disconnect? ==>
            (answer.Refused? <==> c.provider !in s.skills || Held(s.leases, c.provider) != {}))
      && (answer.Refused? ==> Apply(s, c).registry == s)
  {
    CountIsUnreleasedLeases(connected, calls);
    hide Resolve;
  }

  // What registrations leave behind

  predicate Installs(c: Call, p: Provider) {
    (c.Register? || c.Replace? || c.Unregister?) && c.provider == p
  }

  /** The provider has these capabilities, and room for at least one lease and at most `limit`. */
  predicate InstalledAs(s: Registry, p: Provider, capabilities: set<Capability>, limit: int) {
    p in s.skills && s.skills[p] == capabilities && Room(s, p) == if limit > 1 then limit else 1
  }

  lemma StaysInstalledStep(s: Registry, c: Call, p: Provider, capabilities: set<Capability>, limit: int)
    requires InstalledAs(s, p, capabilities, limit) && !Installs(c, p)
    ensures InstalledAs(Apply(s, c).registry, p, capabilities, limit)
  {
    hide Resolve;
  }

  lemma {:induction false} StaysInstalled(s: Registry, calls: seq<Call>, p: Provider, capabilities: set<Capability>,
                                          limit: int)
    requires InstalledAs(s, p, capabilities, limit) && forall n :: 0 <= n < |calls| ==> !Installs(calls[n], p)
    ensures InstalledAs(After(s, calls), p, capabilities, limit)
    decreases |calls|
  {
    hide Apply, InstalledAs;
    if calls != [] {
      StaysInstalled(s, calls[..|calls| - 1], p, capabilities, limit);
      StaysInstalledStep(After(s, calls[..|calls| - 1]), calls[|calls| - 1], p, capabilities, limit);
    }
  }

  lemma InstallationIsDone(s: Registry, c: Call)
    requires (c.Register? || c.Replace?) && Apply(s, c).answer == Done
    ensures var t := Apply(s, c).registry;
      && InstalledAs(t, c.provider, c.capabilities, c.limit)
      && (c.Register? ==> t.connected == s.connected + if c.connect then {c.provider} else {})
      && (c.Register? ==> t.providers == s.providers + [c.provider])
      && (c.Replace? ==> t.connected == s.connected && t.providers == s.providers && c.provider !in t.cooldowns)
  {
  }

  /**
   A provider has the capabilities and the limit, at least one, of its last accepted registration or
   replacement, whatever else happens.
   */
  lemma InstalledUntilReplaced(s: Registry, c: Call, calls: seq<Call>)
    requires (c.Register? || c.Replace?) && Apply(s, c).answer == Done
    requires forall n :: 0 <= n < |calls| ==> !Installs(calls[n], c.provider)
    ensures InstalledAs(After(Apply(s, c).registry, calls), c.provider, c.capabilities, c.limit)
  {
    hide Apply, InstalledAs;
    InstallationIsDone(s, c);
    StaysInstalled(Apply(s, c).registry, calls, c.provider, c.capabilities, c.limit);
  }

  lemma StaysConnectedStep(s: Registry, c: Call, p: Provider)
    requires p in s.connected && !((c.Disconnect? || c.Unregister?) && c.provider == p)
    ensures p in Apply(s, c).registry.connected
  {
    hide Resolve;
  }

  /** A connected provider stays connected until it is disconnected or removed. */
  lemma {:induction false} ConnectedUntilDisconnected(s: Registry, calls: seq<Call>, p: Provider)
    requires p in s.connected
    requires forall n :: 0 <= n < |calls| ==>
        !((calls[n].Disconnect? || calls[n].Unregister?) && calls[n].provider == p)
    ensures p in After(s, calls).connected
    decreases |calls|
  {
    hide Apply;
    if calls != [] {
      ConnectedUntilDisconnected(s, calls[..|calls| - 1], p);
      StaysConnectedStep(After(s, calls[..|calls| - 1]), calls[|calls| - 1], p);
    }
  }

  /** Connecting connects; disconnecting and removing end a cooldown, and removing forgets the provider. */
  lemma ConnectionIsDone(s: Registry, c: Call)
    requires (c.Connect? || c.Disconnect? || c.Unregister?) && Apply(s, c).answer == Done
    ensures var t, p := Apply(s, c).registry, c.provider;
      && (p in t.connected <==> c.Connect?)
      && (!c.Connect? ==> p !in t.cooldowns)
      && (if c.Unregister? then
            p !in t.skills && p !in t.limits && forall q :: q in t.providers <==> q in s.providers && q != p
          else t.skills == s.skills && t.limits == s.limits && t.providers == s.providers)
  {
  }
}
