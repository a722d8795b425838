/**
 Provider leases (src/agents/registry.ts). An acquire checks capacity, suspends while the provider
 reports its health, and checks capacity again against the limit it captured; anything may happen
 to the registry in between. Each suspended acquire is a row of `waiting`.
 */
module ProviderRegistry {
  import opened Basics
  import opened RoutingPolicy

  datatype Lease = Lease(provider: Provider, released: bool)

  /** An acquire suspended on the health of `order[at]`, with the limit it captured before. */
  datatype Request = Request(capability: Capability, excluded: set<Provider>, order: seq<Provider>, at: nat, limit: int)

  datatype Registry = Registry(
    providers: seq<Provider>, skills: map<Provider, set<Capability>>, limits: map<Provider, int>,
    active: map<Provider, int>, cooldowns: map<Provider, int>, connected: set<Provider>,
    leases: map<int, Lease>, waiting: map<int, Request>, next: int)

  function Initial(connected: set<Provider>): Registry {
    Registry([], map[], map[], map[], map[], connected, map[], map[], 1)
  }

  datatype Error = AlreadyRegistered | NotRegistered | Busy

  datatype Answer = Asking(ticket: int) | Unavailable | Granted(lease: int) | Done | Refused(error: Error)

  datatype Step = Step(registry: Registry, answer: Answer)

  datatype Call =
    | Acquire(capability: Capability, excluded: set<Provider>, preferred: Option<Provider>, policy: Policy, now: int)
    | AcquireProvider(provider: Provider, capability: Capability, policy: Policy)
    | Resume(ticket: int, ready: bool, now: int)
    | Release(lease: int, retryAfterMs: int, now: int)
    | Connect(provider: Provider)
    | Disconnect(provider: Provider)
    | Register(provider: Provider, capabilities: set<Capability>, limit: int, connect: bool)
    | Replace(provider: Provider, capabilities: set<Capability>, limit: int)
    | Unregister(provider: Provider)

  const MIN_COOLDOWN_MS := 1000

  function Max(a: int, b: int): int {
    if a < b then b else a
  }

  function CountIn(active: map<Provider, int>, p: Provider): int {
    if p in active then active[p] else 0
  }

  function LimitIn(limits: map<Provider, int>, p: Provider): int {
    if p in limits then Max(1, limits[p]) else 1
  }

  function Count(s: Registry, p: Provider): int {
    CountIn(s.active, p)
  }

  function Limit(s: Registry, p: Provider): int {
    LimitIn(s.limits, p)
  }

  // The order of providers

  function Connected(connected: set<Provider>): Provider -> bool {
    p => p in connected
  }

  function ProviderOrder(s: Registry, c: Capability, policy: Policy): seq<Provider> {
    Keep(Resolve(policy, c, s.providers), Connected(s.connected))
  }

  function Prioritized(order: seq<Provider>, preferred: Option<Provider>): seq<Provider> {
    if preferred.None? || preferred.value == "" || preferred.value !in order then order
    else [preferred.value] + Keep(order, Others(preferred.value))
  }

  lemma ResolveNoDup(policy: Policy, c: Capability, registered: seq<Provider>)
    ensures NoDup(Resolve(policy, c, registered))
  {
    KeepNoDup(Dedup(Candidates(policy, c, registered)), EnabledIn(policy.controls));
  }

  lemma {:induction false} WithoutOne(order: seq<Provider>, p: Provider)
    requires NoDup(order)
    ensures multiset(Keep(order, Others(p))) == multiset(order) - multiset{p}
  {
    if order != [] {
      var init, last := order[..|order| - 1], order[|order| - 1];
      assert order == init + [last];
      assert last !in init;
      if last == p {
        KeepAll(init, Others(p));
        assert p !in multiset(init);
      } else {
        WithoutOne(init, p);
      }
    }
  }

  /** Preferring a provider moves it to the front and changes nothing else: nobody is lost, doubled or added. */
  lemma PrioritizedIsPermutation(order: seq<Provider>, preferred: Option<Provider>)
    requires NoDup(order)
    ensures var r := Prioritized(order, preferred);
      && multiset(r) == multiset(order) && NoDup(r)
      && (preferred.Some? && preferred.value != "" && preferred.value in order ==> r[0] == preferred.value)
  {
    if preferred.Some? && preferred.value != "" && preferred.value in order {
      WithoutOne(order, preferred.value);
      KeepNoDup(order, Others(preferred.value));
      var others := Keep(order, Others(preferred.value));
      assert preferred.value !in others;
      hide Keep;
      PutBack(order, others, preferred.value);
    }
  }

  lemma PutBack(order: seq<Provider>, others: seq<Provider>, p: Provider)
    requires p in order && multiset(others) == multiset(order) - multiset{p}
    ensures multiset([p] + others) == multiset(order)
  {
    assert multiset(order)[p] > 0;
  }

  lemma PrioritizedNoDup(s: Registry, c: Capability, policy: Policy, preferred: Option<Provider>)
    ensures NoDup(PrioritizedOrder(s, c, preferred, policy))
  {
    ResolveNoDup(policy, c, s.providers);
    KeepNoDup(Resolve(policy, c, s.providers), Connected(s.connected));
    PrioritizedIsPermutation(ProviderOrder(s, c, policy), preferred);
  }

  // Looking for a provider

  predicate Cooling(cooldowns: map<Provider, int>, p: Provider, now: int) {
    p in cooldowns && now < cooldowns[p]
  }

  predicate Eligible(s: Registry, c: Capability, excluded: set<Provider>, now: int, p: Provider) {
    && p !in excluded && !Cooling(s.cooldowns, p, now)
    && p in s.skills && c in s.skills[p] && Count(s, p) < Limit(s, p)
  }

  /** The first eligible place of `order` from `at` on; its length when there is none. */
  function FirstEligible(s: Registry, c: Capability, excluded: set<Provider>, now: int, order: seq<Provider>,
                         at: nat): (i: nat)
    requires at <= |order|
    ensures at <= i <= |order|
    ensures i < |order| ==> Eligible(s, c, excluded, now, order[i])
    ensures forall k :: at <= k < i ==> !Eligible(s, c, excluded, now, order[k])
    decreases |order| - at
  {
    if at == |order| || Eligible(s, c, excluded, now, order[at]) then at
    else FirstEligible(s, c, excluded, now, order, at + 1)
  }

  /** Looking at a provider's cooldown drops it when it is over. */
  function Purged(cooldowns: map<Provider, int>, seen: set<Provider>, now: int): map<Provider, int> {
    map p | p in cooldowns && (p !in seen || now < cooldowns[p]) :: cooldowns[p]
  }

  /** The providers whose cooldown was looked at on the way from `at` to `i`. */
  function Seen(order: seq<Provider>, excluded: set<Provider>, at: nat, i: nat): set<Provider>
    requires at <= i <= |order|
  {
    Elements(order[at..if i < |order| then i + 1 else i]) - excluded
  }

  /** Goes on looking from `at`: suspends on the next eligible provider, or gives up. */
  function Probe(s: Registry, ticket: int, c: Capability, excluded: set<Provider>, order: seq<Provider>, at: nat,
                 now: int): Step
    requires at <= |order|
  {
    var i := FirstEligible(s, c, excluded, now, order, at);
    var cooldowns := Purged(s.cooldowns, Seen(order, excluded, at, i), now);
    if i == |order| then Step(s.(cooldowns := cooldowns, waiting := s.waiting - {ticket}), Unavailable)
    else
      var request := Request(c, excluded, order, i, Limit(s, order[i]));
      Step(s.(cooldowns := cooldowns, waiting := s.waiting[ticket := request]), Asking(ticket))
  }

  /** Starts looking, in the order of the policy at the time of the call. */
  function AcquireStep(s: Registry, c: Capability, excluded: set<Provider>, order: seq<Provider>, now: int): Step {
    Probe(s.(next := s.next + 1), s.next, c, excluded, order, 0, now)
  }

  function PrioritizedOrder(s: Registry, c: Capability, preferred: Option<Provider>, policy: Policy): seq<Provider> {
    Prioritized(ProviderOrder(s, c, policy), preferred)
  }

  predicate Selectable(s: Registry, p: Provider, c: Capability, policy: Policy) {
    p in s.skills && p in s.connected && c in s.skills[p] && IsEnabled(policy, p)
  }

  function AcquireProviderStep(s: Registry, p: Provider, c: Capability, policy: Policy): Step {
    if !Selectable(s, p, c, policy) || Count(s, p) >= Limit(s, p) then Step(s, Unavailable)
    else
      var request := Request(c, {}, [p], 0, Limit(s, p));
      Step(s.(waiting := s.waiting[s.next := request], next := s.next + 1), Asking(s.next))
  }

  function ResumeStep(s: Registry, ticket: int, ready: bool, now: int): Step {
    if ticket !in s.waiting || s.waiting[ticket].at >= |s.waiting[ticket].order| then Step(s, Unavailable)
    else
      var request := s.waiting[ticket];
      var p := request.order[request.at];
      if ready && Count(s, p) < request.limit then
        Step(s.(active := s.active[p := Count(s, p) + 1], leases := s.leases[s.next := Lease(p, false)],
                waiting := s.waiting - {ticket}, next := s.next + 1), Granted(s.next))
      else Probe(s, ticket, request.capability, request.excluded, request.order, request.at + 1, now)
  }

  /** The counts after one release: at least zero, and absent at zero. */
  function OneLess(active: map<Provider, int>, p: Provider): map<Provider, int> {
    var remaining := Max(0, (if p in active then active[p] else 1) - 1);
    if remaining == 0 then active - {p} else active[p := remaining]
  }

  function Cooled(cooldowns: map<Provider, int>, p: Provider, retryAfterMs: int, now: int): map<Provider, int> {
    if retryAfterMs != 0 then cooldowns[p := now + Max(MIN_COOLDOWN_MS, retryAfterMs)] else cooldowns
  }

  /** `retryAfterMs` is zero unless the feedback is retryable and says how long to wait. */
  function ReleaseStep(s: Registry, lease: int, retryAfterMs: int, now: int): Step {
    if lease !in s.leases || s.leases[lease].released then Step(s, Done)
    else
      var p := s.leases[lease].provider;
      Step(s.(leases := s.leases[lease := Lease(p, true)], active := OneLess(s.active, p),
              cooldowns := Cooled(s.cooldowns, p, retryAfterMs, now)),
           Done)
  }

  function ConnectStep(s: Registry, p: Provider): Step {
    if p !in s.skills then Step(s, Refused(NotRegistered)) else Step(s.(connected := s.connected + {p}), Done)
  }

  function DisconnectStep(s: Registry, p: Provider): Step {
    if Count(s, p) > 0 then Step(s, Refused(Busy))
    else if p !in s.skills then Step(s, Refused(NotRegistered))
    else Step(s.(cooldowns := s.cooldowns - {p}, connected := s.connected - {p}), Done)
  }

  function RegisterStep(s: Registry, p: Provider, capabilities: set<Capability>, limit: int, connect: bool): Step {
    if p in s.skills then Step(s, Refused(AlreadyRegistered))
    else Step(s.(providers := s.providers + [p], skills := s.skills[p := capabilities],
                 limits := s.limits[p := Max(1, limit)],
                 connected := if connect then s.connected + {p} else s.connected), Done)
  }

  function ReplaceStep(s: Registry, p: Provider, capabilities: set<Capability>, limit: int): Step {
    if p !in s.skills then Step(s, Refused(NotRegistered))
    else if Count(s, p) > 0 then Step(s, Refused(Busy))
    else Step(s.(skills := s.skills[p := capabilities], limits := s.limits[p := Max(1, limit)],
                 cooldowns := s.cooldowns - {p}), Done)
  }

  function UnregisterStep(s: Registry, p: Provider): Step {
    if Count(s, p) > 0 then Step(s, Refused(Busy))
    else if p !in s.skills then Step(s, Refused(NotRegistered))
    else Step(s.(providers := Keep(s.providers, Others(p)), skills := s.skills - {p}, limits := s.limits - {p},
                 cooldowns := s.cooldowns - {p}, connected := s.connected - {p}), Done)
  }

  function Apply(s: Registry, c: Call): Step {
    match c
    case Acquire(capability, excluded, preferred, policy, now) =>
      AcquireStep(s, capability, excluded, PrioritizedOrder(s, capability, preferred, policy), now)
    case AcquireProvider(p, capability, policy) => AcquireProviderStep(s, p, capability, policy)
    case Resume(ticket, ready, now) => ResumeStep(s, ticket, ready, now)
    case Release(lease, retryAfterMs, now) => ReleaseStep(s, lease, retryAfterMs, now)
    case Connect(p) => ConnectStep(s, p)
    case Disconnect(p) => DisconnectStep(s, p)
    case Register(p, capabilities, limit, connect) => RegisterStep(s, p, capabilities, limit, connect)
    case Replace(p, capabilities, limit) => ReplaceStep(s, p, capabilities, limit)
    case Unregister(p) => UnregisterStep(s, p)
  }

  // What every interleaving keeps

  ghost function Held(leases: map<int, Lease>, p: Provider): set<int> {
    set l | l in leases && leases[l].provider == p && !leases[l].released
  }

  /** The count of every provider is the number of its unreleased leases. */
  ghost predicate Counted(active: map<Provider, int>, leases: map<int, Lease>) {
    forall p :: CountIn(active, p) == |Held(leases, p)| && (p in active ==> active[p] > 0)
  }

  predicate Waits(r: Request, p: Provider) {
    r.at < |r.order| && r.order[r.at] == p
  }

  predicate Asks(r: Request) {
    r.at < |r.order| && NoDup(r.order) && r.order[r.at] !in r.excluded && r.limit >= 1
  }

  ghost predicate Sound(s: Registry) {
    && Counted(s.active, s.leases)
    && (forall l :: l in s.leases ==> l < s.next)
    && (forall t :: t in s.waiting ==> t < s.next && Asks(s.waiting[t]))
    && NoDup(s.providers) && (forall p :: p in s.providers <==> p in s.skills)
    && (forall p :: p in s.limits ==> p in s.skills)
  }

  lemma HeldAfterGrant(leases: map<int, Lease>, id: int, p: Provider, q: Provider)
    requires id !in leases
    ensures |Held(leases[id := Lease(p, false)], q)| == |Held(leases, q)| + if q == p then 1 else 0
  {
    var after := leases[id := Lease(p, false)];
    if q == p {
      assert Held(after, q) == Held(leases, q) + {id};
    } else {
      assert Held(after, q) == Held(leases, q);
    }
  }

  lemma CountedAfterGrant(active: map<Provider, int>, leases: map<int, Lease>, id: int, p: Provider)
    requires Counted(active, leases) && id !in leases
    ensures Counted(active[p := CountIn(active, p) + 1], leases[id := Lease(p, false)])
  {
    hide Held;
    var more := active[p := CountIn(active, p) + 1];
    forall q ensures CountIn(more, q) == |Held(leases[id := Lease(p, false)], q)| && (q in more ==> more[q] > 0) {
      assert CountIn(active, q) == |Held(leases, q)|;
      HeldAfterGrant(leases, id, p, q);
    }
  }

  /**
   Releasing a lease that is still held takes exactly one from its provider's count: the clamp at
   zero never fires.
   */
  lemma CountedAfterRelease(active: map<Provider, int>, leases: map<int, Lease>, id: int)
    requires Counted(active, leases) && id in leases && !leases[id].released
    ensures var p := leases[id].provider; var after := OneLess(active, p);
      && (forall q :: CountIn(after, q) == CountIn(active, q) - if q == p then 1 else 0)
      && Counted(after, leases[id := Lease(p, true)])
  {
    var p := leases[id].provider;
    var after, later := OneLess(active, p), leases[id := Lease(p, true)];
    assert id in Held(leases, p);
    assert CountIn(active, p) == |Held(leases, p)|;
    forall q ensures CountIn(after, q) == |Held(later, q)| && (q in after ==> after[q] > 0) {
      assert CountIn(active, q) == |Held(leases, q)|;
      if q == p {
        assert Held(later, q) == Held(leases, q) - {id};
      } else {
        assert Held(later, q) == Held(leases, q);
      }
    }
  }

  lemma ProbeSound(s: Registry, ticket: int, c: Capability, excluded: set<Provider>, order: seq<Provider>, at: nat,
                   now: int)
    requires Sound(s) && ticket < s.next && NoDup(order) && at <= |order|
    ensures Sound(Probe(s, ticket, c, excluded, order, at, now).registry)
  {
  }

  lemma TicketSound(s: Registry)
    requires Sound(s)
    ensures Sound(s.(next := s.next + 1))
  {
  }

  lemma AcquireSound(s: Registry, c: Capability, excluded: set<Provider>, order: seq<Provider>, now: int)
    requires Sound(s) && NoDup(order)
    ensures Sound(AcquireStep(s, c, excluded, order, now).registry)
  {
    TicketSound(s);
    var before := s.(next := s.next + 1);
    ProbeSound(before, s.next, c, excluded, order, 0, now);
    assert AcquireStep(s, c, excluded, order, now) == Probe(before, s.next, c, excluded, order, 0, now);
  }

  lemma GrantSound(s: Registry, ticket: int, p: Provider)
    requires Sound(s)
    ensures Sound(s.(active := s.active[p := Count(s, p) + 1], leases := s.leases[s.next := Lease(p, false)],
                     waiting := s.waiting - {ticket}, next := s.next + 1))
  {
    CountedAfterGrant(s.active, s.leases, s.next, p);
  }

  lemma ResumeSound(s: Registry, ticket: int, ready: bool, now: int)
    requires Sound(s)
    ensures Sound(ResumeStep(s, ticket, ready, now).registry)
  {
    hide Probe, Counted, Count;
    if ticket in s.waiting {
      var r := s.waiting[ticket];
      assert Asks(r);
      GrantSound(s, ticket, r.order[r.at]);
      ProbeSound(s, ticket, r.capability, r.excluded, r.order, r.at + 1, now);
    }
  }

  lemma ReleaseSound(s: Registry, lease: int, retryAfterMs: int, now: int)
    requires Sound(s)
    ensures Sound(ReleaseStep(s, lease, retryAfterMs, now).registry)
  {
    if lease in s.leases && !s.leases[lease].released {
      CountedAfterRelease(s.active, s.leases, lease);
    }
  }

  lemma UnregisterSound(s: Registry, p: Provider)
    requires Sound(s)
    ensures Sound(UnregisterStep(s, p).registry)
  {
    KeepNoDup(s.providers, Others(p));
  }

  lemma StepSound(s: Registry, c: Call)
    requires Sound(s)
    ensures Sound(Apply(s, c).registry)
  {
    hide Sound, AcquireStep, ResumeStep, ReleaseStep, UnregisterStep, PrioritizedOrder;
    match c
    case Acquire(capability, excluded, preferred, policy, now) =>
      PrioritizedNoDup(s, capability, policy, preferred);
      AcquireSound(s, capability, excluded, PrioritizedOrder(s, capability, preferred, policy), now);
    case Resume(ticket, ready, now) => ResumeSound(s, ticket, ready, now);
    case Release(lease, retryAfterMs, now) => ReleaseSound(s, lease, retryAfterMs, now);
    case Unregister(p) => UnregisterSound(s, p);
    case _ => OtherSound(s, c);
  }

  lemma OtherSound(s: Registry, c: Call)
    requires Sound(s) && !c.Acquire? && !c.Resume? && !c.Release? && !c.Unregister?
    ensures Sound(Apply(s, c).registry)
  {
  }

  function After(s: Registry, calls: seq<Call>): Registry {
    if calls == [] then s else Apply(After(s, calls[..|calls| - 1]), calls[|calls| - 1]).registry
  }

  function Reached(connected: set<Provider>, calls: seq<Call>): Registry {
    After(Initial(connected), calls)
  }

  /** In every interleaving, a provider's active count is the number of its unreleased leases. */
  lemma {:induction false} CountIsUnreleasedLeases(connected: set<Provider>, calls: seq<Call>)
    ensures Sound(Reached(connected, calls))
    ensures var s := Reached(connected, calls); forall p :: Count(s, p) == |Held(s.leases, p)|
  {
    if calls == [] {
      forall p ensures Held(map[], p) == {} {
      }
    } else {
      CountIsUnreleasedLeases(connected, calls[..|calls| - 1]);
      StepSound(Reached(connected, calls[..|calls| - 1]), calls[|calls| - 1]);
    }
  }

  // Leases

  lemma LeaseStays(s: Registry, c: Call, lease: int)
    requires Sound(s) && lease in s.leases
    ensures var after := Apply(s, c).registry;
      lease in after.leases && after.leases[lease].provider == s.leases[lease].provider
      && (s.leases[lease].released ==> after.leases[lease].released)
  {
  }

  /** A release counts once: afterwards, in every later state, releasing the lease again changes nothing. */
  lemma {:induction false} ReleasedForGood(s: Registry, calls: seq<Call>, lease: int, retryAfterMs: int, now: int)
    requires Sound(s) && lease in s.leases
    ensures Sound(After(s, calls)) && lease in After(s, calls).leases
    ensures After(s, calls).leases[lease].provider == s.leases[lease].provider
    ensures s.leases[lease].released ==> After(s, calls).leases[lease].released
    ensures s.leases[lease].released ==>
        ReleaseStep(After(s, calls), lease, retryAfterMs, now).registry == After(s, calls)
    decreases |calls|
  {
    if calls != [] {
      var init := calls[..|calls| - 1];
      ReleasedForGood(s, init, lease, retryAfterMs, now);
      StepSound(After(s, init), calls[|calls| - 1]);
      LeaseStays(After(s, init), calls[|calls| - 1], lease);
    }
  }

  /** A grant is of a provider the caller asked for and did not exclude, ready and below the captured limit. */
  lemma GrantIsWanted(connected: set<Provider>, calls: seq<Call>, ticket: int, ready: bool, now: int)
    requires ResumeStep(Reached(connected, calls), ticket, ready, now).answer.Granted?
    ensures var s := Reached(connected, calls); var step := ResumeStep(s, ticket, ready, now);
      && ready && ticket in s.waiting && step.answer.lease !in s.leases
      && var p := step.registry.leases[step.answer.lease].provider;
         && p in s.waiting[ticket].order && p !in s.waiting[ticket].excluded
         && Count(s, p) < s.waiting[ticket].limit
         && Held(step.registry.leases, p) == Held(s.leases, p) + {step.answer.lease}
  {
    CountIsUnreleasedLeases(connected, calls);
  }

  /** How often a suspended acquire was resumed. */
  function Resumes(connected: set<Provider>, calls: seq<Call>, ticket: int): nat {
    if calls == [] then 0
    else
      var init := calls[..|calls| - 1];
      var c := calls[|calls| - 1];
      Resumes(connected, init, ticket)
        + if c.Resume? && c.ticket == ticket && ticket in Reached(connected, init).waiting then 1 else 0
  }

  /** A request after a probe: the others stay, this one is further on. */
  lemma ProbeMovesOn(s: Registry, ticket: int, c: Capability, excluded: set<Provider>, order: seq<Provider>, at: nat,
                     now: int)
    requires at <= |order|
    ensures var after := Probe(s, ticket, c, excluded, order, at, now).registry.waiting;
      && (forall t :: t in after && t != ticket ==> t in s.waiting && after[t] == s.waiting[t])
      && (ticket in after ==> after[ticket].order == order && after[ticket].at >= at)
  {
  }

  /** The requests after a step are new, or those before, at the same place of the same order or further on. */
  ghost predicate KeepsRequests(s: Registry, after: Registry) {
    && (forall t :: t in after.waiting && t !in s.waiting ==> t >= s.next)
    && (forall t :: t in after.waiting && t in s.waiting ==>
        after.waiting[t].order == s.waiting[t].order && after.waiting[t].at >= s.waiting[t].at)
  }

  lemma AcquireKeepsRequests(s: Registry, c: Capability, excluded: set<Provider>, order: seq<Provider>, now: int)
    requires Sound(s)
    ensures KeepsRequests(s, AcquireStep(s, c, excluded, order, now).registry)
  {
    var before := s.(next := s.next + 1);
    ProbeMovesOn(before, s.next, c, excluded, order, 0, now);
    assert AcquireStep(s, c, excluded, order, now) == Probe(before, s.next, c, excluded, order, 0, now);
  }

  lemma ResumeMovesOn(s: Registry, ticket: int, ready: bool, now: int)
    requires Sound(s)
    ensures var after := ResumeStep(s, ticket, ready, now).registry;
      && KeepsRequests(s, after)
      && (ticket in after.waiting ==> ticket in s.waiting && after.waiting[ticket].at > s.waiting[ticket].at)
  {
    if ticket in s.waiting {
      var r := s.waiting[ticket];
      assert Asks(r);
      ProbeMovesOn(s, ticket, r.capability, r.excluded, r.order, r.at + 1, now);
    }
  }

  lemma OtherKeepsRequests(s: Registry, c: Call)
    requires Sound(s) && !c.Acquire? && !c.Resume?
    ensures KeepsRequests(s, Apply(s, c).registry)
  {
  }

  /** No step but its own resumption moves a suspended acquire, and that one moves it on. */
  lemma RequestStep(s: Registry, c: Call, ticket: int)
    requires Sound(s) && ticket in Apply(s, c).registry.waiting
    ensures KeepsRequests(s, Apply(s, c).registry)
    ensures c.Resume? && c.ticket == ticket ==>
        ticket in s.waiting && Apply(s, c).registry.waiting[ticket].at > s.waiting[ticket].at
  {
    match c
    case Acquire(capability, excluded, preferred, policy, now) =>
      AcquireKeepsRequests(s, capability, excluded, PrioritizedOrder(s, capability, preferred, policy), now);
    case Resume(t, ready, now) => ResumeMovesOn(s, t, ready, now);
    case _ => OtherKeepsRequests(s, c);
  }

  lemma NextGrows(s: Registry, c: Call)
    ensures Apply(s, c).registry.next >= s.next
  {
  }

  /** An acquire asks each provider of its order at most once: every resumption moves it on or ends it. */
  lemma {:induction false} AcquireMovesOn(connected: set<Provider>, calls: seq<Call>, ticket: int)
    ensures var s := Reached(connected, calls);
      && Sound(s)
      && (ticket >= s.next ==> Resumes(connected, calls, ticket) == 0)
      && (ticket in s.waiting ==> Resumes(connected, calls, ticket) <= s.waiting[ticket].at < |s.waiting[ticket].order|)
  {
    CountIsUnreleasedLeases(connected, calls);
    if calls != [] {
      var init, c := calls[..|calls| - 1], calls[|calls| - 1];
      AcquireMovesOn(connected, init, ticket);
      NextGrows(Reached(connected, init), c);
      if ticket in Reached(connected, calls).waiting {
        assert Asks(Reached(connected, calls).waiting[ticket]);
        RequestStep(Reached(connected, init), c, ticket);
      }
    }
  }

  // Cooldowns

  ghost predicate CoolingUntil(s: Registry, p: Provider, until: int) {
    p in s.cooldowns && until <= s.cooldowns[p]
  }

  ghost predicate Forgets(c: Call, p: Provider) {
    (c.Disconnect? || c.Replace? || c.Unregister?) && c.provider == p
  }

  /** A retryable release of a lease of the provider that asks for an earlier end. */
  predicate Shortens(s: Registry, c: Call, p: Provider, until: int) {
    && c.Release? && c.retryAfterMs != 0 && c.now + Max(1000, c.retryAfterMs) < until
    && c.lease in s.leases && !s.leases[c.lease].released && s.leases[c.lease].provider == p
  }

  /** What can end a cooldown before `until`, or finds that it is over. */
  ghost predicate Disturbs(s: Registry, c: Call, p: Provider, until: int) {
    || Forgets(c, p) || Shortens(s, c, p, until)
    || ((c.Acquire? || c.Resume?) && until <= c.now)
  }

  lemma ProbeKeepsCooling(s: Registry, ticket: int, c: Capability, excluded: set<Provider>, order: seq<Provider>,
                          at: nat, now: int, p: Provider, until: int)
    requires CoolingUntil(s, p, until) && now < until && at <= |order|
    ensures CoolingUntil(Probe(s, ticket, c, excluded, order, at, now).registry, p, until)
  {
  }

  /** A retryable release replaces the cooldown of its provider, also by a shorter one. */
  lemma ReleaseCooldownIff(s: Registry, c: Call, p: Provider, until: int)
    requires CoolingUntil(s, p, until) && c.Release?
    ensures CoolingUntil(Apply(s, c).registry, p, until) <==> !Shortens(s, c, p, until)
  {
    assert Apply(s, c) == ReleaseStep(s, c.lease, c.retryAfterMs, c.now);
  }

  lemma OtherKeepsCooling(s: Registry, c: Call, p: Provider, until: int)
    requires CoolingUntil(s, p, until) && !Forgets(c, p) && !c.Acquire? && !c.Resume? && !c.Release?
    ensures CoolingUntil(Apply(s, c).registry, p, until)
  {
  }

  lemma ResumeKeepsCooling(s: Registry, c: Call, p: Provider, until: int)
    requires CoolingUntil(s, p, until) && c.Resume? && c.now < until
    ensures CoolingUntil(Apply(s, c).registry, p, until)
  {
    hide Probe;
    assert Apply(s, c) == ResumeStep(s, c.ticket, c.ready, c.now);
    hide Apply;
    if c.ticket in s.waiting && s.waiting[c.ticket].at < |s.waiting[c.ticket].order| {
      var r := s.waiting[c.ticket];
      ProbeKeepsCooling(s, c.ticket, r.capability, r.excluded, r.order, r.at + 1, c.now, p, until);
    }
  }

  lemma AcquireKeepsCooling(s: Registry, c: Call, p: Provider, until: int)
    requires CoolingUntil(s, p, until) && c.Acquire? && c.now < until
    ensures CoolingUntil(Apply(s, c).registry, p, until)
  {
    var order := PrioritizedOrder(s, c.capability, c.preferred, c.policy);
    var before := s.(next := s.next + 1);
    hide Probe, PrioritizedOrder;
    assert Apply(s, c) == AcquireStep(s, c.capability, c.excluded, order, c.now);
    hide Apply;
    ProbeKeepsCooling(before, s.next, c.capability, c.excluded, order, 0, c.now, p, until);
  }

  /** A cooldown outlasts every other step. */
  lemma CooldownStep(s: Registry, c: Call, p: Provider, until: int)
    requires CoolingUntil(s, p, until) && !Disturbs(s, c, p, until)
    ensures CoolingUntil(Apply(s, c).registry, p, until)
  {
    hide Apply;
    match c
    case Acquire(_, _, _, _, _) => AcquireKeepsCooling(s, c, p, until);
    case Resume(_, _, _) => ResumeKeepsCooling(s, c, p, until);
    case Release(_, _, _) => ReleaseCooldownIff(s, c, p, until);
    case _ => OtherKeepsCooling(s, c, p, until);
  }

  ghost predicate Undisturbed(s: Registry, calls: seq<Call>, p: Provider, until: int) {
    calls == []
    || (Undisturbed(s, calls[..|calls| - 1], p, until)
        && !Disturbs(After(s, calls[..|calls| - 1]), calls[|calls| - 1], p, until))
  }

  lemma {:induction false} CooldownOutlasts(s: Registry, calls: seq<Call>, p: Provider, until: int)
    requires CoolingUntil(s, p, until) && Undisturbed(s, calls, p, until)
    ensures CoolingUntil(After(s, calls), p, until)
    decreases |calls|
  {
    hide Apply, Disturbs;
    if calls != [] {
      CooldownOutlasts(s, calls[..|calls| - 1], p, until);
      CooldownStep(After(s, calls[..|calls| - 1]), calls[|calls| - 1], p, until);
    }
  }

  /** The provider an acquire asks next. */
  function Asked(step: Step): Option<Provider> {
    if step.answer.Asking? && step.answer.ticket in step.registry.waiting then
      var r := step.registry.waiting[step.answer.ticket];
      if r.at < |r.order| then Some(r.order[r.at]) else None
    else None
  }

  /** When the cooldown that a release asks for ends. */
  function CooldownEnd(retryAfterMs: int, at: int): int {
    at + Max(1000, retryAfterMs)
  }

  /**
   After a retryable failure the provider is not picked until the requested time has passed, and at
   least for a second, neither by an acquire that starts nor by a suspended one that looks on,
   whatever else happens to the registry, unless the provider is disconnected, replaced or removed,
   or another of its leases is released with an earlier end.
   */
  lemma CooldownHolds(s: Registry, lease: int, retryAfterMs: int, at: int, calls: seq<Call>, acquire: Call)
    requires lease in s.leases && !s.leases[lease].released && retryAfterMs != 0
    requires var cooled := ReleaseStep(s, lease, retryAfterMs, at).registry;
      Undisturbed(cooled, calls, s.leases[lease].provider, CooldownEnd(retryAfterMs, at))
    requires (acquire.Acquire? || acquire.Resume?) && acquire.now < CooldownEnd(retryAfterMs, at)
    ensures var later := After(ReleaseStep(s, lease, retryAfterMs, at).registry, calls);
      Asked(Apply(later, acquire)) != Some(s.leases[lease].provider)
  {
    var p, cooled := s.leases[lease].provider, ReleaseStep(s, lease, retryAfterMs, at).registry;
    CooldownOutlasts(cooled, calls, p, CooldownEnd(retryAfterMs, at));
    CoolingIsNotAsked(After(cooled, calls), acquire, p, CooldownEnd(retryAfterMs, at));
  }

  lemma CoolingIsNotAsked(s: Registry, acquire: Call, p: Provider, until: int)
    requires CoolingUntil(s, p, until) && (acquire.Acquire? || acquire.Resume?) && acquire.now < until
    ensures Asked(Apply(s, acquire)) != Some(p)
  {
  }

  /** A call of the second after `at`, as far as it has a time. */
  predicate WithinTheSecond(c: Call, at: int) {
    match c
    case Acquire(_, _, _, _, now) => now < at + 1000
    case Resume(_, _, now) => now < at + 1000
    case Release(_, _, now) => at <= now
    case _ => true
  }

  ghost predicate Soon(calls: seq<Call>, p: Provider, at: int) {
    forall n :: 0 <= n < |calls| ==> WithinTheSecond(calls[n], at) && !Forgets(calls[n], p)
  }

  lemma {:induction false} NothingShortensASecond(s: Registry, calls: seq<Call>, p: Provider, at: int)
    requires Soon(calls, p, at)
    ensures Undisturbed(s, calls, p, at + 1000)
    decreases |calls|
  {
    if calls != [] {
      NothingShortensASecond(s, calls[..|calls| - 1], p, at);
      assert WithinTheSecond(calls[|calls| - 1], at);
    }
  }

  /** The first second cannot be cut short by any release: it needs nothing but a clock that does not go back. */
  lemma CooldownLastsASecond(s: Registry, lease: int, retryAfterMs: int, at: int, calls: seq<Call>, acquire: Call)
    requires lease in s.leases && !s.leases[lease].released && retryAfterMs != 0
    requires Soon(calls, s.leases[lease].provider, at)
    requires (acquire.Acquire? || acquire.Resume?) && acquire.now < at + 1000
    ensures var later := After(ReleaseStep(s, lease, retryAfterMs, at).registry, calls);
      Asked(Apply(later, acquire)) != Some(s.leases[lease].provider)
  {
    var p, cooled := s.leases[lease].provider, ReleaseStep(s, lease, retryAfterMs, at).registry;
    NothingShortensASecond(cooled, calls, p, at);
    CooldownOutlasts(cooled, calls, p, at + 1000);
    CoolingIsNotAsked(After(cooled, calls), acquire, p, at + 1000);
  }

  /**
   What a cooldown does not stop. An acquire that already waits for the provider's health is granted
   the provider if and only if it is ready and below the captured limit, and an acquire of this one
   provider asks it if and only if it may be selected and is below its limit.
   */
  lemma CooldownStopsNeither(s: Registry, lease: int, retryAfterMs: int, at: int, calls: seq<Call>,
                             ticket: int, ready: bool, now: int, c: Capability, policy: Policy)
    requires lease in s.leases && !s.leases[lease].released && retryAfterMs != 0
    requires var cooled := ReleaseStep(s, lease, retryAfterMs, at).registry;
      Undisturbed(cooled, calls, s.leases[lease].provider, CooldownEnd(retryAfterMs, at))
    ensures var later := After(ReleaseStep(s, lease, retryAfterMs, at).registry, calls);
      var p := s.leases[lease].provider;
      && CoolingUntil(later, p, CooldownEnd(retryAfterMs, at))
      && (AcquireProviderStep(later, p, c, policy).answer.Asking?
          <==> Selectable(later, p, c, policy) && Count(later, p) < Limit(later, p))
      && (ticket in later.waiting && Waits(later.waiting[ticket], p) ==>
          (ResumeStep(later, ticket, ready, now).answer.Granted?
           <==> ready && Count(later, p) < later.waiting[ticket].limit))
  {
    var p, cooled := s.leases[lease].provider, ReleaseStep(s, lease, retryAfterMs, at).registry;
    CooldownOutlasts(cooled, calls, p, CooldownEnd(retryAfterMs, at));
  }

  // The registry

  lemma PurgeOneMore(cooldowns: map<Provider, int>, order: seq<Provider>, excluded: set<Provider>, at: nat, i: nat,
                     now: int)
    requires at <= i < |order|
    ensures var before := Purged(cooldowns, Elements(order[at..i]) - excluded, now);
      Purged(cooldowns, Elements(order[at..i + 1]) - excluded, now)
      == if order[i] !in excluded then Purged(before, {order[i]}, now) else before
  {
    assert order[at..i + 1] == order[at..i] + [order[i]];
    assert forall p :: p in Elements(order[at..i + 1]) <==> p in Elements(order[at..i]) || p == order[i];
  }

  lemma SameAfterPurge(s: Registry, seen: set<Provider>, c: Capability, excluded: set<Provider>, now: int, p: Provider)
    ensures var purged := s.(cooldowns := Purged(s.cooldowns, seen, now));
      Eligible(purged, c, excluded, now, p) == Eligible(s, c, excluded, now, p)
  {
  }

  /** The policy has forgotten `p`, or is the same. */
  predicate Removed(after: Policy, before: Policy, p: Provider, done: bool) {
    after == if done then Policy(before.controls - {p}, EraseAll(before.routes, p)) else before
  }

  class AgentRegistry {
    var providers: seq<Provider>
    var skills: map<Provider, set<Capability>>
    var limits: map<Provider, int>
    var active: map<Provider, int>
    var cooldowns: map<Provider, int>
    var connected: set<Provider>
    var leases: map<int, Lease>
    var waiting: map<int, Request>
    var next: int

    function State(): Registry
      reads this
    {
      Registry(providers, skills, limits, active, cooldowns, connected, leases, waiting, next)
    }

    constructor (connected: set<Provider>)
      ensures State() == Initial(connected) && Sound(State())
    {
      providers, skills, limits, active, cooldowns := [], map[], map[], map[], map[];
      this.connected := connected;
      leases, waiting, next := map[], map[], 1;
      new;
      CountIsUnreleasedLeases(connected, []);
    }

    /** Whether a provider is cooling down; a cooldown that is over is dropped. */
    method ActiveCooldown(p: Provider, now: int) returns (cooling: bool)
      modifies this`cooldowns
      ensures cooling == Cooling(old(cooldowns), p, now) && cooldowns == Purged(old(cooldowns), {p}, now)
    {
      cooling := false;
      if p in cooldowns {
        if cooldowns[p] <= now {
          cooldowns := cooldowns - {p};
        } else {
          cooling := true;
        }
      }
    }

    /** The checks of one provider before it is asked for its health. */
    method CanAsk(p: Provider, c: Capability, excluded: set<Provider>, now: int) returns (ok: bool)
      modifies this`cooldowns
      ensures ok == Eligible(old(State()), c, excluded, now, p)
      ensures cooldowns == if p in excluded then old(cooldowns) else Purged(old(cooldowns), {p}, now)
    {
      if p in excluded {
        return false;
      }
      var cooling := ActiveCooldown(p, now);
      ok := !cooling && p in skills && c in skills[p] && CountIn(active, p) < LimitIn(limits, p);
    }

    /** The loop of an acquire, up to the provider it suspends on. */
    method FindEligible(c: Capability, excluded: set<Provider>, order: seq<Provider>, at: nat, now: int)
      returns (i: nat)
      requires at <= |order|
      modifies this`cooldowns
      ensures i == FirstEligible(old(State()), c, excluded, now, order, at)
      ensures cooldowns == Purged(old(cooldowns), Seen(order, excluded, at, i), now)
    {
      ghost var before := State();
      i := at;
      assert order[at..i] == [];
      while i < |order|
        invariant at <= i <= |order|
        invariant State() == before.(cooldowns := Purged(before.cooldowns, Elements(order[at..i]) - excluded, now))
        invariant FirstEligible(before, c, excluded, now, order, at)
          == FirstEligible(before, c, excluded, now, order, i)
      {
        PurgeOneMore(before.cooldowns, order, excluded, at, i, now);
        SameAfterPurge(before, Elements(order[at..i]) - excluded, c, excluded, now, order[i]);
        var ok := CanAsk(order[i], c, excluded, now);
        if ok {
          return;
        }
        i := i + 1;
      }
    }

    method ProbeFrom(ticket: int, c: Capability, excluded: set<Provider>, order: seq<Provider>, at: nat, now: int)
      returns (answer: Answer)
      requires at <= |order|
      modifies this`cooldowns, this`waiting
      ensures Step(State(), answer) == Probe(old(State()), ticket, c, excluded, order, at, now)
    {
      var i := FindEligible(c, excluded, order, at, now);
      if i < |order| {
        waiting := waiting[ticket := Request(c, excluded, order, i, LimitIn(limits, order[i]))];
        answer := Asking(ticket);
      } else {
        waiting := waiting - {ticket};
        answer := Unavailable;
      }
    }

    method StartProbe(c: Capability, excluded: set<Provider>, order: seq<Provider>, now: int) returns (answer: Answer)
      modifies this`cooldowns, this`waiting, this`next
      ensures Step(State(), answer) == AcquireStep(old(State()), c, excluded, order, now)
    {
      var ticket := next;
      next := next + 1;
      answer := ProbeFrom(ticket, c, excluded, order, 0, now);
    }

    method Acquire(c: Capability, excluded: set<Provider>, preferred: Option<Provider>, policy: Policy, now: int)
      returns (answer: Answer)
      requires Sound(State())
      modifies this
      ensures var order := PrioritizedOrder(old(State()), c, preferred, policy);
        Step(State(), answer) == AcquireStep(old(State()), c, excluded, order, now)
      ensures Sound(State())
    {
      var order := PrioritizedOrder(State(), c, preferred, policy);
      PrioritizedNoDup(State(), c, policy, preferred);
      AcquireSound(State(), c, excluded, order, now);
      answer := StartProbe(c, excluded, order, now);
    }

    method AcquireProvider(p: Provider, c: Capability, policy: Policy) returns (answer: Answer)
      requires Sound(State())
      modifies this
      ensures Step(State(), answer) == AcquireProviderStep(old(State()), p, c, policy) && Sound(State())
    {
      StepSound(State(), Call.AcquireProvider(p, c, policy));
      assert Sound(AcquireProviderStep(State(), p, c, policy).registry);
      hide Sound, Apply;
      if p !in skills || p !in connected || c !in skills[p] || !IsEnabled(policy, p) {
        return Unavailable;
      }
      var limit := LimitIn(limits, p);
      if CountIn(active, p) >= limit {
        return Unavailable;
      }
      waiting, next, answer := waiting[next := Request(c, {}, [p], 0, limit)], next + 1, Asking(next);
    }

    /** The provider's health came back: grants the lease if there is still room, or looks on. */
    method ResumeAcquire(ticket: int, ready: bool, now: int) returns (answer: Answer)
      requires Sound(State())
      modifies this
      ensures Step(State(), answer) == ResumeStep(old(State()), ticket, ready, now) && Sound(State())
      ensures answer.Granted? ==> answer.lease in leases && !leases[answer.lease].released
    {
      ResumeSound(State(), ticket, ready, now);
      if ticket !in waiting || waiting[ticket].at >= |waiting[ticket].order| {
        return Unavailable;
      }
      var request := waiting[ticket];
      var p := request.order[request.at];
      if ready && CountIn(active, p) < request.limit {
        active := active[p := CountIn(active, p) + 1];
        leases := leases[next := Lease(p, false)];
        waiting := waiting - {ticket};
        answer := Granted(next);
        next := next + 1;
        assert State() == ResumeStep(old(State()), ticket, ready, now).registry;
      } else {
        answer := ProbeFrom(ticket, request.capability, request.excluded, request.order, request.at + 1, now);
      }
    }

    method ReleaseLease(lease: int, retryAfterMs: int, now: int)
      requires Sound(State())
      modifies this
      ensures State() == ReleaseStep(old(State()), lease, retryAfterMs, now).registry && Sound(State())
    {
      ReleaseSound(State(), lease, retryAfterMs, now);
      if lease !in leases || leases[lease].released {
        return;
      }
      var p := leases[lease].provider;
      leases := leases[lease := Lease(p, true)];
      var remaining := Max(0, (if p in active then active[p] else 1) - 1);
      if remaining == 0 {
        active := active - {p};
      } else {
        active := active[p := remaining];
      }
      if retryAfterMs != 0 {
        cooldowns := cooldowns[p := now + Max(MIN_COOLDOWN_MS, retryAfterMs)];
      }
    }

    /** Connecting a provider is remembered in the policy store, if there is one. */
    method ConnectProvider(p: Provider, store: PolicyStore?) returns (answer: Answer)
      requires Sound(State())
      modifies this`connected, store
      ensures Step(State(), answer) == ConnectStep(old(State()), p) && Sound(State())
      ensures store != null ==> store.Tables() == old(store.Tables())
      ensures store != null ==>
          store.connections == if answer == Done then old(store.connections) + {p} else old(store.connections)
    {
      if p !in skills {
        return Refused(NotRegistered);
      }
      connected, answer := connected + {p}, Done;
      if store != null {
        store.MarkProviderConnected(p);
      }
    }

    /** Disconnecting a provider also removes its connection, its control and its places in the policy store. */
    method DisconnectProvider(p: Provider, store: PolicyStore?) returns (answer: Answer)
      requires Sound(State())
      modifies this`connected, this`cooldowns, store
      ensures Step(State(), answer) == DisconnectStep(old(State()), p) && Sound(State())
      ensures store != null ==> Removed(store.Tables(), old(store.Tables()), p, answer == Done)
      ensures store != null ==>
          store.connections == if answer == Done then old(store.connections) - {p} else old(store.connections)
    {
      if CountIn(active, p) > 0 {
        return Refused(Busy);
      }
      if p !in skills {
        return Refused(NotRegistered);
      }
      cooldowns, connected, answer := cooldowns - {p}, connected - {p}, Done;
      if store != null {
        store.RemoveProvider(p);
      }
    }

    method RegisterProvider(p: Provider, capabilities: set<Capability>, limit: int, connect: bool, store: PolicyStore?)
      returns (answer: Answer)
      requires Sound(State())
      modifies this, store
      ensures Step(State(), answer) == RegisterStep(old(State()), p, capabilities, limit, connect) && Sound(State())
      ensures store != null ==> store.Tables() == old(store.Tables())
      ensures store != null && connect && answer == Done ==> store.connections == old(store.connections) + {p}
      ensures store != null && !(connect && answer == Done) ==> store.connections == old(store.connections)
    {
      StepSound(State(), Register(p, capabilities, limit, connect));
      if p in skills {
        return Refused(AlreadyRegistered);
      }
      providers, skills := providers + [p], skills[p := capabilities];
      if connect {
        connected := connected + {p};
        if store != null {
          store.MarkProviderConnected(p);
        }
      }
      limits, answer := limits[p := Max(1, limit)], Done;
    }

    method ReplaceProvider(p: Provider, capabilities: set<Capability>, limit: int) returns (answer: Answer)
      requires Sound(State())
      modifies this
      ensures Step(State(), answer) == ReplaceStep(old(State()), p, capabilities, limit) && Sound(State())
    {
      StepSound(State(), Replace(p, capabilities, limit));
      if p !in skills {
        return Refused(NotRegistered);
      }
      if CountIn(active, p) > 0 {
        return Refused(Busy);
      }
      skills, limits, cooldowns, answer := skills[p := capabilities], limits[p := Max(1, limit)], cooldowns - {p}, Done;
    }

    method UnregisterProvider(p: Provider, store: PolicyStore?) returns (answer: Answer)
      requires Sound(State())
      modifies this, store
      ensures Step(State(), answer) == UnregisterStep(old(State()), p) && Sound(State())
      ensures store != null ==> Removed(store.Tables(), old(store.Tables()), p, answer == Done)
      ensures store != null ==>
          store.connections == if answer == Done then old(store.connections) - {p} else old(store.connections)
    {
      UnregisterSound(State(), p);
      if CountIn(active, p) > 0 {
        return Refused(Busy);
      }
      if p !in skills {
        return Refused(NotRegistered);
      }
      providers, skills := Keep(providers, Others(p)), skills - {p};
      cooldowns, connected, limits, answer := cooldowns - {p}, connected - {p}, limits - {p}, Done;
      if store != null {
        store.RemoveProvider(p);
      }
    }

    /** The active count is the number of unreleased leases. */
    method ActiveCount(p: Provider) returns (n: int)
      requires Sound(State())
      ensures n == |Held(leases, p)|
    {
      n := CountIn(active, p);
    }
  }
}
