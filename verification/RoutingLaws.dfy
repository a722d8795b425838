/** The order of a capability's providers, said in terms of the rows and lists it is made from. */
module RoutingLaws {
  import opened Basics
  import opened RoutingPolicy

  // Where a provider stands

  /** A provider without a row is enabled. */
  predicate Serves(policy: Policy, p: Provider) {
    p !in policy.controls || policy.controls[p].mode == Enabled
  }

  /** What the row of the capability lists. */
  function Configured(policy: Policy, c: Capability): seq<Provider> {
    if c in policy.routes && policy.routes[c].order != [] then policy.routes[c].order else DefaultOrder(c)
  }

  /** The provider that the row of the capability requires. */
  predicate MustBe(policy: Policy, c: Capability, p: Provider) {
    p != "" && c in policy.routes && policy.routes[c].required == Some(p)
  }

  predicate Listed(policy: Policy, c: Capability, registered: seq<Provider>, p: Provider) {
    p in Configured(policy, c) || p in DefaultOrder(c) || p in registered
  }

  predicate First(xs: seq<Provider>, p: Provider, q: Provider) {
    p in xs && (q in xs ==> Place(xs, p) < Place(xs, q))
  }

  /** The configured list comes first, then the default one, then the registered providers. */
  predicate Ahead(policy: Policy, c: Capability, registered: seq<Provider>, p: Provider, q: Provider) {
    var configured, default := Configured(policy, c), DefaultOrder(c);
    if p in configured || q in configured then First(configured, p, q)
    else if p in default || q in default then First(default, p, q)
    else First(registered, p, q)
  }

  lemma {:induction false} PlaceConcat(a: seq<Provider>, b: seq<Provider>, x: Provider)
    requires x in a + b
    ensures Place(a + b, x) == if x in a then Place(a, x) else |a| + Place(b, x)
  {
    var i := if x in a then Place(a, x) else |a| + Place(b, x);
    assert (a + b)[i] == x;
    forall k | 0 <= k < i ensures (a + b)[k] != x {
      if k >= |a| {
        assert (a + b)[k] == b[k - |a|];
      }
    }
  }

  lemma FirstInConcat(a: seq<Provider>, b: seq<Provider>, p: Provider, q: Provider)
    requires p in a + b && q in a + b && Place(a + b, p) < Place(a + b, q)
    ensures if p in a || q in a then First(a, p, q) else First(b, p, q)
  {
    PlaceConcat(a, b, p);
    PlaceConcat(a, b, q);
  }

  lemma PlaceIsAhead(policy: Policy, c: Capability, registered: seq<Provider>, p: Provider, q: Provider)
    requires var all := Candidates(policy, c, registered); p in all && q in all && Place(all, p) < Place(all, q)
    ensures Ahead(policy, c, registered, p, q)
  {
    var configured, default := Configured(policy, c), DefaultOrder(c);
    assert Candidates(policy, c, registered) == configured + (default + registered);
    hide Place;
    FirstInConcat(configured, default + registered, p, q);
    if p !in configured && q !in configured {
      FirstInConcat(default, registered, p, q);
    }
  }

  lemma CandidatesAreListed(policy: Policy, c: Capability, registered: seq<Provider>, p: Provider)
    ensures p in Candidates(policy, c, registered) <==> Listed(policy, c, registered, p)
    ensures IsEnabled(policy, p) <==> Serves(policy, p)
  {
  }

  // The order

  /** A provider that serves and is ahead of every other listed one that does. */
  ghost predicate Leads(policy: Policy, c: Capability, registered: seq<Provider>, p: Provider) {
    && Listed(policy, c, registered, p) && Serves(policy, p)
    && forall q ::
         Listed(policy, c, registered, q) && Serves(policy, q) && q != p ==> Ahead(policy, c, registered, p, q)
  }

  /** The order lists providers that serve, each once, the way they are listed. */
  lemma OrderIsAsListed(policy: Policy, c: Capability, registered: seq<Provider>)
    requires forall p :: !MustBe(policy, c, p)
    ensures var r := Resolve(policy, c, registered);
      && NoDup(r) && (forall p :: p in r ==> Listed(policy, c, registered, p) && Serves(policy, p))
      && (forall i, j :: 0 <= i < j < |r| ==> Ahead(policy, c, registered, r[i], r[j]))
  {
    NobodyRequired(policy, c);
    ResolveIsTheOrder(policy, c, registered);
    var r := Resolve(policy, c, registered);
    hide Resolve, Ahead, Listed, Candidates;
    forall p | p in r ensures Listed(policy, c, registered, p) && Serves(policy, p) {
      CandidatesAreListed(policy, c, registered, p);
    }
    forall i, j | 0 <= i < j < |r| ensures Ahead(policy, c, registered, r[i], r[j]) {
      assert r[i] in r && r[j] in r;
      PlaceIsAhead(policy, c, registered, r[i], r[j]);
    }
  }

  lemma NobodyRequired(policy: Policy, c: Capability)
    requires forall p :: !MustBe(policy, c, p)
    ensures !Requires(RouteOf(policy, c))
  {
    if Requires(RouteOf(policy, c)) {
      assert MustBe(policy, c, RouteOf(policy, c).required.value);
    }
  }

  /** Who leads comes first in the order. */
  lemma LeaderIsFirst(policy: Policy, c: Capability, registered: seq<Provider>, p: Provider)
    requires Leads(policy, c, registered, p) && forall q :: !MustBe(policy, c, q)
    ensures Allowed(policy, c, registered) != [] && Allowed(policy, c, registered)[0] == p
  {
    var all, allowed := Candidates(policy, c, registered), Allowed(policy, c, registered);
    AllowedIsInOrder(policy, c, registered);
    CandidatesAreListed(policy, c, registered, p);
    hide Allowed, Candidates, Listed, Place, Configured, DefaultOrder;
    assert p in allowed;
    var q := allowed[0];
    assert q in allowed;
    CandidatesAreListed(policy, c, registered, q);
    FirstComesFirst(all, allowed, p);
    if q != p {
      SamePlace(all, p, q);
      PlaceIsAhead(policy, c, registered, q, p);
      NotBothAhead(policy, c, registered, p, q);
    }
  }

  /** Somebody leads as soon as somebody serves. */
  lemma SomebodyLeads(policy: Policy, c: Capability, registered: seq<Provider>, p: Provider) returns (first: Provider)
    requires Listed(policy, c, registered, p) && Serves(policy, p)
    ensures Leads(policy, c, registered, first)
  {
    var all, allowed := Candidates(policy, c, registered), Allowed(policy, c, registered);
    AllowedIsInOrder(policy, c, registered);
    CandidatesAreListed(policy, c, registered, p);
    hide Allowed, Candidates, Listed, Place, Configured, DefaultOrder, Ahead;
    assert p in allowed;
    first := allowed[0];
    assert first in allowed;
    CandidatesAreListed(policy, c, registered, first);
    forall q | Listed(policy, c, registered, q) && Serves(policy, q) && q != first
      ensures Ahead(policy, c, registered, first, q)
    {
      CandidatesAreListed(policy, c, registered, q);
      FirstComesFirst(all, allowed, q);
      SamePlace(all, first, q);
      PlaceIsAhead(policy, c, registered, first, q);
    }
  }

  lemma SamePlace(all: seq<Provider>, p: Provider, q: Provider)
    requires p in all && q in all && p != q
    ensures Place(all, p) != Place(all, q)
  {
  }

  lemma NotBothAhead(policy: Policy, c: Capability, registered: seq<Provider>, p: Provider, q: Provider)
    requires Ahead(policy, c, registered, p, q)
    ensures !Ahead(policy, c, registered, q, p)
  {
    hide Place;
  }

  /**
   A first provider whose control says no to fallback is tried alone; otherwise everybody is who is
   listed and serves.
   */
  lemma FallbackDecides(policy: Policy, c: Capability, registered: seq<Provider>, first: Provider)
    requires Leads(policy, c, registered, first) && first != "" && forall p :: !MustBe(policy, c, p)
    ensures var r := Resolve(policy, c, registered);
      if first in policy.controls && policy.controls[first].fallbackEnabled == false then r == [first]
      else forall p :: p in r <==> Listed(policy, c, registered, p) && Serves(policy, p)
  {
    NobodyRequired(policy, c);
    LeaderIsFirst(policy, c, registered, first);
    AllowedIsInOrder(policy, c, registered);
    hide Allowed, Candidates, Listed, Leads;
    forall p ensures p in Allowed(policy, c, registered) <==> Listed(policy, c, registered, p) && Serves(policy, p) {
      CandidatesAreListed(policy, c, registered, p);
    }
  }

  /** Nobody leads when nobody serves, and then nobody is tried. */
  lemma NobodyServes(policy: Policy, c: Capability, registered: seq<Provider>)
    requires forall p :: !(Listed(policy, c, registered, p) && Serves(policy, p))
    ensures Resolve(policy, c, registered) == []
  {
    var r := Resolve(policy, c, registered);
    if r != [] {
      assert r[0] in r;
      AllowedIsInOrder(policy, c, registered);
      hide Allowed, Candidates, Listed;
      CandidatesAreListed(policy, c, registered, r[0]);
    }
  }

  /** A required provider is used alone, or nothing is. */
  lemma RequiredStandsAlone(policy: Policy, c: Capability, registered: seq<Provider>, p: Provider)
    requires MustBe(policy, c, p)
    ensures Resolve(policy, c, registered)
      == if Listed(policy, c, registered, p) && Serves(policy, p) then [p] else []
  {
    AllowedIsInOrder(policy, c, registered);
    hide Allowed, Candidates, Listed;
    CandidatesAreListed(policy, c, registered, p);
  }

  /** Without any rows the lists are these. */
  lemma OrderWithoutRows(c: Capability)
    ensures var r := Resolve(Policy(map[], map[]), c, []);
      match c
      case Planning => r == ["antigravity", "claude", "codex"]
      case Coding => r == ["antigravity", "codex", "claude"]
      case Testing => r == ["antigravity", "codex", "claude"]
      case Reviewing => r == ["claude", "antigravity", "codex"]
      case ImprovementReviewing => r == ["antigravity", "claude", "codex"]
      case Research => r == ["antigravity", "claude", "codex"]
      case Conversation => r == ["antigravity", "claude", "codex"]
  {
    assert NoDup(DefaultOrder(c));
    hide Resolve, Candidates;
    EmptyTables(c);
  }

  lemma EmptyTables(c: Capability)
    requires NoDup(DefaultOrder(c))
    ensures Resolve(Policy(map[], map[]), c, []) == DefaultOrder(c)
  {
    var policy, list := Policy(map[], map[]), DefaultOrder(c);
    hide Dedup, Keep, DefaultOrder;
    assert Candidates(policy, c, []) == list + list;
    DedupOnce(list);
    DedupTwice(list, list);
    KeepAll(list, EnabledIn(policy.controls));
  }

  // Saving a control

  /** The tables after an enabled provider's control was saved. */
  function WithControl(policy: Policy, p: Provider, fallbackEnabled: bool, model: Field<Option<string>>,
                       effort: Field<Option<string>>): Policy
  {
    Policy(Upserted(policy.controls, p, Enabled, fallbackEnabled, model, effort), policy.routes)
  }

  /**
   Saving the control of the provider that leads decides whether it is tried alone: with fallback on,
   everybody is who is listed and serves; with fallback off, nobody but this provider.
   */
  lemma SavingTheLeader(policy: Policy, p: Provider, fallbackEnabled: bool, model: Field<Option<string>>,
                        effort: Field<Option<string>>, c: Capability, registered: seq<Provider>)
    requires var after := WithControl(policy, p, fallbackEnabled, model, effort);
      Leads(after, c, registered, p) && forall q :: !MustBe(after, c, q)
    requires p != ""
    ensures var after := WithControl(policy, p, fallbackEnabled, model, effort);
      var r := Resolve(after, c, registered);
      if fallbackEnabled then forall q :: q in r <==> Listed(after, c, registered, q) && Serves(after, q) else r == [p]
  {
    FallbackDecides(WithControl(policy, p, fallbackEnabled, model, effort), c, registered, p);
  }

  /** A saved control is the one given, with the model and effort that were not named kept, and the only one changed. */
  lemma ControlIsSaved(controls: map<Provider, Control>, p: Provider, mode: Mode, fallbackEnabled: bool,
                       model: Field<Option<string>>, effort: Field<Option<string>>)
    ensures var after := Upserted(controls, p, mode, fallbackEnabled, model, effort);
      && p in after && after - {p} == controls - {p}
      && after[p].mode == mode && after[p].fallbackEnabled == fallbackEnabled
      && (model.Assign? ==> after[p].model == model.value) && (effort.Assign? ==> after[p].effort == effort.value)
      && (model.Unchanged? ==> after[p].model == if p in controls then controls[p].model else None)
      && (effort.Unchanged? ==> after[p].effort == if p in controls then controls[p].effort else None)
  {
  }

  /** What erasing a provider leaves of a row. */
  lemma RowIsErased(routes: map<Capability, Route>, p: Provider, c: Capability)
    requires c in routes
    ensures var before, after := routes[c], EraseAll(routes, p)[c];
      && (forall q :: q in after.order <==> q in before.order && q != p)
      && (if before.required == Some(p) then
            after.required == None && after.preferredModel == None && after.preferredEffort == None
          else
            && after.required == before.required && after.preferredModel == before.preferredModel
            && after.preferredEffort == before.preferredEffort)
  {
  }
}
