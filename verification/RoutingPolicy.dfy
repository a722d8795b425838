/**
 The order in which a capability's providers are tried (src/agents/policy.ts), and the tables that
 order is computed from, as src/agents/policy-persistence.ts rewrites them.
 */
module RoutingPolicy {
  import opened Basics

  type Provider = string

  datatype Capability =
    | Planning | Coding | Testing | Reviewing | ImprovementReviewing | Research | Conversation

  function DefaultOrder(c: Capability): seq<Provider> {
    match c
    case Coding => ["antigravity", "codex", "claude"]
    case Testing => ["antigravity", "codex", "claude"]
    case Reviewing => ["claude", "antigravity", "codex"]
    case _ => ["antigravity", "claude", "codex"]
  }

  datatype Mode = Enabled | Paused | Disabled

  datatype Control = Control(mode: Mode, fallbackEnabled: bool, model: Option<string>, effort: Option<string>)

  datatype Route = Route(order: seq<Provider>, required: Option<Provider>,
                         preferredModel: Option<string>, preferredEffort: Option<string>)

  /** The rows of the controls and the routing table. */
  datatype Policy = Policy(controls: map<Provider, Control>, routes: map<Capability, Route>)

  /** The snapshot's entry for a capability: its row, or the default. */
  function RouteOf(policy: Policy, c: Capability): Route {
    if c in policy.routes then policy.routes[c] else Route(DefaultOrder(c), None, None, None)
  }

  predicate IsEnabled(policy: Policy, p: Provider) {
    p in policy.controls ==> policy.controls[p].mode == Enabled
  }

  predicate Requires(route: Route) {
    route.required.Some? && route.required.value != ""
  }

  function EnabledIn(controls: map<Provider, Control>): Provider -> bool {
    p => p in controls ==> controls[p].mode == Enabled
  }

  function Candidates(policy: Policy, c: Capability, registered: seq<Provider>): seq<Provider> {
    var order := RouteOf(policy, c).order;
    (if order != [] then order else DefaultOrder(c)) + DefaultOrder(c) + registered
  }

  function Allowed(policy: Policy, c: Capability, registered: seq<Provider>): seq<Provider> {
    Keep(Dedup(Candidates(policy, c, registered)), EnabledIn(policy.controls))
  }

  predicate WithoutFallback(controls: map<Provider, Control>, p: Provider) {
    p != "" && p in controls && !controls[p].fallbackEnabled
  }

  /** What is left of the allowed providers. A null or empty provider id requires nothing. */
  function Choose(controls: map<Provider, Control>, allowed: seq<Provider>, required: Option<Provider>): seq<Provider> {
    if required.Some? && required.value != "" then
      if required.value in allowed then [required.value] else []
    else if allowed != [] && WithoutFallback(controls, allowed[0]) then [allowed[0]]
    else allowed
  }

  function Resolve(policy: Policy, c: Capability, registered: seq<Provider>): seq<Provider> {
    Choose(policy.controls, Allowed(policy, c, registered), RouteOf(policy, c).required)
  }

  // What the order is

  /** The first place of `x` in `xs`. */
  function Place<T(==)>(xs: seq<T>, x: T): (i: nat)
    requires x in xs
    ensures i < |xs| && xs[i] == x
    ensures forall k :: 0 <= k < i ==> xs[k] != x
  {
    if xs[0] == x then 0 else 1 + Place(xs[1..], x)
  }

  predicate InOrderOf<T(==)>(xs: seq<T>, r: seq<T>) {
    (forall x :: x in r ==> x in xs) && forall i, j :: 0 <= i < j < |r| ==> Place(xs, r[i]) < Place(xs, r[j])
  }

  lemma PlaceInPrefix<T>(xs: seq<T>, x: T, n: nat)
    requires n <= |xs| && x in xs[..n]
    ensures x in xs && Place(xs, x) == Place(xs[..n], x)
  {
    var i := Place(xs[..n], x);
    assert xs[i] == x && forall k :: 0 <= k < i ==> xs[k] == xs[..n][k];
  }

  lemma PlacesInPrefix<T(!new)>(xs: seq<T>, n: nat, r: seq<T>)
    requires n <= |xs| && InOrderOf(xs[..n], r)
    ensures InOrderOf(xs, r)
  {
    forall x | x in r ensures x in xs && Place(xs, x) == Place(xs[..n], x) {
      PlaceInPrefix(xs, x, n);
    }
  }

  lemma LastPlace<T>(xs: seq<T>, n: nat, x: T)
    requires n + 1 == |xs| && x in xs[..n] && xs[n] !in xs[..n]
    ensures x in xs && Place(xs, x) < Place(xs, xs[n])
  {
    PlaceInPrefix(xs, x, n);
    forall k | 0 <= k < n ensures xs[k] != xs[n] {
      assert xs[..n][k] == xs[k];
    }
  }

  /** A new last element comes after everything in order so far. */
  lemma AppendedInOrder<T(!new)>(xs: seq<T>, n: nat, r: seq<T>)
    requires n + 1 == |xs| && InOrderOf(xs[..n], r) && xs[n] !in xs[..n]
    ensures InOrderOf(xs, r + [xs[n]])
  {
    PlacesInPrefix(xs, n, r);
    forall i | 0 <= i < |r| ensures Place(xs, r[i]) < Place(xs, xs[n]) {
      assert r[i] in r;
      LastPlace(xs, n, r[i]);
    }
    hide Place;
    forall x | x in r + [xs[n]] ensures x in xs {
    }
  }

  /** Deduplicating keeps the order of first appearances. */
  lemma {:induction false} DedupKeepsOrder<T(!new)>(xs: seq<T>)
    ensures InOrderOf(xs, Dedup(xs))
  {
    if xs != [] {
      var n := |xs| - 1;
      var init := Dedup(xs[..n]);
      DedupKeepsOrder(xs[..n]);
      hide Place, InOrderOf;
      if xs[n] in init {
        PlacesInPrefix(xs, n, init);
      } else {
        AppendedInOrder(xs, n, init);
      }
    }
  }

  lemma {:induction false} KeepKeepsOrder<T(!new)>(order: seq<T>, xs: seq<T>, p: T -> bool)
    requires InOrderOf(order, xs)
    ensures InOrderOf(order, Keep(xs, p))
  {
    if xs != [] {
      var init := xs[..|xs| - 1];
      assert forall x :: x in init ==> x in xs;
      KeepKeepsOrder(order, init, p);
      if p(xs[|xs| - 1]) {
        forall i | 0 <= i < |Keep(init, p)|
          ensures Place(order, Keep(init, p)[i]) < Place(order, xs[|xs| - 1])
        {
          assert Keep(init, p)[i] in init;
        }
      }
    }
  }

  lemma AllowedIsInOrder(policy: Policy, c: Capability, registered: seq<Provider>)
    ensures var r := Allowed(policy, c, registered); var all := Candidates(policy, c, registered);
      && NoDup(r) && InOrderOf(all, r)
      && (forall p :: p in r <==> p in all && IsEnabled(policy, p))
  {
    var all := Candidates(policy, c, registered);
    var enabled := EnabledIn(policy.controls);
    assert forall p :: enabled(p) == IsEnabled(policy, p);
    hide Dedup, Keep, Candidates;
    DedupKeepsOrder(all);
    KeepKeepsOrder(all, Dedup(all), enabled);
    KeepNoDup(Dedup(all), enabled);
  }

  lemma FirstComesFirst<T>(all: seq<T>, r: seq<T>, x: T)
    requires InOrderOf(all, r) && x in r
    ensures r[0] in all && x in all && Place(all, r[0]) <= Place(all, x)
  {
    var k :| 0 <= k < |r| && r[k] == x;
    assert r[0] in r;
  }

  /**
   The order of a capability with no required provider: enabled candidates, each once, by first
   appearance in the row, the default order and the registered providers; all of them, unless the
   first one refuses fallback, which then stands alone.
   */
  lemma ResolveIsTheOrder(policy: Policy, c: Capability, registered: seq<Provider>)
    requires !Requires(RouteOf(policy, c))
    ensures var r := Resolve(policy, c, registered); var all := Candidates(policy, c, registered);
      && NoDup(r) && InOrderOf(all, r)
      && (forall p :: p in r ==> IsEnabled(policy, p))
      && (if |r| > 0 && r[0] != "" && r[0] in policy.controls && policy.controls[r[0]].fallbackEnabled == false
          then |r| == 1 && forall p :: p in all && IsEnabled(policy, p) ==> Place(all, r[0]) <= Place(all, p)
          else forall p :: p in all && IsEnabled(policy, p) ==> p in r)
  {
    var all := Candidates(policy, c, registered);
    var allowed := Allowed(policy, c, registered);
    AllowedIsInOrder(policy, c, registered);
    hide Allowed, Candidates;
    forall p | p in all && IsEnabled(policy, p) ensures p in allowed && Place(all, allowed[0]) <= Place(all, p) {
      FirstComesFirst(all, allowed, p);
    }
  }

  /** Deduplicating and filtering commute. */
  lemma {:induction false} DedupCommutesWithKeep<T(!new)>(xs: seq<T>, p: T -> bool)
    ensures Dedup(Keep(xs, p)) == Keep(Dedup(xs), p)
  {
    if xs != [] {
      var init, last := xs[..|xs| - 1], xs[|xs| - 1];
      DedupCommutesWithKeep(init, p);
      assert xs == init + [last];
      hide Dedup, Keep;
      KeepSnoc(init, last, p);
      DedupSnoc(init, last);
      DedupSnoc(Keep(init, p), last);
      KeepSnoc(Dedup(init), last, p);
    }
  }

  lemma NothingAppended<T>(xs: seq<T>, kept: seq<T>)
    ensures xs + [] == xs && kept + [] == kept
  {
  }

  lemma {:induction false} KeepConcat<T(!new)>(xs: seq<T>, ys: seq<T>, p: T -> bool)
    ensures Keep(xs + ys, p) == Keep(xs, p) + Keep(ys, p)
  {
    if ys == [] {
      NothingAppended(xs, Keep(xs, p));
    } else {
      var init, last := ys[..|ys| - 1], ys[|ys| - 1];
      KeepConcat(xs, init, p);
      KeepConcatStep(xs, init, last, p);
      assert ys == init + [last];
    }
  }

  lemma KeepConcatStep<T(!new)>(xs: seq<T>, init: seq<T>, last: T, p: T -> bool)
    requires Keep(xs + init, p) == Keep(xs, p) + Keep(init, p)
    ensures Keep(xs + (init + [last]), p) == Keep(xs, p) + Keep(init + [last], p)
  {
    hide Keep;
    KeepSnoc(init, last, p);
    KeepSnoc(xs + init, last, p);
    assert xs + (init + [last]) == xs + init + [last];
    assert Keep(xs, p) + (Keep(init, p) + [last]) == Keep(xs, p) + Keep(init, p) + [last];
  }

  lemma {:induction false} KeepKeep<T(!new)>(xs: seq<T>, p: T -> bool, q: T -> bool, both: T -> bool)
    requires forall x :: x in xs ==> (both(x) <==> p(x) && q(x))
    ensures Keep(Keep(xs, p), q) == Keep(xs, both)
  {
    if xs != [] {
      var init, last := xs[..|xs| - 1], xs[|xs| - 1];
      KeepKeep(init, p, q, both);
      hide Keep;
      assert xs == init + [last];
      KeepSnoc(init, last, p);
      KeepSnoc(init, last, both);
      KeepSnoc(Keep(init, p), last, q);
    }
  }

  /** What comes again adds nothing. */
  lemma {:induction false} DedupTwice<T(!new)>(xs: seq<T>, ys: seq<T>)
    requires forall y :: y in ys ==> y in xs
    ensures Dedup(xs + ys) == Dedup(xs)
  {
    if ys == [] {
      assert xs + ys == xs;
    } else {
      var init, last := ys[..|ys| - 1], ys[|ys| - 1];
      assert last in ys;
      DedupTwice(xs, init);
      hide Dedup;
      DedupSnoc(xs + init, last);
      assert xs + ys == xs + init + [last];
    }
  }

  /** Deduplicating a part first changes nothing. */
  lemma {:induction false} DedupFirst<T(!new)>(xs: seq<T>, ys: seq<T>)
    ensures Dedup(Dedup(xs) + ys) == Dedup(xs + ys)
  {
    hide Dedup;
    if ys == [] {
      NothingAppended(xs, Dedup(xs));
      DedupOnce(Dedup(xs));
    } else {
      var init, last := ys[..|ys| - 1], ys[|ys| - 1];
      DedupFirst(xs, init);
      DedupSnoc(xs + init, last);
      DedupSnoc(Dedup(xs) + init, last);
      assert xs + ys == xs + init + [last];
      assert Dedup(xs) + ys == Dedup(xs) + init + [last];
    }
  }

  lemma {:induction false} DedupOnce<T(!new)>(xs: seq<T>)
    requires NoDup(xs)
    ensures Dedup(xs) == xs
  {
    if xs != [] {
      DedupOnce(xs[..|xs| - 1]);
    }
  }

  /** Listing the default order twice is listing it once. */
  lemma {:induction false} DefaultOrderOnce(default: seq<Provider>, registered: seq<Provider>)
    ensures Dedup(default + (default + registered)) == Dedup(default + registered)
  {
    hide Dedup;
    DedupTwice(default, default);
    DedupFirst(default + default, registered);
    DedupFirst(default, registered);
    assert default + (default + registered) == default + default + registered;
  }

  // Persisted rewrites

  /** An update leaves out what it does not name. */
  datatype Field<T> = Unchanged | Assign(value: T)

  function Saved<T>(field: Field<Option<T>>, existing: Option<T>): Option<T> {
    if field.Assign? then field.value else existing
  }

  function Upserted(controls: map<Provider, Control>, p: Provider, mode: Mode, fallbackEnabled: bool,
                    model: Field<Option<string>>, effort: Field<Option<string>>): map<Provider, Control> {
    var existing := if p in controls then controls[p] else Control(Enabled, true, None, None);
    controls[p := Control(mode, fallbackEnabled, Saved(model, existing.model), Saved(effort, existing.effort))]
  }

  function Others(p: Provider): Provider -> bool {
    q => q != p
  }

  function Erase(route: Route, p: Provider): Route {
    var order := Keep(route.order, Others(p));
    if route.required == Some(p) then Route(order, None, None, None) else route.(order := order)
  }

  function EraseAll(routes: map<Capability, Route>, p: Provider): map<Capability, Route> {
    map c | c in routes :: Erase(routes[c], p)
  }

  /** The policy with `p` taken out of every routing row. */
  function Erased(policy: Policy, p: Provider): Policy {
    policy.(routes := EraseAll(policy.routes, p))
  }

  /** What filtering by mode leaves of a configured order and what follows it. */
  lemma AllowedSplit(order: seq<Provider>, rest: seq<Provider>, enabled: Provider -> bool)
    ensures Keep(Dedup(order + rest), enabled) == Dedup(Keep(order, enabled) + Keep(rest, enabled))
  {
    DedupCommutesWithKeep(order + rest, enabled);
    KeepConcat(order, rest, enabled);
  }

  /** Erasing a disabled provider from an order, even down to nothing, leaves the same allowed providers. */
  lemma ErasedOrder(order: seq<Provider>, p: Provider, default: seq<Provider>, registered: seq<Provider>,
                    enabled: Provider -> bool)
    requires !enabled(p)
    ensures var erased := Keep(order, Others(p)); var rest := default + registered;
      Keep(Dedup((if erased != [] then erased else default) + rest), enabled) == Keep(Dedup(order + rest), enabled)
  {
    var erased := Keep(order, Others(p));
    var rest := default + registered;
    KeepKeep(order, Others(p), enabled, enabled);
    AllowedSplit(order, rest, enabled);
    if erased != [] {
      AllowedSplit(erased, rest, enabled);
    } else {
      DefaultOrderOnce(default, registered);
      DedupCommutesWithKeep(rest, enabled);
      assert Keep(order, enabled) + Keep(rest, enabled) == Keep(rest, enabled);
    }
  }

  lemma ErasedCandidates(policy: Policy, p: Provider, c: Capability, registered: seq<Provider>)
    ensures var order := RouteOf(policy, c).order; var rest := DefaultOrder(c) + registered;
      if c in policy.routes && order != [] then
        var erased := Keep(order, Others(p));
        && Candidates(policy, c, registered) == order + rest
        && Candidates(Erased(policy, p), c, registered) == (if erased != [] then erased else DefaultOrder(c)) + rest
      else Candidates(Erased(policy, p), c, registered) == Candidates(policy, c, registered)
  {
    var default := DefaultOrder(c);
    var order := RouteOf(policy, c).order;
    assert order + (default + registered) == order + default + registered;
    var erased := RouteOf(Erased(policy, p), c).order;
    assert erased + (default + registered) == erased + default + registered;
    assert default + (default + registered) == default + default + registered;
  }

  /** Filtering by mode already hides everything about `p` in the candidates that erasing it changes. */
  lemma AllowedAfterErase(policy: Policy, p: Provider, c: Capability, registered: seq<Provider>)
    requires !IsEnabled(policy, p)
    ensures Allowed(Erased(policy, p), c, registered) == Allowed(policy, c, registered)
  {
    hide Dedup, Keep, Candidates;
    ErasedCandidates(policy, p, c, registered);
    ErasedOrder(RouteOf(policy, c).order, p, DefaultOrder(c), registered, EnabledIn(policy.controls));
  }

  /**
   Pausing or disabling a provider erases it from every row. That is unobservable in a capability's
   order if and only if the capability did not require the provider, or nobody else can serve it.
   */
  lemma EraseIsUnobservableIff(policy: Policy, p: Provider, c: Capability, registered: seq<Provider>)
    requires !IsEnabled(policy, p)
    ensures Resolve(Erased(policy, p), c, registered) == Resolve(policy, c, registered)
      <==> RouteOf(policy, c).required != Some(p) || p == "" || Allowed(policy, c, registered) == []
  {
    AllowedAfterErase(policy, p, c, registered);
  }

  ghost predicate Unroutable(policy: Policy, p: Provider) {
    forall c, registered :: p !in Resolve(policy, c, registered)
  }

  /** Every capability that did not require `p` is routed as if its row had been kept. */
  ghost predicate RoutedAsKept(policy: Policy, kept: Policy, p: Provider) {
    forall c, registered ::
      RouteOf(kept, c).required != Some(p) ==> Resolve(policy, c, registered) == Resolve(kept, c, registered)
  }

  lemma PauseIsUnobservable(policy: Policy, p: Provider)
    requires !IsEnabled(policy, p)
    ensures Unroutable(Erased(policy, p), p) && RoutedAsKept(Erased(policy, p), policy, p)
  {
    forall c, registered
      ensures p !in Resolve(Erased(policy, p), c, registered)
      ensures RouteOf(policy, c).required != Some(p) ==>
          Resolve(Erased(policy, p), c, registered) == Resolve(policy, c, registered)
    {
      EraseIsUnobservableIff(policy, p, c, registered);
      assert p !in Allowed(Erased(policy, p), c, registered);
    }
  }

  /** Providers can be paused in any order, and pausing one again changes no row. */
  lemma ErasesCommute(routes: map<Capability, Route>, p: Provider, q: Provider)
    ensures EraseAll(EraseAll(routes, p), q) == EraseAll(EraseAll(routes, q), p)
    ensures EraseAll(EraseAll(routes, p), p) == EraseAll(routes, p)
  {
    hide Keep;
    forall c | c in routes
      ensures Erase(Erase(routes[c], p), q) == Erase(Erase(routes[c], q), p)
      ensures Erase(Erase(routes[c], p), p) == Erase(routes[c], p)
    {
      KeepKeep(routes[c].order, Others(p), Others(q), r => r != p && r != q);
      KeepKeep(routes[c].order, Others(q), Others(p), r => r != p && r != q);
      KeepAll(Keep(routes[c].order, Others(p)), Others(p));
    }
  }

  /** Pausing the provider that a capability requires is observable: nobody could serve it, now the others do. */
  lemma PausingARequiredProvider(p: Provider, a: Provider, b: Provider, c: Capability)
    requires DefaultOrder(c) == [a, p, b] && p != "" && p != a && p != b && a != b
    ensures var kept := Policy(map[p := Control(Paused, true, None, None)], map[c := Route([], Some(p), None, None)]);
      Resolve(kept, c, []) == [] && Resolve(Erased(kept, p), c, []) == [a, b]
  {
    var kept := Policy(map[p := Control(Paused, true, None, None)], map[c := Route([], Some(p), None, None)]);
    hide Allowed;
    OnlyTheOthersAreAllowed(kept, p, a, b, c);
    AllowedAfterErase(kept, p, c, []);
  }

  lemma OnlyTheOthersAreAllowed(kept: Policy, p: Provider, a: Provider, b: Provider, c: Capability)
    requires DefaultOrder(c) == [a, p, b] && p != a && p != b && a != b && RouteOf(kept, c).order == []
    requires kept.controls == map[p := Control(Paused, true, None, None)]
    ensures Allowed(kept, c, []) == [a, b]
  {
    var default := [a, p, b];
    assert Candidates(kept, c, []) == default + default;
    DedupOnce(default);
    hide Dedup, Keep, Candidates, DefaultOrder;
    DedupTwice(default, default);
    KeepOfThree(a, p, b, EnabledIn(kept.controls));
  }

  lemma KeepOfThree<T(!new)>(a: T, b: T, c: T, p: T -> bool)
    requires p(a) && !p(b) && p(c)
    ensures Keep([a, b, c], p) == [a, c]
  {
    assert Keep([], p) == [];
    hide Keep;
    KeepSnoc([], a, p);
    KeepSnoc([a], b, p);
    KeepSnoc([a, b], c, p);
    assert [] + [a] == [a] && [a] + [b] == [a, b] && [a, b] + [c] == [a, b, c];
  }

  /** For instance a capability that requires Codex, which is paused. */
  lemma PausingRequiredCodex()
    ensures DefaultOrder(Coding) == ["antigravity", "codex", "claude"]
    ensures var codex := map["codex" := Control(Paused, true, None, None)];
      var kept := Policy(codex, map[Coding := Route([], Some("codex"), None, None)]);
      Resolve(kept, Coding, []) == [] && Resolve(Erased(kept, "codex"), Coding, []) == ["antigravity", "claude"]
  {
    PausingARequiredProvider("codex", "antigravity", "claude", Coding);
  }

  // Routing a capability anew

  /** The policy with a capability's row replaced. */
  function Given(policy: Policy, c: Capability, route: Route): Policy {
    policy.(routes := policy.routes[c := route])
  }

  /** The candidates of a capability that has a row. */
  lemma GivenCandidates(policy: Policy, c: Capability, route: Route, registered: seq<Provider>)
    ensures Candidates(Given(policy, c, route), c, registered)
      == (if route.order != [] then route.order else DefaultOrder(c)) + (DefaultOrder(c) + registered)
  {
    var default := DefaultOrder(c);
    var order := if route.order != [] then route.order else default;
    assert order + default + registered == order + (default + registered);
  }

  /** Repeating a provider in an order changes nothing. */
  lemma DuplicatesAreUnobservable(policy: Policy, c: Capability, route: Route, registered: seq<Provider>)
    ensures Resolve(Given(policy, c, route.(order := Dedup(route.order))), c, registered)
      == Resolve(Given(policy, c, route), c, registered)
  {
    DedupKeepsSomething(route.order);
    hide Dedup, Keep, Candidates, DefaultOrder;
    GivenCandidates(policy, c, route, registered);
    GivenCandidates(policy, c, route.(order := Dedup(route.order)), registered);
    DedupFirst(route.order, DefaultOrder(c) + registered);
  }

  lemma DedupKeepsSomething<T(!new)>(xs: seq<T>)
    ensures Dedup(xs) == [] <==> xs == []
  {
    if xs != [] {
      assert xs[0] in xs;
    }
  }

  /** The capability is routed by the given order and requirement, duplicates aside, and every other one as before. */
  ghost predicate RoutedAnew(policy: Policy, before: Policy, c: Capability, route: Route) {
    forall other, registered :: Resolve(policy, other, registered)
      == if other == c then Resolve(Given(before, c, route), c, registered) else Resolve(before, other, registered)
  }

  lemma OthersRouteAsBefore(policy: Policy, c: Capability, route: Route, other: Capability, registered: seq<Provider>)
    requires other != c
    ensures Resolve(Given(policy, c, route), other, registered) == Resolve(policy, other, registered)
  {
    hide Dedup, Keep;
    assert Candidates(Given(policy, c, route), other, registered) == Candidates(policy, other, registered);
  }

  lemma GivenIsRoutedAnew(policy: Policy, c: Capability, route: Route)
    ensures RoutedAnew(Given(policy, c, route.(order := Dedup(route.order))), policy, c, route)
  {
    var given := Given(policy, c, route.(order := Dedup(route.order)));
    forall other, registered
      ensures Resolve(given, other, registered)
        == if other == c then Resolve(Given(policy, c, route), c, registered) else Resolve(policy, other, registered)
    {
      if other == c {
        DuplicatesAreUnobservable(policy, c, route, registered);
      } else {
        OthersRouteAsBefore(policy, c, route.(order := Dedup(route.order)), other, registered);
      }
    }
  }

  /** Preferred models and efforts play no part in the order. */
  lemma SameOrderSameRouting(policy: Policy, c: Capability, a: Route, b: Route)
    requires a.order == b.order && a.required == b.required
    ensures forall registered ::
      Resolve(Given(policy, c, a), c, registered) == Resolve(Given(policy, c, b), c, registered)
  {
    hide Dedup, Keep, Candidates;
    forall registered
      ensures Resolve(Given(policy, c, a), c, registered) == Resolve(Given(policy, c, b), c, registered)
    {
      GivenCandidates(policy, c, a, registered);
      GivenCandidates(policy, c, b, registered);
    }
  }

  /** The policy tables. */
  class PolicyStore {
    var controls: map<Provider, Control>
    var routes: map<Capability, Route>
    var connections: set<Provider>

    ghost function Tables(): Policy
      reads this
    {
      Policy(controls, routes)
    }

    constructor ()
      ensures Tables() == Policy(map[], map[]) && connections == {}
    {
      controls, routes, connections := map[], map[], {};
    }

    /** Rewrites the routing rows one after another, in whatever order the table yields them. */
    method EraseFromRows(p: Provider)
      modifies this`routes
      ensures routes == EraseAll(old(routes), p)
    {
      var todo := routes.Keys;
      while todo != {}
        invariant todo <= routes.Keys == old(routes).Keys
        invariant forall c :: c in todo ==> routes[c] == old(routes)[c]
        invariant forall c :: c in routes && c !in todo ==> routes[c] == Erase(old(routes)[c], p)
        decreases |todo|
      {
        var c :| c in todo;
        var row := routes[c];
        var order := Keep(row.order, Others(p));
        var wasRequired := row.required == Some(p);
        routes := routes[c := Route(order, if wasRequired then None else row.required,
                                    if wasRequired then None else row.preferredModel,
                                    if wasRequired then None else row.preferredEffort)];
        todo := todo - {c};
      }
    }

    /**
     An enabled provider's rows are left alone; a paused or disabled one is in no order afterwards,
     and every capability that did not require it is routed as if the rows had been kept.
     */
    method UpdateProviderControl(p: Provider, mode: Mode, fallbackEnabled: bool,
                                 model: Field<Option<string>>, effort: Field<Option<string>>) returns (control: Control)
      modifies this`controls, this`routes
      ensures controls == Upserted(old(controls), p, mode, fallbackEnabled, model, effort) && control == controls[p]
      ensures routes == if mode == Enabled then old(routes) else EraseAll(old(routes), p)
      ensures mode != Enabled ==> Unroutable(Tables(), p)
      ensures RoutedAsKept(Tables(), Policy(controls, old(routes)), p)
    {
      var existing := if p in controls then controls[p] else Control(Enabled, true, None, None);
      control := Control(mode, fallbackEnabled, Saved(model, existing.model), Saved(effort, existing.effort));
      controls := controls[p := control];
      ghost var kept := Tables();
      if mode == Paused || mode == Disabled {
        EraseFromRows(p);
        assert Tables() == Erased(kept, p);
        PauseIsUnobservable(kept, p);
      }
    }

    /** Replaces a capability's row; preferences that are not named stay. */
    method UpdateCapabilityRouting(c: Capability, order: seq<Provider>, required: Option<Provider>,
                                   model: Field<Option<string>>, effort: Field<Option<string>>)
      modifies this`routes
      ensures RoutedAnew(Tables(), old(Tables()), c, Route(order, required, None, None))
      ensures routes.Keys == old(routes).Keys + {c} && forall d :: d in old(routes) && d != c ==>
          routes[d] == old(routes)[d]
      ensures NoDup(routes[c].order) && InOrderOf(order, routes[c].order) && routes[c].required == required
      ensures var was := RouteOf(old(Tables()), c);
        routes[c].preferredModel == Saved(model, was.preferredModel)
        && routes[c].preferredEffort == Saved(effort, was.preferredEffort)
    {
      var was := if c in routes then routes[c] else Route([], None, None, None);
      var row := Route(Dedup(order), required, Saved(model, was.preferredModel), Saved(effort, was.preferredEffort));
      DedupKeepsOrder(order);
      GivenIsRoutedAnew(Tables(), c, row.(order := order));
      SameOrderSameRouting(Tables(), c, row.(order := order), Route(order, required, None, None));
      routes := routes[c := row];
    }

    method MarkProviderConnected(p: Provider)
      modifies this`connections
      ensures connections == old(connections) + {p}
    {
      connections := connections + {p};
    }

    /** Forgets a provider's connection and control, and erases it from every row. */
    method RemoveProvider(p: Provider)
      modifies this
      ensures controls == old(controls) - {p} && routes == EraseAll(old(routes), p)
      ensures connections == old(connections) - {p}
    {
      connections := connections - {p};
      controls := controls - {p};
      EraseFromRows(p);
    }
  }
}
