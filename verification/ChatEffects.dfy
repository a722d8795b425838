/**
 Effects of tool calls in a chat turn, and which calls can be followed, and repeated, by another
 provider.
 */
module ChatEffects {
  import opened Basics
  import opened RoutingPolicy
  import opened ChatTools
  import opened ChatFallback

  // What ends a turn

  /** A tool call that raises an abort. */
  predicate Aborts(e: Event) {
    e.Called? && e.use.deed.raises.Abort?
  }

  ghost predicate NoAbort(trace: seq<Event>) {
    forall e :: e in trace ==> !Aborts(e)
  }

  ghost predicate NoAcquisition(trace: seq<Event>) {
    forall e :: e in trace ==> !e.Acquired?
  }

  /** An iteration acquires nobody, and one with an aborting call ends the attempt as cancelled. */
  lemma IterationAborts(w: World, k: nat, p: Provider, budget: Budget, s: Progress) returns (more: seq<Event>)
    ensures var r := Iterate(w, k, p, budget, s);
      && r.progress.trace == s.trace + more && NoAcquisition(more)
      && (NoAbort(more) || (r.Stop? && r.end.Cancelled?))
  {
    var first := Looked(w.aborted(s.checks));
    more := [first];
    if !w.aborted(s.checks) {
      var asked := Asking(Look(w, s), p);
      var e := Invoked(p, asked.iterations);
      more := [first, e];
      assert s.trace + [first] + [e] == s.trace + more;
      var reply := w.invoke(k, asked.iterations);
      if !reply.AbortError? && !reply.Failed? {
        var second := Looked(w.aborted(asked.checks));
        more := [first, e, second];
        assert asked.trace + [second] == s.trace + more;
        if reply.ToolCall? && !second.on && s.toolCalls < budget.maxToolCalls {
          more := ToolTurnAborts(w, k, p, reply.tool, Look(w, asked), s.trace, more);
        }
      }
    }
  }

  lemma ToolTurnAborts(w: World, k: nat, p: Provider, tool: Tool, s: Progress, before: seq<Event>, body: seq<Event>)
    returns (more: seq<Event>)
    requires s.trace == before + body && NoAbort(body) && NoAcquisition(body)
    ensures var r := ToolTurn(w, k, p, tool, s);
      && r.progress.trace == before + more && NoAcquisition(more)
      && (NoAbort(more) || (r.Stop? && r.end.Cancelled?))
  {
    var u := Use(tool, w.access, w.deed(k, s.iterations));
    var called := AfterTool(s, p, u);
    more := body + [Called(p, s.iterations, u)];
    assert called.trace == before + more;
    if ReplyTo(u).Returned? {
      var look := Looked(w.aborted(called.checks));
      assert before + more + [look] == before + (more + [look]);
      more := more + [look];
    }
  }

  lemma JoinedQuiet(a: seq<Event>, b: seq<Event>)
    ensures NoAbort(a) && NoAbort(b) ==> NoAbort(a + b)
    ensures NoAcquisition(a) && NoAcquisition(b) ==> NoAcquisition(a + b)
  {
  }

  /** So does an attempt. */
  lemma {:induction false} LoopAborts(w: World, k: nat, p: Provider, budget: Budget, s: Progress)
    returns (more: seq<Event>)
    ensures var r := Loop(w, k, p, budget, s);
      && r.progress.trace == s.trace + more && NoAcquisition(more) && (NoAbort(more) || r.end.Cancelled?)
    decreases budget.maxIterations - s.iterations
  {
    more := [];
    if s.iterations < budget.maxIterations {
      var r := Iterate(w, k, p, budget, s);
      var first := IterationAborts(w, k, p, budget, s);
      more := first;
      if r.GoOn? {
        var rest := LoopAborts(w, k, p, budget, r.progress);
        more := first + rest;
        JoinedQuiet(first, rest);
        assert s.trace + first + rest == s.trace + more;
      }
    }
  }

  lemma Enclosed(before: seq<Event>, p: Provider, body: seq<Event>)
    ensures before + [Looked(false)] + [Acquired(p)] + body + [Released(p)] == before + Block(Attempt(p, body))
    ensures NoAbort(body) ==> NoAbort(Block(Attempt(p, body)))
  {
  }

  /** The turn is over after an attempt with an aborting call. */
  lemma TryAborts(w: World, budget: Budget, t: Turn) returns (more: seq<Event>)
    ensures TryNext(w, budget, t).turn.trace == t.trace + more
    ensures TryNext(w, budget, t).FallsBack? ==> NoAbort(more)
    ensures forall i, j :: 0 <= i < j < |more| && Aborts(more[i]) ==> !more[j].Acquired?
  {
    more := [Looked(w.aborted(t.checks))];
    if !w.aborted(t.checks) && w.acquire(t.attempts, t.excluded).Some? {
      var p := w.acquire(t.attempts, t.excluded).value;
      var body := LoopAborts(w, t.attempts, p, budget, Beginning(w, t, p));
      hide Loop;
      more := Block(Attempt(p, body));
      Enclosed(t.trace, p, body);
      forall i, j | 0 <= i < j < |more| && Aborts(more[i]) ensures !more[j].Acquired? {
        assert i >= 2;
        assert j < |body| + 2 ==> more[j] == body[j - 2];
      }
    }
  }

  /** What happened in a turn so far stays, and once a call raised an abort nobody is acquired any more. */
  lemma {:induction false} AbortEndsTurn(w: World, budget: Budget, known: set<Provider>, t: Turn)
    requires Grants(w, known) && NoAbort(t.trace)
    ensures var trace := Synthesize(w, budget, known, t).turn.trace;
      && t.trace <= trace
      && forall i, j :: 0 <= i < j < |trace| && Aborts(trace[i]) ==> !trace[j].Acquired?
    decreases |known - t.excluded|
  {
    var next := TryNext(w, budget, t);
    var more := TryAborts(w, budget, t);
    if next.FallsBack? {
      FewerLeft(known, t.excluded, next.provider);
      JoinedQuiet(t.trace, more);
      AbortEndsTurn(w, budget, known, next.turn);
    } else {
      hide TryNext;
      assert forall k :: 0 <= k < |t.trace| ==> !Aborts(t.trace[k]);
      forall i, j | 0 <= i < j < |next.turn.trace| && Aborts(next.turn.trace[i]) ensures !next.turn.trace[j].Acquired? {
        assert next.turn.trace[i] == more[i - |t.trace|] && next.turn.trace[j] == more[j - |t.trace|];
      }
    }
  }

  // Changes that were not reported

  lemma {:induction false} BodyInTrace(attempts: seq<Attempt>, k: nat, e: Event) returns (i: nat)
    requires k < |attempts| && e in attempts[k].body
    ensures i < |Flat(attempts)| && Flat(attempts)[i] == e
  {
    var n := |attempts| - 1;
    if k < n {
      i := BodyInTrace(attempts[..n], k, e);
    } else {
      var j :| 0 <= j < |attempts[n].body| && attempts[n].body[j] == e;
      i := |Flat(attempts[..n])| + 2 + j;
      assert Block(attempts[n])[2 + j] == e;
    }
  }

  predicate Effectful(e: Event) {
    e.Called? && HasEffect(e.use)
  }

  /** Something was changed, and another provider was acquired afterwards. */
  ghost predicate EffectThenAcquisition(trace: seq<Event>) {
    exists i, j :: 0 <= i < j < |trace| && Effectful(trace[i]) && trace[j].Acquired?
  }

  ghost predicate SomeUnreported(body: seq<Event>) {
    exists e :: e in body && e.Called? && Unreported(e.use)
  }

  /** Some attempt that was followed by another one changed something without reporting it. */
  ghost predicate UnreportedThenNext(attempts: seq<Attempt>) {
    exists k :: 0 <= k < |attempts| - 1 && SomeUnreported(attempts[k].body)
  }

  lemma EffectIsUnreported(attempts: seq<Attempt>, known: set<Provider>, budget: Budget, i: nat, j: nat)
    requires WellFormed(attempts, known, budget) && i < j < |Flat(attempts)|
    requires Effectful(Flat(attempts)[i]) && Flat(attempts)[j].Acquired?
    ensures UnreportedThenNext(attempts)
  {
    var n := |attempts| - 1;
    var before := Flat(attempts[..n]);
    assert WithinBudget(attempts[n], budget);
    if j >= |before| {
      AcquiredFirst(attempts[n], j - |before|);
      if i >= |before| {
        AcquiredFirst(attempts[n], i - |before|);
      }
    }
    assert before[i] == Flat(attempts)[i];
    var k := EventInBody(attempts[..n], i);
    var e := before[i];
    assert attempts[..n][k] == attempts[k] && !SomeCommit(attempts[k].body);
    UnreportedIff(e.use);
    assert e in attempts[k].body && !ChatFallback.Commits(e);
    assert SomeUnreported(attempts[k].body);
  }

  lemma FollowedBy(before: seq<Event>, i: nat, block: seq<Event>)
    requires i < |before| && Effectful(before[i]) && |block| > 1 && block[1].Acquired?
    ensures EffectThenAcquisition(before + block)
  {
    assert (before + block)[i] == before[i] && (before + block)[|before| + 1] == block[1];
  }

  lemma SomeEffect(body: seq<Event>) returns (e: Event)
    requires SomeUnreported(body)
    ensures e in body && Effectful(e)
  {
    e :| e in body && e.Called? && Unreported(e.use);
  }

  lemma SecondIsAcquired(a: Attempt)
    ensures |Block(a)| > 1 && Block(a)[1].Acquired?
  {
  }

  lemma LastBlock(attempts: seq<Attempt>)
    requires attempts != []
    ensures Flat(attempts) == Flat(attempts[..|attempts| - 1]) + Block(attempts[|attempts| - 1])
  {
  }

  lemma UnreportedIsFollowed(attempts: seq<Attempt>, k: nat)
    requires k < |attempts| - 1 && SomeUnreported(attempts[k].body)
    ensures EffectThenAcquisition(Flat(attempts))
  {
    hide Flat, Block, SomeUnreported, Effectful;
    var n := |attempts| - 1;
    var e := SomeEffect(attempts[k].body);
    var i := BodyInTrace(attempts[..n], k, e);
    LastBlock(attempts);
    SecondIsAcquired(attempts[n]);
    FollowedBy(Flat(attempts[..n]), i, Block(attempts[n]));
  }

  /**
   A change is followed by another acquisition, so that another provider may repeat it, if and only
   if an attempt that is not the last made a call whose effect it did not report.
   */
  lemma EffectIsFollowedIff(w: World, budget: Budget, known: set<Provider>)
    returns (all: seq<Attempt>, tail: seq<Event>)
    requires Grants(w, known)
    ensures var trace := Synthesize(w, budget, known, START).turn.trace;
      && trace == Flat(all) + tail && IsTail(tail) && WellFormed(all, known, budget)
      && (EffectThenAcquisition(trace) <==> UnreportedThenNext(all))
  {
    all, tail := NoReportedCommitIsReplayed(w, budget, known, START, []);
    TailDoesNotMatter(Flat(all), tail);
    hide Synthesize, WellFormed, IsTail, Flat;
    FlatIsFollowedIff(all, known, budget);
  }

  lemma TailDoesNotMatter(trace: seq<Event>, tail: seq<Event>)
    requires IsTail(tail)
    ensures EffectThenAcquisition(trace + tail) <==> EffectThenAcquisition(trace)
  {
    if EffectThenAcquisition(trace + tail) {
      var i, j :| 0 <= i < j < |trace + tail| && Effectful((trace + tail)[i]) && (trace + tail)[j].Acquired?;
      assert (trace + tail)[i] == trace[i] && (trace + tail)[j] == trace[j];
    }
    if EffectThenAcquisition(trace) {
      var i, j :| 0 <= i < j < |trace| && Effectful(trace[i]) && trace[j].Acquired?;
      assert (trace + tail)[i] == trace[i] && (trace + tail)[j] == trace[j];
    }
  }

  lemma FlatIsFollowedIff(all: seq<Attempt>, known: set<Provider>, budget: Budget)
    requires WellFormed(all, known, budget)
    ensures EffectThenAcquisition(Flat(all)) <==> UnreportedThenNext(all)
  {
    hide Flat, WellFormed, SomeUnreported;
    if EffectThenAcquisition(Flat(all)) {
      var i, j :| 0 <= i < j < |Flat(all)| && Effectful(Flat(all)[i]) && Flat(all)[j].Acquired?;
      EffectIsUnreported(all, known, budget, i, j);
    }
    if UnreportedThenNext(all) {
      var k :| 0 <= k < |all| - 1 && SomeUnreported(all[k].body);
      UnreportedIsFollowed(all, k);
    }
  }

  // Which calls can be followed by another provider

  /** In some turn the call is made, and another provider is acquired afterwards. */
  ghost predicate CanBeFollowed(u: Use) {
    exists w, budget, known :: FollowedIn(w, budget, known, u)
  }

  ghost predicate FollowedIn(w: World, budget: Budget, known: set<Provider>, u: Use) {
    Grants(w, known) && CallThenAcquisition(Synthesize(w, budget, known, START).turn.trace, u)
  }

  ghost predicate CallThenAcquisition(trace: seq<Event>, u: Use) {
    exists i, j :: 0 <= i < j < |trace| && Makes(trace[i], u) && trace[j].Acquired?
  }

  predicate Makes(e: Event, u: Use) {
    e.Called? && e.use == u
  }

  lemma FollowedNeedsSilence(w: World, budget: Budget, known: set<Provider>, u: Use)
    requires FollowedIn(w, budget, known, u)
    ensures !ChatTools.Commits(u) && !u.deed.raises.Abort?
  {
    var trace := Synthesize(w, budget, known, START).turn.trace;
    var i, j :| 0 <= i < j < |trace| && Makes(trace[i], u) && trace[j].Acquired?;
    AbortEndsTurn(w, budget, known, START);
    if ChatTools.Commits(u) {
      NothingAcquiredAfterReportedCommit(w, budget, known, i, j);
    }
  }

  /** Every provider begins with the call; then the first one fails, and the second answers. */
  function TwoProviders(a: Provider, b: Provider, u: Use): World {
    World(
      (k: nat, excluded: set<Provider>) => if a !in excluded then Some(a) else if b !in excluded then Some(b) else None,
      (k: nat, i: nat) =>
        if i == 1 then ToolCall(u.tool) else if k == 0 then Failed("provider failed") else Final("done"),
      u.access,
      (k: nat, i: nat) => u.deed,
      (n: nat) => false)
  }

  const TWICE := Budget(2, 1)

  /** Attempt `k` makes the call in its first iteration, and goes on if the call returns. */
  function Making(k: nat, p: Provider, u: Use): Attempt {
    var calling := [Looked(false), Invoked(p, 1), Looked(false), Called(p, 1, u)];
    var asking := [Looked(false), Looked(false), Invoked(p, 2)] + if k == 0 then [] else [Looked(false)];
    Attempt(p, calling + if u.deed.raises.NoRaise? then asking else [])
  }

  /** How that attempt ends. */
  function EndOfMaking(k: nat, u: Use): End {
    if u.deed.raises.Error? then Threw(u.deed.raises.reason)
    else if k == 0 then Threw("provider failed")
    else Finished("done")
  }

  lemma CallIsMade(a: Provider, b: Provider, u: Use, k: nat, p: Provider, checks: nat, before: seq<Event>)
    requires !ChatTools.Commits(u) && !u.deed.raises.Abort?
    ensures var r := Loop(TwoProviders(a, b, u), k, p, TWICE, Fresh(checks, before));
      && r.end == EndOfMaking(k, u) && !r.progress.reported && r.progress.trace == before + Making(k, p, u).body
  {
    var w, s0 := TwoProviders(a, b, u), Fresh(checks, before);
    var called := before + [Looked(false), Invoked(p, 1), Looked(false), Called(p, 1, u)];
    assert before + [Looked(false)] + [Invoked(p, 1)] + [Looked(false)] + [Called(p, 1, u)] == called;
    var first := Iterate(w, k, p, TWICE, s0);
    if u.deed.raises.NoRaise? {
      assert ReplyTo(u) == Returned(false);
      var next := called + [Looked(false)];
      assert first == GoOn(Progress(1, 1, [u.tool], false, false, checks + 3, next));
      assert next + [Looked(false)] + [Invoked(p, 2)] + [Looked(false)] == before + Making(1, p, u).body;
      assert next + [Looked(false)] + [Invoked(p, 2)] == before + Making(0, p, u).body;
      assert Iterate(w, k, p, TWICE, first.progress).Stop?;
    } else {
      assert first == Stop(EndOfMaking(k, u), Progress(1, 1, [u.tool], false, false, checks + 2, called));
    }
  }

  /** An attempt that makes the call ends the turn with an answer, or falls back. */
  lemma CallIsTried(a: Provider, b: Provider, u: Use, t: Turn, p: Provider)
    requires !ChatTools.Commits(u) && !u.deed.raises.Abort?
    requires TwoProviders(a, b, u).acquire(t.attempts, t.excluded) == Some(p)
    ensures var next, k := TryNext(TwoProviders(a, b, u), TWICE, t), t.attempts;
      && next.turn.trace == t.trace + Block(Making(k, p, u)) && next.turn.attempts == t.attempts + 1
      && (EndOfMaking(t.attempts, u).Finished? ==> next.Ends?)
      && (EndOfMaking(t.attempts, u).Threw? ==> next.FallsBack? && next.turn.excluded == t.excluded + {p})
  {
    CallIsMade(a, b, u, t.attempts, p, t.checks + 1, t.trace + [Looked(false)] + [Acquired(p)]);
    hide Loop;
    BlockAfter(t.trace, Making(t.attempts, p, u));
  }

  lemma NobodyLeft(w: World, budget: Budget, known: set<Provider>, t: Turn)
    requires Grants(w, known) && !w.aborted(t.checks) && w.acquire(t.attempts, t.excluded).None?
    ensures Synthesize(w, budget, known, t).turn.trace == t.trace + [Looked(false)]
  {
  }

  lemma TwoProvidersGrant(a: Provider, b: Provider, u: Use)
    ensures Grants(TwoProviders(a, b, u), {a, b})
  {
  }

  lemma SecondMakesIt(a: Provider, b: Provider, u: Use, t: Turn)
    requires a != b && !ChatTools.Commits(u) && !u.deed.raises.Abort?
    requires t.attempts == 1 && t.excluded == {a} && Grants(TwoProviders(a, b, u), {a, b})
    ensures Synthesize(TwoProviders(a, b, u), TWICE, {a, b}, t).turn.trace
      == t.trace + Block(Making(1, b, u)) + LookAtTheEnd(u)
  {
    var w := TwoProviders(a, b, u);
    var next := TryNext(w, TWICE, t);
    CallIsTried(a, b, u, t, b);
    hide TryNext, Block, Making;
    if next.FallsBack? {
      NobodyLeft(w, TWICE, {a, b}, next.turn);
    } else {
      assert t.trace + Block(Making(1, b, u)) + [] == t.trace + Block(Making(1, b, u));
    }
  }

  /** When the second provider fails too, the search for a third begins with a look. */
  function LookAtTheEnd(u: Use): seq<Event> {
    if u.deed.raises.Error? then [Looked(false)] else []
  }

  /** Both providers make the call. */
  function Twice(a: Provider, b: Provider, u: Use): seq<Event> {
    Flat([Making(0, a, u), Making(1, b, u)]) + LookAtTheEnd(u)
  }

  lemma FlatOfTwo(x: Attempt, y: Attempt)
    ensures Flat([x, y]) == Block(x) + Block(y)
  {
    hide Block;
    OneMoreAttempt([], x);
    OneMoreAttempt([x], y);
    assert [] + [x] == [x] && [x] + [y] == [x, y];
  }

  /**
   A call that neither reports a committed mutation nor raises an abort is made again by the second
   provider when the first one fails, whatever it changed the first time.
   */
  lemma SilentCallIsRepeated(a: Provider, b: Provider, u: Use)
    requires a != b && !ChatTools.Commits(u) && !u.deed.raises.Abort?
    ensures Grants(TwoProviders(a, b, u), {a, b})
    ensures Synthesize(TwoProviders(a, b, u), TWICE, {a, b}, START).turn.trace == Twice(a, b, u)
  {
    TwoProvidersGrant(a, b, u);
    CallIsTried(a, b, u, START, a);
    hide TryNext, Block, Making;
    var next := TryNext(TwoProviders(a, b, u), TWICE, START);
    SecondMakesIt(a, b, u, next.turn);
    FlatOfTwo(Making(0, a, u), Making(1, b, u));
  }

  lemma SilentCallIsFollowed(u: Use)
    requires !ChatTools.Commits(u) && !u.deed.raises.Abort?
    ensures CanBeFollowed(u)
  {
    var a, b := "a", "b";
    SilentCallIsRepeated(a, b, u);
    FlatOfTwo(Making(0, a, u), Making(1, b, u));
    var trace := Twice(a, b, u);
    var j := |Block(Making(0, a, u))| + 1;
    assert Block(Making(0, a, u))[5] == Called(a, 1, u) && Block(Making(1, b, u))[1] == Acquired(b);
    assert Makes(trace[5], u) && trace[j].Acquired?;
    assert CallThenAcquisition(trace, u);
    assert FollowedIn(TwoProviders(a, b, u), TWICE, {a, b}, u);
  }

  /**
   Another provider can be brought in after a tool call if and only if the call neither reports a
   committed mutation nor raises an abort.
   */
  lemma CanBeFollowedIff(u: Use)
    ensures CanBeFollowed(u) <==> !ChatTools.Commits(u) && !u.deed.raises.Abort?
  {
    if CanBeFollowed(u) {
      var w, budget, known :| FollowedIn(w, budget, known, u);
      FollowedNeedsSilence(w, budget, known, u);
    }
    if !ChatTools.Commits(u) && !u.deed.raises.Abort? {
      SilentCallIsFollowed(u);
    }
  }

  /**
   So a change can be followed by another provider, which may make it again, if and only if its call
   did not report it and raised no abort.
   */
  lemma ChangeCanBeFollowedIff(u: Use)
    ensures HasEffect(u) && CanBeFollowed(u) <==> Unreported(u) && !u.deed.raises.Abort?
  {
    CanBeFollowedIff(u);
    UnreportedIff(u);
  }

  /** A command that leaves changes behind and exits badly. */
  const FAILING_COMMAND := Deed(false, Command(false, false, false, true, false), false, true, NoRaise)

  /**
   Under Full Access such a command changes something and is not reported, so that its provider's
   failure brings in a second provider, which runs it again.
   */
  lemma FailedCommandIsRepeated(a: Provider, b: Provider)
    requires a != b
    ensures var u := Use(RunCommand, Full, FAILING_COMMAND);
      && HasEffect(u) && Grants(TwoProviders(a, b, u), {a, b})
      && Synthesize(TwoProviders(a, b, u), TWICE, {a, b}, START).turn.trace == Twice(a, b, u)
  {
    SilentCallIsRepeated(a, b, Use(RunCommand, Full, FAILING_COMMAND));
  }
}
