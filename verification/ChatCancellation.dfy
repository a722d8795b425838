/**
 Cancelling a chat turn: where the cancel signal is looked at, and that nothing is done once a look
 has found it on. And what makes an attempt end, reply by reply.
 */
module ChatCancellation {
  import opened RoutingPolicy
  import opened ChatTools
  import opened ChatFallback

  // Where the looks are

  /** The invocation came back. */
  predicate ComesBack(w: World, k: nat, e: Event) {
    e.Invoked? && !w.invoke(k, e.iteration).AbortError? && !w.invoke(k, e.iteration).Failed?
  }

  /** The tool came back. */
  predicate Returns(e: Event) {
    e.Called? && e.use.deed.raises.NoRaise?
  }

  /** A look that found the signal off, after a reply that asks for a tool. */
  predicate AskedFor(w: World, k: nat, body: seq<Event>, i: nat)
    requires i < |body|
  {
    i > 0 && body[i] == Looked(false) && body[i - 1].Invoked? && w.invoke(k, body[i - 1].iteration).ToolCall?
  }

  /**
   An event of attempt `k` in its place: an invocation after a look that found the signal off, a call
   that was asked for after another one, and a look after everything that comes back; a look that
   finds the signal on is the last thing done.
   */
  ghost predicate InPlace(w: World, k: nat, body: seq<Event>, i: nat)
    requires i < |body|
  {
    && (body[i] == Looked(true) ==> i == |body| - 1)
    && (body[i].Invoked? ==> i > 0 && body[i - 1] == Looked(false))
    && (body[i].Called? ==>
          && i > 1 && body[i - 1] == Looked(false) && body[i - 2].Invoked?
          && w.invoke(k, body[i - 2].iteration) == ToolCall(body[i].use.tool)
          && body[i].use == Use(body[i].use.tool, w.access, w.deed(k, body[i - 2].iteration)))
    && (ComesBack(w, k, body[i]) || Returns(body[i]) ==> i + 1 < |body| && body[i + 1].Looked?)
    && (AskedFor(w, k, body, i) ==> i + 1 == |body| || body[i + 1].Called?)
    && !body[i].Acquired? && !body[i].Released?
  }

  ghost predicate Paced(w: World, k: nat, body: seq<Event>) {
    forall i :: 0 <= i < |body| ==> InPlace(w, k, body, i)
  }

  /** Nothing stands in the way of another iteration. */
  predicate Open(w: World, k: nat, body: seq<Event>) {
    body != [] ==> body[|body| - 1] == Looked(false) && !AskedFor(w, k, body, |body| - 1)
  }

  lemma PacedConcat(w: World, k: nat, a: seq<Event>, b: seq<Event>)
    requires Paced(w, k, a) && Paced(w, k, b) && Open(w, k, a)
    requires b != [] ==> b[0].Looked?
    ensures Paced(w, k, a + b)
  {
    forall i | 0 <= i < |a + b| ensures InPlace(w, k, a + b, i) {
      if i < |a| {
        assert InPlace(w, k, a, i);
      } else {
        assert InPlace(w, k, b, i - |a|);
      }
    }
  }

  // Which look is which

  /** How often the signal was looked at. */
  function Looks(trace: seq<Event>): nat {
    if trace == [] then 0 else Looks(trace[..|trace| - 1]) + if trace[|trace| - 1].Looked? then 1 else 0
  }

  /** Every look finds what the signal says at that moment. */
  ghost predicate LooksAreTrue(w: World, trace: seq<Event>) {
    forall i :: 0 <= i < |trace| && trace[i].Looked? ==> trace[i].on == w.aborted(Looks(trace[..i]))
  }

  lemma LooksSnoc(trace: seq<Event>, e: Event)
    ensures Looks(trace + [e]) == Looks(trace) + if e.Looked? then 1 else 0
  {
    assert (trace + [e])[..|trace|] == trace;
  }

  /** The looks so far are as many as were counted, and each was true. */
  ghost predicate Counted(w: World, trace: seq<Event>, checks: nat) {
    Looks(trace) == checks && LooksAreTrue(w, trace)
  }

  lemma CountedSnoc(w: World, trace: seq<Event>, checks: nat, e: Event)
    requires Counted(w, trace, checks) && (e.Looked? ==> e.on == w.aborted(checks))
    ensures Counted(w, trace + [e], if e.Looked? then checks + 1 else checks)
  {
    LooksSnoc(trace, e);
    hide Looks;
    var more := trace + [e];
    assert trace[..|trace|] == trace;
    forall i | 0 <= i < |more| && more[i].Looked? ensures more[i].on == w.aborted(Looks(more[..i])) {
      assert more[..i] == trace[..i];
    }
  }

  lemma LookIsCounted(w: World, s: Progress)
    requires Counted(w, s.trace, s.checks)
    ensures Counted(w, Look(w, s).trace, Look(w, s).checks)
  {
    CountedSnoc(w, s.trace, s.checks, Looked(w.aborted(s.checks)));
  }

  lemma ToolTurnIsCounted(w: World, k: nat, p: Provider, tool: Tool, s: Progress)
    requires Counted(w, s.trace, s.checks)
    ensures var r := ToolTurn(w, k, p, tool, s).progress; Counted(w, r.trace, r.checks)
  {
    hide Counted;
    var u := Use(tool, w.access, w.deed(k, s.iterations));
    CountedSnoc(w, s.trace, s.checks, Called(p, s.iterations, u));
    LookIsCounted(w, AfterTool(s, p, u));
  }

  lemma IterationIsCounted(w: World, k: nat, p: Provider, budget: Budget, s: Progress)
    requires Counted(w, s.trace, s.checks)
    ensures var r := Iterate(w, k, p, budget, s).progress; Counted(w, r.trace, r.checks)
  {
    hide Counted, ToolTurn;
    LookIsCounted(w, s);
    var asked := Asking(Look(w, s), p);
    CountedSnoc(w, Look(w, s).trace, Look(w, s).checks, Invoked(p, asked.iterations));
    LookIsCounted(w, asked);
    var reply := w.invoke(k, asked.iterations);
    if reply.ToolCall? {
      ToolTurnIsCounted(w, k, p, reply.tool, Look(w, asked));
    }
  }

  lemma GoesOnLater(w: World, k: nat, p: Provider, budget: Budget, s: Progress)
    ensures var r := Iterate(w, k, p, budget, s); r.GoOn? ==> r.progress.iterations == s.iterations + 1
  {
  }

  lemma {:induction false} LoopIsCounted(w: World, k: nat, p: Provider, budget: Budget, s: Progress)
    requires Counted(w, s.trace, s.checks)
    ensures var r := Loop(w, k, p, budget, s).progress; Counted(w, r.trace, r.checks)
    decreases budget.maxIterations - s.iterations
  {
    hide Counted, Iterate;
    if s.iterations < budget.maxIterations {
      IterationIsCounted(w, k, p, budget, s);
      GoesOnLater(w, k, p, budget, s);
      var r := Iterate(w, k, p, budget, s);
      if r.GoOn? {
        LoopIsCounted(w, k, p, budget, r.progress);
      }
    }
  }

  // Iterations

  /** Why an attempt ended as it did: by what happened last. */
  ghost predicate Explained(w: World, k: nat, budget: Budget, end: End, s: Progress, body: seq<Event>) {
    var n := |body|;
    match end
    case Finished(response) =>
      && n > 1 && body[n - 1] == Looked(false) && body[n - 2].Invoked?
      && w.invoke(k, body[n - 2].iteration) == Final(response)
    case BudgetExhausted =>
      && (n > 0 ==> body[n - 1] == Looked(false))
      && (s.iterations >= budget.maxIterations
          || (n > 0 && AskedFor(w, k, body, n - 1) && s.toolCalls >= budget.maxToolCalls))
    case Threw(reason) =>
      n > 0 && ((body[n - 1].Invoked? && w.invoke(k, body[n - 1].iteration) == Failed(reason))
                || (body[n - 1].Called? && body[n - 1].use.deed.raises == Error(reason)))
    case Cancelled =>
      n > 0 && (body[n - 1] == Looked(true)
                || (body[n - 1].Invoked? && w.invoke(k, body[n - 1].iteration).AbortError?)
                || (body[n - 1].Called? && body[n - 1].use.deed.raises.Abort?))
  }

  /** The last events explain the end, whatever came before. */
  lemma ExplainedByLast(w: World, k: nat, budget: Budget, end: End, s: Progress, before: seq<Event>, body: seq<Event>)
    requires Explained(w, k, budget, end, s, body) && (body != [] ==> body[0].Looked?) && Open(w, k, before)
    ensures Explained(w, k, budget, end, s, before + body)
  {
    var all := before + body;
    if |body| > 1 {
      assert all[|all| - 1] == body[|body| - 1] && all[|all| - 2] == body[|body| - 2];
    }
  }

  lemma ToolTurnPaced(w: World, k: nat, p: Provider, tool: Tool, budget: Budget, s: Progress, before: seq<Event>)
    returns (more: seq<Event>)
    requires s.trace == before + [Looked(false), Invoked(p, s.iterations), Looked(false)]
    requires w.invoke(k, s.iterations) == ToolCall(tool)
    ensures var r := ToolTurn(w, k, p, tool, s);
      && r.progress.trace == before + more && Paced(w, k, more) && more != [] && more[0].Looked?
      && (if r.Stop? then Explained(w, k, budget, r.end, r.progress, more) else Open(w, k, more))
  {
    var u := Use(tool, w.access, w.deed(k, s.iterations));
    var call := Called(p, s.iterations, u);
    more := [Looked(false), Invoked(p, s.iterations), Looked(false), call];
    assert s.trace + [call] == before + more;
    if ReplyTo(u).Returned? {
      var look := Looked(w.aborted(s.checks));
      assert before + more + [look] == before + (more + [look]);
      more := more + [look];
    }
  }

  /** An iteration is in its place, and ends the attempt for a reason or leaves it open. */
  lemma IterationPaced(w: World, k: nat, p: Provider, budget: Budget, s: Progress) returns (more: seq<Event>)
    ensures var r := Iterate(w, k, p, budget, s);
      && r.progress.trace == s.trace + more && Paced(w, k, more) && more != [] && more[0].Looked?
      && (if r.Stop? then Explained(w, k, budget, r.end, r.progress, more) else Open(w, k, more))
  {
    var first := Looked(w.aborted(s.checks));
    more := [first];
    if !first.on {
      var asked := Asking(Look(w, s), p);
      var e := Invoked(p, asked.iterations);
      more := [first, e];
      assert s.trace + [first] + [e] == s.trace + more;
      var reply := w.invoke(k, asked.iterations);
      if !reply.AbortError? && !reply.Failed? {
        var second := Looked(w.aborted(asked.checks));
        more := [first, e, second];
        assert asked.trace + [second] == s.trace + more;
        if reply.ToolCall? && !second.on && s.toolCalls < budget.maxToolCalls {
          more := ToolTurnPaced(w, k, p, reply.tool, budget, Look(w, asked), s.trace);
        }
      }
    }
  }

  /**
   Everything an attempt does is in its place: no invocation and no call without a look just before it
   that found the signal off, and nothing after a look that found it on. How the attempt ends is
   explained by what happened last.
   */
  lemma {:induction false} LoopPaced(w: World, k: nat, p: Provider, budget: Budget, s: Progress)
    returns (more: seq<Event>)
    ensures var r := Loop(w, k, p, budget, s);
      && r.progress.trace == s.trace + more && Paced(w, k, more) && (more != [] ==> more[0].Looked?)
      && Explained(w, k, budget, r.end, r.progress, more)
    decreases budget.maxIterations - s.iterations
  {
    more := [];
    if s.iterations < budget.maxIterations {
      var r := Iterate(w, k, p, budget, s);
      more := IterationPaced(w, k, p, budget, s);
      GoesOnLater(w, k, p, budget, s);
      hide Iterate, Paced, Explained, Open;
      if r.GoOn? {
        var rest := LoopPaced(w, k, p, budget, r.progress);
        var end := Loop(w, k, p, budget, r.progress);
        PacedConcat(w, k, more, rest);
        ExplainedByLast(w, k, budget, end.end, end.progress, more, rest);
        assert s.trace + more + rest == s.trace + (more + rest);
        more := more + rest;
      }
    }
  }

  // A whole turn

  /** What is done only after a look: acquiring a provider, invoking it, and calling a tool. */
  predicate NeedsLook(e: Event) {
    e.Acquired? || e.Invoked? || e.Called?
  }

  predicate AfterLook(trace: seq<Event>, i: nat)
    requires i < |trace|
  {
    NeedsLook(trace[i]) ==> i > 0 && trace[i - 1] == Looked(false)
  }

  /** Nothing but the return of the lease follows a look that found the signal on. */
  predicate OverAfter(trace: seq<Event>, i: nat)
    requires i < |trace|
  {
    trace[i] == Looked(true) ==> i + 1 == |trace| || (i + 2 == |trace| && trace[i + 1].Released?)
  }

  ghost predicate Ordered(trace: seq<Event>) {
    forall i :: 0 <= i < |trace| ==> AfterLook(trace, i) && OverAfter(trace, i)
  }

  /** Nothing was found on so far. */
  predicate NeverOn(trace: seq<Event>) {
    forall i :: 0 <= i < |trace| ==> trace[i] != Looked(true)
  }

  lemma InBlock(w: World, k: nat, a: Attempt, i: nat)
    requires Paced(w, k, a.body) && i < |Block(a)|
    ensures AfterLook(Block(a), i) && OverAfter(Block(a), i)
    ensures Block(a)[i] == Looked(true) ==> a.body != [] && a.body[|a.body| - 1] == Looked(true)
  {
    var block := Block(a);
    if 2 <= i < |a.body| + 2 {
      assert InPlace(w, k, a.body, i - 2) && block[i] == a.body[i - 2];
      assert i > 2 ==> block[i - 1] == a.body[i - 3];
    }
  }

  /** An attempt as a whole is in order, and found the signal on at the end of its body if at all. */
  lemma BlockOrdered(w: World, k: nat, a: Attempt)
    requires Paced(w, k, a.body)
    ensures Ordered(Block(a))
    ensures a.body == [] || a.body[|a.body| - 1] != Looked(true) ==> NeverOn(Block(a))
  {
    forall i | 0 <= i < |Block(a)|
      ensures AfterLook(Block(a), i) && OverAfter(Block(a), i)
      ensures Block(a)[i] == Looked(true) ==> a.body != [] && a.body[|a.body| - 1] == Looked(true)
    {
      InBlock(w, k, a, i);
    }
  }

  lemma OrderedConcat(a: seq<Event>, b: seq<Event>)
    requires Ordered(a) && NeverOn(a) && Ordered(b)
    ensures Ordered(a + b) && (NeverOn(b) ==> NeverOn(a + b))
  {
    forall i | 0 <= i < |a + b| ensures AfterLook(a + b, i) && OverAfter(a + b, i) {
      if i < |a| {
        assert AfterLook(a, i) && (a + b)[i] == a[i];
      } else {
        assert AfterLook(b, i - |a|) && OverAfter(b, i - |a|);
      }
    }
  }

  /** An attempt of a turn: in order, and the turn goes on only if the signal was never found on. */
  lemma TryOrdered(w: World, budget: Budget, t: Turn) returns (more: seq<Event>)
    ensures var next := TryNext(w, budget, t);
      && next.turn.trace == t.trace + more && Ordered(more)
      && (if next.FallsBack? || !next.outcome.Aborted? then NeverOn(more) else AbortedFor(w, t.attempts, more))
  {
    more := [Looked(w.aborted(t.checks))];
    if !w.aborted(t.checks) && w.acquire(t.attempts, t.excluded).Some? {
      var p := w.acquire(t.attempts, t.excluded).value;
      var body := LoopPaced(w, t.attempts, p, budget, Beginning(w, t, p));
      hide Loop;
      var a := Attempt(p, body);
      more := Block(a);
      BlockOrdered(w, t.attempts, a);
      BlockAfter(t.trace, a);
    }
  }

  /** A turn is aborted for a look that found the signal on, or an abort that was raised in the attempt. */
  ghost predicate AbortedFor(w: World, k: nat, more: seq<Event>) {
    var n := |more|;
    || (n > 0 && more[n - 1] == Looked(true))
    || (n > 1 && more[n - 1].Released?
        && (more[n - 2] == Looked(true)
            || (more[n - 2].Invoked? && w.invoke(k, more[n - 2].iteration).AbortError?)
            || (more[n - 2].Called? && more[n - 2].use.deed.raises.Abort?)))
  }

  /**
   A whole turn, whatever providers, tools and the user do: providers are acquired and invoked, and tools
   called, only right after a look that found the signal off; a look that finds it on is the last thing
   done but for the return of the lease, and the turn is aborted; a turn is aborted for nothing else but
   an abort raised by an invocation or a tool; and every look finds what the signal says by then.
   */
  lemma {:induction false} CancellationIsHeeded(w: World, budget: Budget, known: set<Provider>, t: Turn)
    requires Grants(w, known) && Ordered(t.trace) && NeverOn(t.trace) && Counted(w, t.trace, t.checks)
    ensures var r := Synthesize(w, budget, known, t);
      && Ordered(r.turn.trace) && LooksAreTrue(w, r.turn.trace)
      && (!NeverOn(r.turn.trace) ==> r.outcome.Aborted?)
      && (r.outcome.Aborted? ==> exists k :: AbortedFor(w, k, r.turn.trace))
    decreases |known - t.excluded|
  {
    var next := TryNext(w, budget, t);
    var more := TryOrdered(w, budget, t);
    OrderedConcat(t.trace, more);
    TryIsCounted(w, budget, t);
    if next.FallsBack? {
      FewerLeft(known, t.excluded, next.provider);
      hide TryNext;
      CancellationIsHeeded(w, budget, known, next.turn);
    } else if next.outcome.Aborted? {
      AbortedAfter(w, t.attempts, t.trace, more);
    }
  }

  lemma AbortedAfter(w: World, k: nat, before: seq<Event>, more: seq<Event>)
    requires AbortedFor(w, k, more)
    ensures AbortedFor(w, k, before + more)
  {
  }

  lemma TryIsCounted(w: World, budget: Budget, t: Turn)
    requires Counted(w, t.trace, t.checks)
    ensures var r := TryNext(w, budget, t).turn; Counted(w, r.trace, r.checks)
  {
    hide Counted, Loop;
    CountedSnoc(w, t.trace, t.checks, Looked(w.aborted(t.checks)));
    if !w.aborted(t.checks) && w.acquire(t.attempts, t.excluded).Some? {
      var p := w.acquire(t.attempts, t.excluded).value;
      CountedSnoc(w, LookAgain(w, t).trace, t.checks + 1, Acquired(p));
      LoopIsCounted(w, t.attempts, p, budget, Beginning(w, t, p));
      var r := Loop(w, t.attempts, p, budget, Beginning(w, t, p)).progress;
      CountedSnoc(w, r.trace, r.checks, Released(p));
    }
  }

  /** Between an invocation and the tool call it asks for there is a look that found the signal off. */
  lemma NoToolAfterCancel(w: World, budget: Budget, known: set<Provider>, i: nat)
    requires Grants(w, known)
    requires var trace := Synthesize(w, budget, known, START).turn.trace; i < |trace| && trace[i].Called?
    ensures var trace := Synthesize(w, budget, known, START).turn.trace;
      i > 0 && trace[i - 1] == Looked(false) && !w.aborted(Looks(trace[..i - 1]))
  {
    CancellationIsHeeded(w, budget, known, START);
    var trace := Synthesize(w, budget, known, START).turn.trace;
    hide Synthesize;
    assert AfterLook(trace, i);
  }

  // What the user is told

  /** The last thing of attempt `k` failed with this reason. */
  predicate Throws(w: World, k: nat, e: Event, reason: string) {
    || (e.Invoked? && w.invoke(k, e.iteration) == Failed(reason))
    || (e.Called? && e.use.deed.raises == Error(reason))
  }

  /** Attempt `k`, which ends with the event before `i`, failed with this reason. */
  predicate FailedAt(w: World, k: nat, trace: seq<Event>, i: int, failure: (Provider, string)) {
    0 < i < |trace| && trace[i] == Released(failure.0) && Throws(w, k, trace[i - 1], failure.1)
  }

  ghost predicate FailureTold(w: World, k: nat, trace: seq<Event>, failure: (Provider, string)) {
    exists i :: FailedAt(w, k, trace, i, failure)
  }

  ghost predicate FailuresTold(w: World, trace: seq<Event>, failures: seq<(Provider, string)>) {
    forall k :: 0 <= k < |failures| ==> FailureTold(w, k, trace, failures[k])
  }

  /** What the outcome says of the attempt that ended the turn, if one did. */
  ghost predicate OutcomeTold(w: World, k: nat, trace: seq<Event>, outcome: Outcome) {
    match outcome
    case Answered(p, Finished(response), _) =>
      && |trace| > 2 && trace[|trace| - 1] == Released(p) && trace[|trace| - 3].Invoked?
      && w.invoke(k, trace[|trace| - 3].iteration) == Final(response)
    case Partial(p, reason) => FailedAt(w, k, trace, |trace| - 1, (p, reason))
    case _ => true
  }

  lemma TryTells(w: World, budget: Budget, t: Turn) returns (more: seq<Event>)
    ensures var next := TryNext(w, budget, t);
      && next.turn.trace == t.trace + more
      && (next.FallsBack? ==>
            && next.turn.attempts == t.attempts + 1 && |next.turn.failures| == |t.failures| + 1
            && next.turn.failures[..|t.failures|] == t.failures
            && FailedAt(w, t.attempts, more, |more| - 1, next.turn.failures[|t.failures|]))
      && (next.Ends? ==> OutcomeTold(w, t.attempts, more, next.outcome))
      && (next.Ends? && next.outcome.NoProvider? ==> next.outcome.failures == t.failures)
  {
    more := [Looked(w.aborted(t.checks))];
    if !w.aborted(t.checks) && w.acquire(t.attempts, t.excluded).Some? {
      var p := w.acquire(t.attempts, t.excluded).value;
      var body := LoopPaced(w, t.attempts, p, budget, Beginning(w, t, p));
      hide Loop, Paced;
      more := Block(Attempt(p, body));
      BlockAfter(t.trace, Attempt(p, body));
    }
  }

  lemma ToldLater(w: World, k: nat, before: seq<Event>, more: seq<Event>, outcome: Outcome)
    requires OutcomeTold(w, k, more, outcome)
    ensures OutcomeTold(w, k, before + more, outcome)
  {
    var all := before + more;
    if |more| > 2 {
      assert all[|all| - 1] == more[|more| - 1] && all[|all| - 2] == more[|more| - 2];
      assert all[|all| - 3] == more[|more| - 3];
    }
    if outcome.Partial? {
      FailedLater(w, k, before, more, |more| - 1, (outcome.provider, outcome.reason));
    }
  }

  lemma FailedLater(w: World, k: nat, before: seq<Event>, more: seq<Event>, i: int, failure: (Provider, string))
    requires FailedAt(w, k, more, i, failure)
    ensures FailedAt(w, k, before + more, |before| + i, failure)
  {
  }

  lemma FailuresToldLater(w: World, trace: seq<Event>, failures: seq<(Provider, string)>, more: seq<Event>)
    requires FailuresTold(w, trace, failures)
    ensures FailuresTold(w, trace + more, failures)
  {
    forall k | 0 <= k < |failures| ensures FailureTold(w, k, trace + more, failures[k]) {
      assert FailureTold(w, k, trace, failures[k]);
      var i :| FailedAt(w, k, trace, i, failures[k]);
      assert FailedAt(w, k, trace + more, i, failures[k]);
    }
  }

  lemma OneMoreFailure(w: World, before: seq<Event>, more: seq<Event>, was: seq<(Provider, string)>,
                       failures: seq<(Provider, string)>)
    requires FailuresTold(w, before, was) && |failures| == |was| + 1 && failures[..|was|] == was
    requires FailedAt(w, |was|, more, |more| - 1, failures[|was|])
    ensures FailuresTold(w, before + more, failures)
  {
    FailuresToldLater(w, before, was, more);
    FailedLater(w, |was|, before, more, |more| - 1, failures[|was|]);
    hide FailedAt;
    assert FailureTold(w, |was|, before + more, failures[|was|]);
    forall k | 0 <= k < |was| ensures FailureTold(w, k, before + more, failures[k]) {
      assert failures[k] == failures[..|was|][k] == was[k];
    }
  }

  /**
   The user is told the truth: a failed attempt's reason is the one its provider or its tool gave, in
   the order of the attempts; an answer is the final reply of the last invocation.
   */
  lemma {:induction false} UserIsTold(w: World, budget: Budget, known: set<Provider>, t: Turn)
    requires Grants(w, known) && FailuresTold(w, t.trace, t.failures) && |t.failures| == t.attempts
    ensures var r := Synthesize(w, budget, known, t);
      && (r.outcome.NoProvider? ==> FailuresTold(w, r.turn.trace, r.outcome.failures))
      && exists k :: OutcomeTold(w, k, r.turn.trace, r.outcome)
    decreases |known - t.excluded|
  {
    var next := TryNext(w, budget, t);
    var more := TryTells(w, budget, t);
    if next.FallsBack? {
      FewerLeft(known, t.excluded, next.provider);
      hide TryNext, FailedAt;
      OneMoreFailure(w, t.trace, more, t.failures, next.turn.failures);
      UserIsTold(w, budget, known, next.turn);
    } else {
      hide TryNext, FailuresTold;
      ToldLater(w, t.attempts, t.trace, more, next.outcome);
      FailuresToldLater(w, t.trace, t.failures, more);
    }
  }
}
