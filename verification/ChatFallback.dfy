/**
 One chat turn on the automatic path: the agent loop of src/chat/agent-loop.ts, and the fallback
 over providers around it in src/chat/service.ts. What providers, tools and the user's cancel
 button do is an arbitrary function of the attempt and the iteration, so a statement about every
 world is a statement about every run.
 */
module ChatFallback {
  import opened Basics
  import opened RoutingPolicy
  import opened ChatTools

  /** What an invocation came back with, after parsing; or the error it raised. */
  datatype Reply = Invalid | Final(response: string) | ToolCall(tool: Tool) | Failed(reason: string) | AbortError

  datatype World = World(
    acquire: (nat, set<Provider>) -> Option<Provider>,
    invoke: (nat, nat) -> Reply,
    access: Access,
    deed: (nat, nat) -> Deed,
    aborted: nat -> bool)

  /** What happens in a turn, looks at the cancel signal included. */
  datatype Event =
    | Looked(on: bool)
    | Acquired(provider: Provider)
    | Invoked(provider: Provider, iteration: nat)
    | Called(provider: Provider, iteration: nat, use: Use)
    | Released(provider: Provider)

  datatype Budget = Budget(maxIterations: nat, maxToolCalls: nat)

  function Clamp(low: int, high: int, x: int): int {
    if high < x then (if low < high then high else low) else if low < x then x else low
  }

  /** At least one iteration and at most 128; at most 256 tool calls. */
  function NormalizeBudget(maxIterations: real, maxToolCalls: real): (b: Budget)
    ensures 1 <= b.maxIterations <= 128 && b.maxToolCalls <= 256
    ensures 1.0 <= maxIterations <= 128.0 ==> b.maxIterations as real <= maxIterations < b.maxIterations as real + 1.0
    ensures 0.0 <= maxToolCalls <= 256.0 ==> b.maxToolCalls as real <= maxToolCalls < b.maxToolCalls as real + 1.0
  {
    Budget(Clamp(1, 128, maxIterations.Floor), Clamp(0, 256, maxToolCalls.Floor))
  }

  // The agent loop

  /**
   The variables of an attempt. `committed` is the loop's own flag, `reported` the one the caller
   sets as soon as a tool returns; `checks` counts the looks at the abort signal.
   */
  datatype Progress = Progress(iterations: nat, toolCalls: nat, toolsUsed: seq<Tool>,
                               committed: bool, reported: bool, checks: nat, trace: seq<Event>)

  datatype End = Finished(response: string) | BudgetExhausted | Threw(reason: string) | Cancelled

  datatype LoopResult = LoopResult(end: End, progress: Progress)

  function Fresh(checks: nat, trace: seq<Event>): Progress {
    Progress(0, 0, [], false, false, checks, trace)
  }

  /** A look at the cancel signal. */
  function Look(w: World, s: Progress): Progress {
    s.(checks := s.checks + 1, trace := s.trace + [Looked(w.aborted(s.checks))])
  }

  function AfterTool(s: Progress, p: Provider, u: Use): Progress {
    s.(toolCalls := s.toolCalls + 1, toolsUsed := s.toolsUsed + [u.tool],
       trace := s.trace + [Called(p, s.iterations, u)], reported := s.reported || ChatTools.Commits(u))
  }

  /** One iteration of the loop: it ends the attempt, or goes on. */
  datatype Iteration = Stop(end: End, progress: Progress) | GoOn(progress: Progress)

  function ToolTurn(w: World, k: nat, p: Provider, tool: Tool, s: Progress): Iteration {
    var u := Use(tool, w.access, w.deed(k, s.iterations));
    var called := AfterTool(s, p, u);
    match ReplyTo(u)
    case RaisedAbort => Stop(Cancelled, called)
    case Raised(reason) => Stop(Threw(reason), called)
    case Returned(committed) =>
      var checked := Look(w, called);
      if w.aborted(called.checks) then Stop(Cancelled, checked)
      else GoOn(checked.(committed := checked.committed || committed))
  }

  /** The provider is invoked. */
  function Asking(s: Progress, p: Provider): Progress {
    var i := s.iterations + 1;
    s.(iterations := i, trace := s.trace + [Invoked(p, i)])
  }

  function Iterate(w: World, k: nat, p: Provider, budget: Budget, s: Progress): Iteration {
    if w.aborted(s.checks) then Stop(Cancelled, Look(w, s))
    else
      var asked := Asking(Look(w, s), p);
      var reply := w.invoke(k, asked.iterations);
      if reply.AbortError? then Stop(Cancelled, asked)
      else if reply.Failed? then Stop(Threw(reply.reason), asked)
      else
        var heard := Look(w, asked);
        if w.aborted(asked.checks) then Stop(Cancelled, heard)
        else if reply.Invalid? then GoOn(heard)
        else if reply.Final? then Stop(Finished(reply.response), heard)
        else if heard.toolCalls >= budget.maxToolCalls then Stop(BudgetExhausted, heard)
        else ToolTurn(w, k, p, reply.tool, heard)
  }

  function Loop(w: World, k: nat, p: Provider, budget: Budget, s: Progress): LoopResult
    decreases budget.maxIterations - s.iterations
  {
    if s.iterations >= budget.maxIterations then LoopResult(BudgetExhausted, s)
    else
      match Iterate(w, k, p, budget, s)
      case Stop(end, progress) => LoopResult(end, progress)
      case GoOn(progress) => Loop(w, k, p, budget, progress)
  }

  function Invocations(trace: seq<Event>): nat {
    if trace == [] then 0 else Invocations(trace[..|trace| - 1]) + if trace[|trace| - 1].Invoked? then 1 else 0
  }

  /** The tools that were called, in order. */
  function ToolsIn(trace: seq<Event>): seq<Tool> {
    if trace == [] then []
    else
      var before, last := ToolsIn(trace[..|trace| - 1]), trace[|trace| - 1];
      if last.Called? then before + [last.use.tool] else before
  }

  function Calls(trace: seq<Event>): nat {
    |ToolsIn(trace)|
  }

  predicate Commits(e: Event) {
    e.Called? && ChatTools.Commits(e.use)
  }

  ghost predicate SomeCommit(trace: seq<Event>) {
    exists e :: e in trace && Commits(e)
  }

  lemma {:induction false} CountsAdd(a: seq<Event>, b: seq<Event>)
    ensures Invocations(a + b) == Invocations(a) + Invocations(b) && Calls(a + b) == Calls(a) + Calls(b)
  {
    if b == [] {
      assert a + b == a;
    } else {
      CountsAdd(a, b[..|b| - 1]);
      assert (a + b)[..|a + b| - 1] == a + b[..|b| - 1];
    }
  }

  /** What an attempt may do: look at the signal, invoke its provider and call tools for it. */
  ghost predicate OnlyBy(body: seq<Event>, p: Provider) {
    forall e :: e in body ==> Belongs(e, p)
  }

  predicate Belongs(e: Event, p: Provider) {
    e.Looked? || ((e.Invoked? || e.Called?) && e.provider == p)
  }

  /** The attempt's variables say what its trace says. */
  ghost predicate Accounts(s: Progress, body: seq<Event>, p: Provider) {
    && OnlyBy(body, p)
    && s.iterations == Invocations(body) && s.toolsUsed == ToolsIn(body) && s.toolCalls == Calls(body)
    && (s.reported <==> SomeCommit(body))
  }

  lemma AccountsStep(s: Progress, body: seq<Event>, p: Provider, e: Event, after: Progress)
    requires Accounts(s, body, p) && Belongs(e, p)
    requires after.iterations == s.iterations + (if e.Invoked? then 1 else 0)
    requires after.toolsUsed == (if e.Called? then s.toolsUsed + [e.use.tool] else s.toolsUsed)
    requires after.toolCalls == |after.toolsUsed|
    requires after.reported == (s.reported || Commits(e))
    ensures Accounts(after, body + [e], p)
  {
    assert (body + [e])[..|body|] == body;
    assert forall x :: x in body + [e] <==> x in body || x == e;
    if SomeCommit(body) {
      var x :| x in body && Commits(x);
      assert x in body + [e];
    }
  }

  /** An attempt that goes on. */
  predicate Within(s: Progress, budget: Budget) {
    && s.iterations <= budget.maxIterations && s.toolCalls <= budget.maxToolCalls && s.toolCalls <= s.iterations
    && s.committed == s.reported
  }

  /** How an attempt may end. */
  predicate Ended(end: End, s: Progress, budget: Budget) {
    && s.iterations <= budget.maxIterations && s.toolCalls <= budget.maxToolCalls && s.toolCalls <= s.iterations
    && (end == BudgetExhausted ==> s.iterations == budget.maxIterations || s.toolCalls == budget.maxToolCalls)
    && (end.Finished? || end == BudgetExhausted ==> s.committed == s.reported)
  }

  lemma LookAccounts(w: World, s: Progress, p: Provider, before: seq<Event>, body: seq<Event>)
    returns (more: seq<Event>)
    requires s.trace == before + body && Accounts(s, body, p)
    ensures Look(w, s).trace == before + more && Accounts(Look(w, s), more, p)
  {
    var e := Looked(w.aborted(s.checks));
    more := body + [e];
    AccountsStep(s, body, p, e, Look(w, s));
    assert Look(w, s).trace == before + more;
  }

  lemma ToolTurnAccounts(w: World, k: nat, p: Provider, tool: Tool, s: Progress, before: seq<Event>, body: seq<Event>)
    returns (more: seq<Event>)
    requires s.trace == before + body && Accounts(s, body, p)
    ensures var r := ToolTurn(w, k, p, tool, s).progress;
      && r.trace == before + more && Accounts(r, more, p)
      && r.iterations == s.iterations && r.toolCalls == s.toolCalls + 1
    ensures var r := ToolTurn(w, k, p, tool, s);
      r.GoOn? && s.committed == s.reported ==> r.progress.committed == r.progress.reported
  {
    var u := Use(tool, w.access, w.deed(k, s.iterations));
    var e := Called(p, s.iterations, u);
    more := body + [e];
    AccountsStep(s, body, p, e, AfterTool(s, p, u));
    assert AfterTool(s, p, u).trace == before + more;
    if ReplyTo(u).Returned? {
      more := LookAccounts(w, AfterTool(s, p, u), p, before, more);
    }
  }

  lemma AskingAccounts(s: Progress, p: Provider, before: seq<Event>, body: seq<Event>) returns (more: seq<Event>)
    requires s.trace == before + body && Accounts(s, body, p)
    ensures Asking(s, p).trace == before + more && Accounts(Asking(s, p), more, p)
  {
    var e := Invoked(p, s.iterations + 1);
    more := body + [e];
    AccountsStep(s, body, p, e, Asking(s, p));
    assert Asking(s, p).trace == before + more;
  }

  lemma IterationAccounts(w: World, k: nat, p: Provider, budget: Budget, s: Progress, before: seq<Event>,
                          body: seq<Event>)
    returns (more: seq<Event>)
    requires s.trace == before + body && Accounts(s, body, p) && Within(s, budget)
    requires s.iterations < budget.maxIterations
    ensures var r := Iterate(w, k, p, budget, s);
      && r.progress.trace == before + more && Accounts(r.progress, more, p)
      && (if r.Stop? then Ended(r.end, r.progress, budget) else Within(r.progress, budget))
  {
    more := LookAccounts(w, s, p, before, body);
    if !w.aborted(s.checks) {
      more := AskingAccounts(Look(w, s), p, before, more);
      var asked := Asking(Look(w, s), p);
      var reply := w.invoke(k, asked.iterations);
      if !reply.AbortError? && !reply.Failed? {
        more := LookAccounts(w, asked, p, before, more);
        var heard := Look(w, asked);
        if reply.ToolCall? && !w.aborted(asked.checks) && s.toolCalls < budget.maxToolCalls {
          more := ToolTurnAccounts(w, k, p, reply.tool, heard, before, more);
          assert Iterate(w, k, p, budget, s) == ToolTurn(w, k, p, reply.tool, heard);
        }
      }
    }
  }

  /**
   An attempt stays within its budget, whatever the provider and the tools do; its counters and
   flags are what its trace says, and its result reports a committed mutation exactly when a tool
   of this attempt committed one.
   */
  lemma {:induction false} LoopAccounts(w: World, k: nat, p: Provider, budget: Budget, s: Progress,
                                        before: seq<Event>, body: seq<Event>) returns (more: seq<Event>)
    requires s.trace == before + body && Accounts(s, body, p) && Within(s, budget)
    ensures var r := Loop(w, k, p, budget, s);
      r.progress.trace == before + more && Accounts(r.progress, more, p) && Ended(r.end, r.progress, budget)
    decreases budget.maxIterations - s.iterations
  {
    more := body;
    if s.iterations < budget.maxIterations {
      more := IterationAccounts(w, k, p, budget, s, before, body);
      var r := Iterate(w, k, p, budget, s);
      if r.GoOn? {
        more := LoopAccounts(w, k, p, budget, r.progress, before, more);
      }
    }
  }

  // The fallback over providers

  datatype Turn = Turn(excluded: set<Provider>, failures: seq<(Provider, string)>, attempts: nat, checks: nat,
                       trace: seq<Event>)

  const START := Turn({}, [], 0, 0, [])

  datatype Outcome =
    | Answered(provider: Provider, end: End, result: Progress)
    | Partial(provider: Provider, reason: string)
    | NoProvider(failures: seq<(Provider, string)>)
    | Aborted

  datatype TurnResult = TurnResult(outcome: Outcome, turn: Turn)

  /** The registry grants known providers only, and none that is excluded. */
  ghost predicate Grants(w: World, known: set<Provider>) {
    forall k, excluded :: w.acquire(k, excluded).Some? ==> w.acquire(k, excluded).value in known - excluded
  }

  /** The look before an acquisition. */
  function LookAgain(w: World, t: Turn): Turn {
    t.(checks := t.checks + 1, trace := t.trace + [Looked(w.aborted(t.checks))])
  }

  /** An attempt begins. */
  function Beginning(w: World, t: Turn, p: Provider): Progress {
    Fresh(t.checks + 1, LookAgain(w, t).trace + [Acquired(p)])
  }

  function AfterAttempt(t: Turn, p: Provider, s: Progress): Turn {
    t.(attempts := t.attempts + 1, checks := s.checks, trace := s.trace + [Released(p)])
  }

  function AfterFailure(t: Turn, p: Provider, reason: string): Turn {
    t.(excluded := t.excluded + {p}, failures := t.failures + [(p, reason)])
  }

  /** One attempt: it ends the turn, or falls back to the providers that are left. */
  datatype Try = Ends(outcome: Outcome, turn: Turn) | FallsBack(provider: Provider, turn: Turn)

  function Tried(t: Turn, p: Provider, r: LoopResult): Try {
    var after := AfterAttempt(t, p, r.progress);
    match r.end
    case Cancelled => Ends(Aborted, after)
    case Threw(reason) =>
      if r.progress.reported then Ends(Partial(p, reason), after) else FallsBack(p, AfterFailure(after, p, reason))
    case _ => Ends(Answered(p, r.end, r.progress), after)
  }

  function TryNext(w: World, budget: Budget, t: Turn): Try {
    if w.aborted(t.checks) then Ends(Aborted, LookAgain(w, t))
    else
      match w.acquire(t.attempts, t.excluded)
      case None => Ends(NoProvider(t.failures), LookAgain(w, t))
      case Some(p) => Tried(t, p, Loop(w, t.attempts, p, budget, Beginning(w, t, p)))
  }

  ghost function Synthesize(w: World, budget: Budget, known: set<Provider>, t: Turn): TurnResult
    requires Grants(w, known)
    decreases |known - t.excluded|
  {
    match TryNext(w, budget, t)
    case Ends(outcome, turn) => TurnResult(outcome, turn)
    case FallsBack(p, turn) =>
      FewerLeft(known, t.excluded, p);
      Synthesize(w, budget, known, turn)
  }

  lemma FewerLeft(known: set<Provider>, excluded: set<Provider>, p: Provider)
    requires p in known - excluded
    ensures |known - (excluded + {p})| < |known - excluded|
  {
    assert known - (excluded + {p}) == (known - excluded) - {p};
  }

  /**
   An attempt as a whole: one lease, taken after a look that found the signal off, and returned after
   everything done under it.
   */
  datatype Attempt = Attempt(provider: Provider, body: seq<Event>)

  function Block(a: Attempt): seq<Event> {
    [Looked(false), Acquired(a.provider)] + a.body + [Released(a.provider)]
  }

  function Flat(attempts: seq<Attempt>): seq<Event> {
    if attempts == [] then [] else Flat(attempts[..|attempts| - 1]) + Block(attempts[|attempts| - 1])
  }

  ghost predicate WithinBudget(a: Attempt, budget: Budget) {
    OnlyBy(a.body, a.provider) && Invocations(a.body) <= budget.maxIterations && Calls(a.body) <= budget.maxToolCalls
  }

  /** Attempts of distinct known providers, each within budget, and only the last may commit. */
  ghost predicate WellFormed(attempts: seq<Attempt>, known: set<Provider>, budget: Budget) {
    && (forall k :: 0 <= k < |attempts| ==> attempts[k].provider in known && WithinBudget(attempts[k], budget))
    && (forall j, k :: 0 <= j < k < |attempts| ==> attempts[j].provider != attempts[k].provider)
    && (forall k :: 0 <= k < |attempts| - 1 ==> !SomeCommit(attempts[k].body))
  }

  /** The failures so far are those of the excluded providers, one for each attempt, none of which committed. */
  ghost predicate Failing(t: Turn, attempts: seq<Attempt>) {
    && t.trace == Flat(attempts) && t.attempts == |attempts| == |t.failures|
    && (forall k :: 0 <= k < |attempts| ==> t.failures[k].0 == attempts[k].provider && !SomeCommit(attempts[k].body))
    && (forall p :: p in t.excluded <==> exists k :: 0 <= k < |attempts| && attempts[k].provider == p)
  }

  /** What the user is told about the attempts that were made. */
  ghost predicate Told(outcome: Outcome, attempts: seq<Attempt>) {
    match outcome
    case Answered(p, end, result) =>
      attempts != [] && p == attempts[|attempts| - 1].provider
      && (end.Finished? || end == BudgetExhausted)
      && (result.committed <==> SomeCommit(attempts[|attempts| - 1].body))
      && result.iterations == Invocations(attempts[|attempts| - 1].body)
      && result.toolsUsed == ToolsIn(attempts[|attempts| - 1].body)
    case Partial(p, _) =>
      attempts != [] && p == attempts[|attempts| - 1].provider && SomeCommit(attempts[|attempts| - 1].body)
    case NoProvider(failures) =>
      |failures| == |attempts|
      && forall k :: 0 <= k < |attempts| ==> failures[k].0 == attempts[k].provider && !SomeCommit(attempts[k].body)
    case Aborted => true
  }

  lemma OneMoreAttempt(attempts: seq<Attempt>, a: Attempt)
    ensures Flat(attempts + [a]) == Flat(attempts) + Block(a)
  {
    assert (attempts + [a])[..|attempts|] == attempts;
  }

  lemma BlockAfter(before: seq<Event>, a: Attempt)
    ensures before + [Looked(false)] + [Acquired(a.provider)] + a.body + [Released(a.provider)] == before + Block(a)
  {
  }

  lemma AttemptRuns(w: World, known: set<Provider>, budget: Budget, t: Turn, p: Provider, attempts: seq<Attempt>)
    returns (a: Attempt)
    requires WellFormed(attempts, known, budget) && Failing(t, attempts) && p in known - t.excluded
    requires !w.aborted(t.checks)
    ensures var r := Loop(w, t.attempts, p, budget, Beginning(w, t, p));
      && a.provider == p && AfterAttempt(t, p, r.progress).trace == Flat(attempts + [a])
      && WellFormed(attempts + [a], known, budget)
      && Accounts(r.progress, a.body, p) && Ended(r.end, r.progress, budget)
  {
    var start := Beginning(w, t, p);
    assert start.trace == start.trace + [];
    var body := LoopAccounts(w, t.attempts, p, budget, start, start.trace, []);
    a := Attempt(p, body);
    OneMoreAttempt(attempts, a);
    BlockAfter(t.trace, a);
    var all := attempts + [a];
    forall j, k | 0 <= j < k < |all| ensures all[j].provider != all[k].provider && !SomeCommit(all[j].body) {
      if k == |attempts| {
        assert attempts[j].provider in t.excluded;
      }
    }
  }

  lemma TriedAccounts(t: Turn, attempts: seq<Attempt>, a: Attempt, r: LoopResult, budget: Budget)
    requires Failing(t, attempts) && AfterAttempt(t, a.provider, r.progress).trace == Flat(attempts + [a])
    requires Accounts(r.progress, a.body, a.provider) && Ended(r.end, r.progress, budget)
    ensures var next := Tried(t, a.provider, r);
      if next.Ends? then next.turn.trace == Flat(attempts + [a]) && Told(next.outcome, attempts + [a])
      else Failing(next.turn, attempts + [a])
  {
    if r.end.Threw? && !r.progress.reported {
      FailedAttempt(t, a.provider, r.progress, r.end.reason, attempts, a);
    }
  }

  lemma NobodyTried(w: World, budget: Budget, t: Turn, attempts: seq<Attempt>)
    requires Failing(t, attempts) && (w.aborted(t.checks) || w.acquire(t.attempts, t.excluded).None?)
    ensures var next := TryNext(w, budget, t);
      && next.Ends? && next.turn.trace == Flat(attempts) + [Looked(w.aborted(t.checks))]
      && Told(next.outcome, attempts)
  {
  }

  /** What a turn may end with outside an attempt: a look. */
  predicate IsTail(tail: seq<Event>) {
    |tail| <= 1 && (tail != [] ==> tail[0].Looked?)
  }

  lemma TryAccounts(w: World, known: set<Provider>, budget: Budget, t: Turn, attempts: seq<Attempt>)
    returns (all: seq<Attempt>, tail: seq<Event>)
    requires Grants(w, known) && WellFormed(attempts, known, budget) && Failing(t, attempts)
    ensures WellFormed(all, known, budget) && IsTail(tail)
    ensures var next := TryNext(w, budget, t);
      if next.Ends? then next.turn.trace == Flat(all) + tail && Told(next.outcome, all) else Failing(next.turn, all)
  {
    if w.aborted(t.checks) || w.acquire(t.attempts, t.excluded).None? {
      NobodyTried(w, budget, t, attempts);
      all, tail := attempts, [Looked(w.aborted(t.checks))];
    } else {
      var p := w.acquire(t.attempts, t.excluded).value;
      var a := AttemptRuns(w, known, budget, t, p, attempts);
      all, tail := attempts + [a], [];
      var r := Loop(w, t.attempts, p, budget, Beginning(w, t, p));
      TriedAccounts(t, attempts, a, r, budget);
      assert TryNext(w, budget, t) == Tried(t, a.provider, r);
      assert Flat(all) + [] == Flat(all);
    }
  }

  /**
   No reported mutation is replayed through a second provider. A chat turn is a sequence of attempts by
   distinct providers, each under one lease that is released once, each within budget; and if any
   tool reported a committed mutation, it did so in the last attempt, after which nobody else is asked.
   */
  lemma {:induction false} NoReportedCommitIsReplayed(w: World, budget: Budget, known: set<Provider>, t: Turn,
                                                      attempts: seq<Attempt>)
    returns (all: seq<Attempt>, tail: seq<Event>)
    requires Grants(w, known) && WellFormed(attempts, known, budget) && Failing(t, attempts)
    ensures var r := Synthesize(w, budget, known, t);
      && r.turn.trace == Flat(all) + tail && IsTail(tail)
      && WellFormed(all, known, budget) && Told(r.outcome, all)
    decreases |known - t.excluded|
  {
    hide WellFormed, Failing, Told, Flat, Loop;
    var tried, rest := TryAccounts(w, known, budget, t, attempts);
    var next := TryNext(w, budget, t);
    if next.FallsBack? {
      FewerLeft(known, t.excluded, next.provider);
      assert Synthesize(w, budget, known, t) == Synthesize(w, budget, known, next.turn);
      all, tail := NoReportedCommitIsReplayed(w, budget, known, next.turn, tried);
    } else {
      assert Synthesize(w, budget, known, t) == TurnResult(next.outcome, next.turn);
      all, tail := tried, rest;
    }
  }

  lemma FailedAttempt(t: Turn, p: Provider, s: Progress, reason: string, attempts: seq<Attempt>, a: Attempt)
    requires Failing(t, attempts) && a.provider == p && !SomeCommit(a.body)
    requires AfterAttempt(t, p, s).trace == Flat(attempts + [a])
    ensures Failing(AfterFailure(AfterAttempt(t, p, s), p, reason), attempts + [a])
  {
    var all := attempts + [a];
    var next := AfterFailure(AfterAttempt(t, p, s), p, reason);
    forall q ensures q in next.excluded <==> exists k :: 0 <= k < |all| && all[k].provider == q {
      if q in t.excluded {
        var k :| 0 <= k < |attempts| && attempts[k].provider == q;
        assert all[k].provider == q;
      }
      assert all[|attempts|].provider == p;
    }
  }

  /**
   A whole turn is bounded: at most one attempt for each provider, each with its budget of
   invocations and tool calls.
   */
  lemma TurnIsBounded(w: World, budget: Budget, known: set<Provider>)
    requires Grants(w, known)
    ensures var trace := Synthesize(w, budget, known, START).turn.trace;
      Invocations(trace) <= |known| * budget.maxIterations && Calls(trace) <= |known| * budget.maxToolCalls
  {
    var all, tail := NoReportedCommitIsReplayed(w, budget, known, START, []);
    AttemptsAreFew(all, known, budget);
    FlatCounts(all, budget);
    CountsAdd(Flat(all), tail);
    TailCounts(tail);
    Multiply(|all|, |known|, budget.maxIterations);
    Multiply(|all|, |known|, budget.maxToolCalls);
  }

  lemma TailCounts(tail: seq<Event>)
    requires IsTail(tail)
    ensures Invocations(tail) == 0 && Calls(tail) == 0
  {
    assert tail != [] ==> tail[..0] == [];
  }

  lemma Multiply(a: nat, b: nat, c: nat)
    requires a <= b
    ensures a * c <= b * c
  {
  }

  lemma {:induction false} AttemptsAreFew(attempts: seq<Attempt>, known: set<Provider>, budget: Budget)
    requires WellFormed(attempts, known, budget)
    ensures |attempts| <= |known|
    decreases |attempts|
  {
    if attempts != [] {
      var init, last := attempts[..|attempts| - 1], attempts[|attempts| - 1];
      AttemptsAreFew(init, known - {last.provider}, budget);
      assert known == known - {last.provider} + {last.provider};
    }
  }

  lemma BlockCounts(a: Attempt)
    ensures Invocations(Block(a)) == Invocations(a.body) && Calls(Block(a)) == Calls(a.body)
  {
    var look, lease, last := [Looked(false)], [Acquired(a.provider)], [Released(a.provider)];
    assert look + lease == [Looked(false), Acquired(a.provider)];
    CountsAdd(look, lease);
    CountsAdd(look + lease, a.body);
    CountsAdd(look + lease + a.body, last);
    assert look[..0] == [] && lease[..0] == [] && last[..0] == [];
  }

  lemma OneMoreTime(n: nat, m: nat)
    ensures (n + 1) * m == n * m + m
  {
  }

  lemma {:induction false} FlatCounts(attempts: seq<Attempt>, budget: Budget)
    requires forall k :: 0 <= k < |attempts| ==> WithinBudget(attempts[k], budget)
    ensures Invocations(Flat(attempts)) <= |attempts| * budget.maxIterations
    ensures Calls(Flat(attempts)) <= |attempts| * budget.maxToolCalls
  {
    hide Block, Invocations, ToolsIn;
    if attempts == [] {
      NothingCounts();
    } else {
      var n := |attempts| - 1;
      FlatCounts(attempts[..n], budget);
      CountsAdd(Flat(attempts[..n]), Block(attempts[n]));
      BlockCounts(attempts[n]);
      assert WithinBudget(attempts[n], budget);
      OneMoreTime(n, budget.maxIterations);
      OneMoreTime(n, budget.maxToolCalls);
    }
  }

  lemma NothingCounts()
    ensures Invocations([]) == 0 && Calls([]) == 0
  {
  }

  /** Read off the flat trace: once a tool has reported a commit, no provider is acquired any more. */
  lemma NothingAcquiredAfterReportedCommit(w: World, budget: Budget, known: set<Provider>, i: nat, j: nat)
    requires Grants(w, known)
    requires i < j < |Synthesize(w, budget, known, START).turn.trace|
    requires Commits(Synthesize(w, budget, known, START).turn.trace[i])
    ensures !Synthesize(w, budget, known, START).turn.trace[j].Acquired?
  {
    var all, tail := NoReportedCommitIsReplayed(w, budget, known, START, []);
    if j < |Flat(all)| {
      CommitIsInLastAttempt(all, known, budget, i, j);
    }
  }

  lemma CommitIsInLastAttempt(attempts: seq<Attempt>, known: set<Provider>, budget: Budget, i: nat, j: nat)
    requires WellFormed(attempts, known, budget) && i < j < |Flat(attempts)| && Commits(Flat(attempts)[i])
    ensures !Flat(attempts)[j].Acquired?
  {
    hide Block;
    var init, last := attempts[..|attempts| - 1], attempts[|attempts| - 1];
    forall k | 0 <= k < |init| ensures !SomeCommit(init[k].body) {
      assert init[k] == attempts[k];
    }
    if i < |Flat(init)| {
      var k := EventInBody(init, i);
    }
    assert WithinBudget(last, budget);
    AcquiredFirst(last, i - |Flat(init)|);
    AcquiredFirst(last, j - |Flat(init)|);
  }

  /** The lease of an attempt is taken after the look, before anything else happens in it. */
  lemma AcquiredFirst(a: Attempt, j: nat)
    requires OnlyBy(a.body, a.provider) && j < |Block(a)|
    ensures Block(a)[j].Acquired? <==> j == 1
    ensures Block(a)[j].Called? ==> j > 1
  {
    if 1 < j < |a.body| + 2 {
      assert Block(a)[j] == a.body[j - 2] && a.body[j - 2] in a.body;
    }
  }

  /** Every call of a turn is one of an attempt. */
  lemma {:induction false} EventInBody(attempts: seq<Attempt>, i: nat) returns (k: nat)
    requires i < |Flat(attempts)| && Flat(attempts)[i].Called?
    ensures k < |attempts| && Flat(attempts)[i] in attempts[k].body
  {
    var n := |attempts| - 1;
    var before := Flat(attempts[..n]);
    if i < |before| {
      k := EventInBody(attempts[..n], i);
    } else {
      k := n;
      BlockHolds(attempts[n], i - |before|);
    }
  }

  lemma BlockHolds(a: Attempt, j: nat)
    requires j < |Block(a)| && Block(a)[j].Called?
    ensures Block(a)[j] in a.body
  {
    assert Block(a)[j] == a.body[j - 2];
  }

  // The loops themselves

  /** Runs the tool the provider asked for; None means the loop goes on. */
  method RunTool(w: World, k: nat, p: Provider, tool: Tool, s0: Progress) returns (end: Option<End>, s: Progress)
    ensures ToolTurn(w, k, p, tool, s0) == if end.Some? then Stop(end.value, s) else GoOn(s)
  {
    s := s0.(toolCalls := s0.toolCalls + 1, toolsUsed := s0.toolsUsed + [tool]);
    var u := Use(tool, w.access, w.deed(k, s.iterations));
    var reply := ReplyTo(u);
    s := s.(trace := s.trace + [Called(p, s.iterations, u)]);
    if reply.RaisedAbort? {
      return Some(Cancelled), s;
    }
    if reply.Raised? {
      return Some(Threw(reply.reason)), s;
    }
    s := s.(reported := s.reported || reply.committed);
    var aborted := w.aborted(s.checks);
    s := Look(w, s);
    if aborted {
      return Some(Cancelled), s;
    }
    s := s.(committed := s.committed || reply.committed);
    end := None;
  }

  method RunChatAgentLoop(w: World, k: nat, p: Provider, maxIterations: real, maxToolCalls: real, checks: nat,
                          trace: seq<Event>)
    returns (end: End, s: Progress)
    ensures LoopResult(end, s) == Loop(w, k, p, NormalizeBudget(maxIterations, maxToolCalls), Fresh(checks, trace))
  {
    var budget := NormalizeBudget(maxIterations, maxToolCalls);
    s := Fresh(checks, trace);
    ghost var whole := Loop(w, k, p, budget, s);
    while s.iterations < budget.maxIterations
      invariant s.iterations <= budget.maxIterations && whole == Loop(w, k, p, budget, s)
      decreases budget.maxIterations - s.iterations
    {
      ghost var turn := Iterate(w, k, p, budget, s);
      assert whole == if turn.Stop? then LoopResult(turn.end, turn.progress) else Loop(w, k, p, budget, turn.progress);
      var aborted := w.aborted(s.checks);
      s := Look(w, s);
      if aborted {
        return Cancelled, s;
      }
      s := Asking(s, p);
      var reply := w.invoke(k, s.iterations);
      if reply.AbortError? {
        return Cancelled, s;
      }
      if reply.Failed? {
        return Threw(reply.reason), s;
      }
      aborted := w.aborted(s.checks);
      s := Look(w, s);
      if aborted {
        return Cancelled, s;
      }
      if reply.Final? {
        return Finished(reply.response), s;
      }
      if reply.ToolCall? {
        if s.toolCalls >= budget.maxToolCalls {
          return BudgetExhausted, s;
        }
        assert turn == ToolTurn(w, k, p, reply.tool, s);
        var stop, after := RunTool(w, k, p, reply.tool, s);
        s := after;
        if stop.Some? {
          return stop.value, s;
        }
      }
      assert turn == GoOn(s);
    }
    end := BudgetExhausted;
  }

  method SynthesizeWithAgentLoop(w: World, maxIterations: real, maxToolCalls: real, ghost known: set<Provider>)
    returns (outcome: Outcome, turn: Turn)
    requires Grants(w, known)
    ensures TurnResult(outcome, turn) == Synthesize(w, NormalizeBudget(maxIterations, maxToolCalls), known, START)
    ensures forall i, j :: 0 <= i < j < |turn.trace| && Commits(turn.trace[i]) ==> !turn.trace[j].Acquired?
  {
    ghost var budget := NormalizeBudget(maxIterations, maxToolCalls);
    ghost var whole := Synthesize(w, budget, known, START);
    forall i, j | 0 <= i < j < |whole.turn.trace| && Commits(whole.turn.trace[i])
      ensures !whole.turn.trace[j].Acquired?
    {
      NothingAcquiredAfterReportedCommit(w, budget, known, i, j);
    }
    turn := START;
    while true
      invariant whole == Synthesize(w, budget, known, turn)
      decreases |known - turn.excluded|
    {
      ghost var before := turn;
      var aborted := w.aborted(turn.checks);
      turn := LookAgain(w, turn);
      if aborted {
        return Aborted, turn;
      }
      var lease := w.acquire(turn.attempts, turn.excluded);
      if lease.None? {
        return NoProvider(turn.failures), turn;
      }
      var p := lease.value;
      FewerLeft(known, turn.excluded, p);
      var held := turn.trace + [Acquired(p)];
      var end, result := RunChatAgentLoop(w, turn.attempts, p, maxIterations, maxToolCalls, turn.checks, held);
      turn := AfterAttempt(turn, p, result);
      assert turn == AfterAttempt(before, p, result);
      if end.Cancelled? {
        return Aborted, turn;
      }
      if !end.Threw? {
        return Answered(p, end, result), turn;
      }
      if result.reported {
        return Partial(p, end.reason), turn;
      }
      turn := AfterFailure(turn, p, end.reason);
    }
  }
}
