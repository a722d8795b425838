/** What stops a child and what a run reports, said in terms of the chunks that came. */
module OutputLaws {
  import opened Basics
  import opened OutputCapture

  // What stops a child

  /** Everything that came, in order. */
  function Everything(log: seq<Chunk>): Text {
    if log == [] then [] else Everything(log[..|log| - 1]) + log[|log| - 1].text
  }

  /** The last `n` chunks each repeat the words of the chunk before. */
  predicate EndsInRepeats(log: seq<Chunk>, n: int) {
    n < |log| && forall i :: 0 <= i < |log| && |log| - n <= i ==> IsDuplicate(log, i)
  }

  lemma {:induction false} ReceivedIsEverything(log: seq<Chunk>)
    ensures Received(log) == |Everything(log)|
  {
    if log != [] {
      ReceivedIsEverything(log[..|log| - 1]);
    }
  }

  lemma LastDuplicate(log: seq<Chunk>)
    requires log != []
    ensures Trailing(log) == if IsDuplicate(log, |log| - 1) then Trailing(log[..|log| - 1]) + 1 else 0
    ensures Duplicates(log) == Duplicates(log[..|log| - 1]) + if IsDuplicate(log, |log| - 1) then 1 else 0
    ensures !IsDuplicate(log, 0)
  {
    hide Words;
  }

  /** The last `n` chunks are duplicates, and the one before them is not. */
  predicate ExactlyRepeats(log: seq<Chunk>, n: nat) {
    && (n < |log| || (n == 0 && log == []))
    && (forall i :: |log| - n <= i < |log| ==> IsDuplicate(log, i))
    && (n < |log| ==> !IsDuplicate(log, |log| - n - 1))
  }

  lemma OneMoreRepeat(init: seq<Chunk>, log: seq<Chunk>, n: nat)
    requires |log| == |init| + 1 && !IsDuplicate(log, 0)
    requires forall i :: 0 <= i < |init| ==> (IsDuplicate(init, i) <==> IsDuplicate(log, i))
    requires ExactlyRepeats(init, n)
    ensures ExactlyRepeats(log, if IsDuplicate(log, |init|) then n + 1 else 0)
  {
    hide IsDuplicate;
  }

  lemma {:induction false} TrailingRepeats(log: seq<Chunk>)
    ensures ExactlyRepeats(log, Trailing(log))
  {
    if log != [] {
      var init := log[..|log| - 1];
      TrailingRepeats(init);
      LastDuplicate(log);
      SameDuplicates(log);
      hide IsDuplicate, Trailing, ExactlyRepeats;
      OneMoreRepeat(init, log, Trailing(init));
    }
  }

  lemma SameDuplicates(log: seq<Chunk>)
    requires log != []
    ensures forall i :: 0 <= i < |log| - 1 ==> (IsDuplicate(log[..|log| - 1], i) <==> IsDuplicate(log, i))
  {
    hide Words;
  }

  lemma EnoughRepeats(log: seq<Chunk>, n: int)
    requires log != []
    ensures Trailing(log) >= n <==> EndsInRepeats(log, n)
  {
    TrailingRepeats(log);
    hide IsDuplicate, Trailing;
    var first := |log| - Trailing(log) - 1;
    assert !IsDuplicate(log, first);
  }

  /** What has come is too much, or repeats itself too often. */
  predicate TooMuch(limits: Limits, log: seq<Chunk>) {
    |Everything(log)| > limits.maxReceived
  }

  lemma TripsMeans(limits: Limits, log: seq<Chunk>)
    requires log != []
    ensures Trips(limits, log) == if EndsInRepeats(log, limits.maxDuplicates) then Some(DuplicateOutput)
      else if TooMuch(limits, log) then Some(OutputLimit) else None
  {
    EnoughRepeats(log, limits.maxDuplicates);
    ReceivedIsEverything(log);
  }

  /**
   Whatever the order of events, a child is stopped for its output with the first chunk after which
   as many chunks in a row as allowed repeat the one before, or more has come than allowed, unless a
   timer was first; and a run whose breaker is closed has had no such chunk.
   */
  lemma StoppedForItsOutput(limits: Limits, events: seq<Event>)
    requires PossibleRun(limits, events)
    ensures var s, h := After(limits, events), HistoryOf(limits, events);
      && h.quiet <= |h.log|
      && (forall n :: 0 < n < h.quiet || (0 < n <= |h.log| && s.breaker.None?) ==>
            !EndsInRepeats(h.log[..n], limits.maxDuplicates) && !TooMuch(limits, h.log[..n]))
      && (s.breaker == Some(DuplicateOutput) ==>
            0 < h.quiet && EndsInRepeats(h.log[..h.quiet], limits.maxDuplicates))
      && (s.breaker == Some(OutputLimit) ==>
            0 < h.quiet && TooMuch(limits, h.log[..h.quiet])
            && !EndsInRepeats(h.log[..h.quiet], limits.maxDuplicates))
  {
    RunIsConsistent(limits, events);
    var s, h := After(limits, events), HistoryOf(limits, events);
    hide After, HistoryOf, EndsInRepeats, TooMuch;
    forall n | 0 < n < h.quiet || (0 < n <= |h.log| && s.breaker.None?)
      ensures !EndsInRepeats(h.log[..n], limits.maxDuplicates) && !TooMuch(limits, h.log[..n])
    {
      assert n < h.quiet ==> Quiet(limits, h.log, n);
      assert n == |h.log| ==> h.log[..n] == h.log;
      TripsMeans(limits, h.log[..n]);
    }
    if h.quiet > 0 {
      TripsMeans(limits, h.log[..h.quiet]);
    }
  }

  /** Unless the caller says otherwise: half a million units kept, four times as many received, 80 repeats. */
  lemma DefaultsAre(maxOutput: int)
    requires maxOutput >= 0
    ensures DefaultLimits(None, None, None) == Limits(500_000, 2_000_000, 80)
    ensures DefaultLimits(Some(maxOutput), None, None) == Limits(maxOutput, 4 * maxOutput, 80)
    ensures forall o, r, d :: DefaultLimits(Some(o), Some(r), Some(d)) == Limits(o, r, d)
  {
  }

  // What is reported

  /** The places of the duplicates. */
  function DuplicatesIn(log: seq<Chunk>): set<int> {
    set i | 0 <= i < |log| && IsDuplicate(log, i)
  }

  lemma OneMoreDuplicate(init: seq<Chunk>, log: seq<Chunk>)
    requires |log| == |init| + 1
    requires forall i :: 0 <= i < |init| ==> (IsDuplicate(init, i) <==> IsDuplicate(log, i))
    ensures |DuplicatesIn(log)| == |DuplicatesIn(init)| + if IsDuplicate(log, |init|) then 1 else 0
  {
    hide IsDuplicate;
    assert DuplicatesIn(log) == DuplicatesIn(init) + if IsDuplicate(log, |init|) then {|init|} else {};
  }

  lemma {:induction false} DuplicatesAreCounted(log: seq<Chunk>)
    ensures Duplicates(log) == |DuplicatesIn(log)|
  {
    if log != [] {
      var init := log[..|log| - 1];
      DuplicatesAreCounted(init);
      LastDuplicate(log);
      SameDuplicates(log);
      hide IsDuplicate, Duplicates, DuplicatesIn;
      OneMoreDuplicate(init, log);
    }
  }

  /** The report says how the run ended, what interrupted it, and how much of its output was kept. */
  lemma ReportTells(limits: Limits, log: seq<Chunk>, ending: Ending, aborted: bool, breaker: Option<Reason>)
    ensures var r := ResultOf(limits, log, ending, aborted, breaker);
      && r.exitCode == (if ending.Exited? then ending.code else None)
      && r.spawnError == (if ending.SpawnFailed? then ending.code else None)
      && r.aborted == aborted && r.breaker == breaker
      && (r.timedOut <==> breaker in {Some(Inactivity), Some(PhaseTimeout), Some(Deadline)})
      && r.stats.received == |Everything(log)| && r.stats.retained == |r.stdout| + |r.stderr|
      && r.stats.duplicates == |DuplicatesIn(log)|
      && r.stats.truncated == (if r.stats.received > r.stats.retained then r.stats.received - r.stats.retained else 0)
  {
    ReceivedIsEverything(log);
    DuplicatesAreCounted(log);
  }

  /** A child that failed to start leaves its message at the end of stderr, without white space around it. */
  lemma SpawnFailureTells(limits: Limits, log: seq<Chunk>, code: Option<int>, message: Text, aborted: bool,
                          breaker: Option<Reason>)
    requires limits.maxOutput > 0
    ensures var r := ResultOf(limits, log, SpawnFailed(code, message), aborted, breaker);
      var out, err := Concatenated(log, Stdout), Concatenated(log, Stderr);
      && r.stdout == Last(out, limits.maxOutput)
      && r.stderr == Trim(Last(err + [LINE_FEED] + message, limits.maxOutput))
  {
    KeptIsTail(log, Stdout, limits.maxOutput);
    KeptIsTail(log, Stderr, limits.maxOutput);
    TailOfTail(Concatenated(log, Stderr), [LINE_FEED] + message, limits.maxOutput);
    assert Concatenated(log, Stderr) + ([LINE_FEED] + message) == Concatenated(log, Stderr) + [LINE_FEED] + message;
  }

  /** Trimming takes white space from both ends, all of it and nothing else. */
  lemma TrimMeans(t: Text) returns (before: Text, after: Text)
    ensures t == before + Trim(t) + after
    ensures forall u :: u in before || u in after ==> IsSpace(u)
    ensures Trim(t) != [] ==> !IsSpace(Trim(t)[0]) && !IsSpace(Trim(t)[|Trim(t)| - 1])
  {
    before := SkippedSpaces(t);
    after := DroppedSpaces(SkipSpaces(t));
    assert t == before + SkipSpaces(t);
    assert SkipSpaces(t) == Trim(t) + after;
    assert Trim(t) != [] ==> Trim(t)[0] == SkipSpaces(t)[0];
  }

  lemma {:induction false} SkippedSpaces(t: Text) returns (before: Text)
    ensures t == before + SkipSpaces(t) && forall u :: u in before ==> IsSpace(u)
  {
    before := [];
    if t != [] && IsSpace(t[0]) {
      var rest := SkippedSpaces(t[1..]);
      before := [t[0]] + rest;
    }
  }

  lemma {:induction false} DroppedSpaces(t: Text) returns (after: Text)
    ensures t == DropTrailing(t) + after && forall u :: u in after ==> IsSpace(u)
  {
    after := [];
    if t != [] && IsSpace(t[|t| - 1]) {
      var rest := DroppedSpaces(t[..|t| - 1]);
      after := rest + [t[|t| - 1]];
    }
  }
}
