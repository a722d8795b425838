/**
 What runAgentProcess keeps of a child's output (src/agents/process.ts). A text is a sequence of
 UTF-16 code units; timers and the child's events arrive in any order.
 */
module OutputCapture {
  import opened Basics

  type Text = seq<int>

  const SPACE := 32
  const LINE_FEED := 10

  /** The code units of JavaScript's \s, which are also those trim removes. */
  predicate IsSpace(u: int) {
    9 <= u <= 13 || u == 32 || u == 160 || u == 0x1680 || 0x2000 <= u <= 0x200a
    || u == 0x2028 || u == 0x2029 || u == 0x202f || u == 0x205f || u == 0x3000 || u == 0xfeff
  }

  function SkipSpaces(t: Text): (r: Text)
    ensures |r| <= |t| && (r != [] ==> !IsSpace(r[0]))
    ensures t != [] && !IsSpace(t[0]) ==> r == t
  {
    if t != [] && IsSpace(t[0]) then SkipSpaces(t[1..]) else t
  }

  function DropTrailing(t: Text): (r: Text)
    ensures |r| <= |t| && r == t[..|r|] && (r != [] ==> !IsSpace(r[|r| - 1]))
  {
    if t != [] && IsSpace(t[|t| - 1]) then DropTrailing(t[..|t| - 1]) else t
  }

  function Trim(t: Text): Text {
    DropTrailing(SkipSpaces(t))
  }

  /** replace(/\s+/g, " ") */
  function Collapse(t: Text): Text
    decreases |t|
  {
    if t == [] then []
    else if IsSpace(t[0]) then
      SkippingShrinks(t);
      [SPACE] + Collapse(SkipSpaces(t))
    else [t[0]] + Collapse(t[1..])
  }

  lemma SkippingShrinks(t: Text)
    requires t != [] && IsSpace(t[0])
    ensures |SkipSpaces(t)| < |t|
  {
  }

  function Signature(chunk: Text): Text {
    Collapse(Trim(chunk))
  }

  // What a signature is: the words of a chunk

  function FirstWord(t: Text): (w: Text)
    ensures w <= t && (forall u :: u in w ==> !IsSpace(u))
    ensures w == t || IsSpace(t[|w|])
    ensures t != [] && !IsSpace(t[0]) ==> w != []
  {
    if t == [] || IsSpace(t[0]) then [] else [t[0]] + FirstWord(t[1..])
  }

  /** The maximal runs of units that are not spaces. */
  function Words(t: Text): seq<Text>
    decreases |t|
  {
    var u := SkipSpaces(t);
    if u == [] then [] else [FirstWord(u)] + Words(u[|FirstWord(u)|..])
  }

  function Join(words: seq<Text>): Text {
    if words == [] then []
    else if |words| == 1 then words[0]
    else words[0] + [SPACE] + Join(words[1..])
  }

  predicate IsWord(w: Text) {
    w != [] && forall u :: u in w ==> !IsSpace(u)
  }

  predicate AllWords(words: seq<Text>) {
    forall w :: w in words ==> IsWord(w)
  }

  lemma {:induction false} WordsAreWords(t: Text)
    ensures AllWords(Words(t))
    decreases |t|
  {
    var u := SkipSpaces(t);
    if u != [] {
      WordsAreWords(u[|FirstWord(u)|..]);
    }
  }

  lemma CollapseOne(u: int, t: Text)
    requires !IsSpace(u)
    ensures Collapse([u] + t) == [u] + Collapse(t)
  {
    assert ([u] + t)[1..] == t;
  }

  lemma {:induction false} CollapseWord(w: Text, rest: Text)
    requires forall u :: u in w ==> !IsSpace(u)
    ensures Collapse(w + rest) == w + Collapse(rest)
  {
    hide Collapse;
    if w == [] {
      assert w + rest == rest;
    } else {
      CollapseWord(w[1..], rest);
      CollapseOne(w[0], w[1..] + rest);
      assert [w[0]] + (w[1..] + rest) == w + rest;
      assert [w[0]] + (w[1..] + Collapse(rest)) == w + Collapse(rest);
    }
  }

  lemma {:induction false} FirstWordOf(w: Text, rest: Text)
    requires IsWord(w) && (rest == [] || IsSpace(rest[0]))
    ensures FirstWord(w + rest) == w
  {
    assert (w + rest)[1..] == w[1..] + rest;
    if |w| > 1 {
      assert IsWord(w[1..]);
      FirstWordOf(w[1..], rest);
    } else {
      assert w[1..] + rest == rest;
      assert [w[0]] == w;
    }
  }

  lemma {:induction false} SkippedLast(t: Text)
    requires t != [] && !IsSpace(t[|t| - 1])
    ensures SkipSpaces(t) != [] && SkipSpaces(t)[|SkipSpaces(t)| - 1] == t[|t| - 1]
  {
    if IsSpace(t[0]) {
      SkippedLast(t[1..]);
    }
  }

  lemma {:induction false} CollapseIsJoin(t: Text)
    requires t != [] ==> !IsSpace(t[0]) && !IsSpace(t[|t| - 1])
    ensures Collapse(t) == Join(Words(t))
    decreases |t|
  {
    if t != [] {
      var w := FirstWord(t);
      var rest := t[|w|..];
      assert t == w + rest;
      assert rest != [] ==> rest[|rest| - 1] == t[|t| - 1] && IsSpace(rest[0]);
      hide Words, Collapse, Join, SkipSpaces;
      if rest == [] {
        OneWord(t);
      } else {
        SkippedLast(rest);
        SkippingShrinks(rest);
        CollapseIsJoin(SkipSpaces(rest));
        CollapseMore(w, rest);
        JoinMore(t, w, rest);
      }
    }
  }

  lemma OneWord(t: Text)
    requires t != [] && !IsSpace(t[0]) && FirstWord(t) == t
    ensures Collapse(t) == t && Join(Words(t)) == t
  {
    CollapseWord(t, []);
    assert t + [] == t && Collapse([]) == [];
    assert t[|t|..] == [] && Words([]) == [];
    assert Words(t) == [t];
  }

  lemma CollapseMore(w: Text, rest: Text)
    requires (forall u :: u in w ==> !IsSpace(u)) && rest != [] && IsSpace(rest[0])
    ensures Collapse(w + rest) == w + [SPACE] + Collapse(SkipSpaces(rest))
  {
    CollapseWord(w, rest);
    assert Collapse(rest) == [SPACE] + Collapse(SkipSpaces(rest));
    hide Collapse, SkipSpaces;
    assert w + ([SPACE] + Collapse(SkipSpaces(rest))) == w + [SPACE] + Collapse(SkipSpaces(rest));
  }

  lemma {:induction false} SkipOnce(t: Text)
    ensures Words(SkipSpaces(t)) == Words(t)
  {
  }

  lemma JoinMore(t: Text, w: Text, rest: Text)
    requires t == w + rest && t != [] && !IsSpace(t[0]) && w == FirstWord(t)
    requires rest != [] && SkipSpaces(rest) != []
    ensures Join(Words(t)) == w + [SPACE] + Join(Words(SkipSpaces(rest)))
  {
    SkipOnce(rest);
    assert t[|w|..] == rest;
    assert Words(t) == [w] + Words(rest);
    assert Words(t)[1..] == Words(rest);
  }

  lemma {:induction false} WordsIgnoreTrailing(t: Text)
    ensures Words(DropTrailing(t)) == Words(t)
    decreases |t|
  {
    if t != [] && IsSpace(t[|t| - 1]) {
      OneTrailing(t[..|t| - 1], t[|t| - 1]);
      assert t == t[..|t| - 1] + [t[|t| - 1]];
      WordsIgnoreTrailing(t[..|t| - 1]);
    }
  }

  lemma {:induction false} SkipThenTrailing(t: Text, u: int)
    requires IsSpace(u)
    ensures SkipSpaces(t + [u]) == if SkipSpaces(t) == [] then [] else SkipSpaces(t) + [u]
  {
    if t != [] && IsSpace(t[0]) {
      SkipThenTrailing(t[1..], u);
      assert (t + [u])[1..] == t[1..] + [u];
    } else if t == [] {
      assert (t + [u])[1..] == [];
    }
  }

  /** A word followed by the end or a space is the first of the words. */
  lemma WordFirst(w: Text, rest: Text)
    requires IsWord(w) && (rest == [] || IsSpace(rest[0]))
    ensures Words(w + rest) == [w] + Words(rest)
  {
    FirstWordOf(w, rest);
    assert w[0] in w;
    var t := w + rest;
    assert t[|w|..] == rest && SkipSpaces(t) == t;
  }

  lemma SpaceFirst(t: Text)
    ensures Words([SPACE] + t) == Words(t)
  {
    assert ([SPACE] + t)[1..] == t;
    assert SkipSpaces([SPACE] + t) == SkipSpaces(t);
  }

  lemma SplitFirst(s: Text) returns (w: Text, rest: Text)
    requires s != [] && !IsSpace(s[0])
    ensures s == w + rest && IsWord(w) && (rest == [] || IsSpace(rest[0])) && |rest| < |s|
  {
    w := FirstWord(s);
    rest := s[|w|..];
  }

  lemma SkipAround(t: Text, u: int)
    requires IsSpace(u)
    ensures var s := SkipSpaces(t);
      && Words(t) == Words(s) && Words(t + [u]) == if s == [] then Words([]) else Words(s + [u])
  {
    SkipThenTrailing(t, u);
    SkipOnce(t);
    SkipOnce(t + [u]);
  }

  lemma {:induction false} OneTrailing(t: Text, u: int)
    requires IsSpace(u)
    ensures Words(t + [u]) == Words(t)
    decreases |t|
  {
    SkipAround(t, u);
    hide Words, SkipSpaces;
    var s := SkipSpaces(t);
    if s != [] {
      var w, rest := SplitFirst(s);
      OneTrailing(rest, u);
      TrailingAfterWord(w, rest, u);
    }
  }

  lemma TrailingAfterWord(w: Text, rest: Text, u: int)
    requires IsWord(w) && (rest == [] || IsSpace(rest[0])) && IsSpace(u) && Words(rest + [u]) == Words(rest)
    ensures Words(w + rest + [u]) == Words(w + rest)
  {
    hide Words;
    WordFirst(w, rest);
    WordFirst(w, rest + [u]);
    assert w + rest + [u] == w + (rest + [u]);
  }

  lemma NoWords()
    ensures Words([]) == []
  {
  }

  lemma SignatureIsWords(t: Text)
    ensures Signature(t) == Join(Words(t))
  {
    var s := SkipSpaces(t);
    CollapseIsJoin(Trim(t));
    WordsIgnoreTrailing(s);
    SkipOnce(t);
  }

  lemma {:induction false} WordsOfJoin(words: seq<Text>)
    requires AllWords(words)
    ensures Words(Join(words)) == words
  {
    hide Words;
    NoWords();
    if words != [] {
      var w, rest := words[0], words[1..];
      assert w in words && words == [w] + rest;
      assert AllWords(rest);
      WordsOfJoin(rest);
      if rest == [] {
        WordFirst(w, []);
        assert w + [] == w && Join(words) == w;
      } else {
        assert Join(words) == w + [SPACE] + Join(rest);
        hide Join;
        WordFirst(w, [SPACE] + Join(rest));
        SpaceFirst(Join(rest));
        assert w + [SPACE] + Join(rest) == w + ([SPACE] + Join(rest));
      }
    }
  }

  /** Two chunks have the same signature exactly when they have the same words. */
  lemma SameSignatureIffSameWords(a: Text, b: Text)
    ensures Signature(a) == Signature(b) <==> Words(a) == Words(b)
  {
    SignatureIsWords(a);
    SignatureIsWords(b);
    WordsAreWords(a);
    WordsAreWords(b);
    WordsOfJoin(Words(a));
    WordsOfJoin(Words(b));
  }

  // The bounded tail

  /** JavaScript's slice with one argument. */
  function Slice(t: Text, from: int): Text {
    if from >= 0 then (if from <= |t| then t[from..] else [])
    else if -from <= |t| then t[|t| + from..]
    else t
  }

  function AppendBounded(current: Text, chunk: Text, maxChars: int): Text {
    var next := current + chunk;
    if |next| <= maxChars then next else Slice(next, -maxChars)
  }

  /** The last `n` units. */
  function Last(t: Text, n: nat): (r: Text)
    ensures |r| <= n && |r| <= |t| && r == t[|t| - |r|..]
  {
    if |t| <= n then t else t[|t| - n..]
  }

  /**
   The buffer is bounded if and only if the limit is positive, or it is zero and there is nothing
   to keep: with a limit of zero everything is kept, because slice(-0) is slice(0).
   */
  lemma BoundedIff(current: Text, chunk: Text, maxChars: int)
    ensures |AppendBounded(current, chunk, maxChars)| <= maxChars
      <==> maxChars > 0 || (maxChars == 0 && current + chunk == [])
  {
  }

  /** A limit of zero keeps two units. */
  lemma ZeroKeepsEverything()
    ensures AppendBounded([1], [2], 0) == [1, 2]
  {
  }

  lemma TailOfTail(t: Text, chunk: Text, n: nat)
    requires n > 0
    ensures AppendBounded(Last(t, n), chunk, n) == Last(t + chunk, n)
  {
  }

  // The stream of chunks

  datatype Stream = Stdout | Stderr

  datatype Chunk = Chunk(stream: Stream, text: Text)

  /** A chunk with words, all of them those of the chunk before it on either stream. */
  predicate IsDuplicate(log: seq<Chunk>, i: nat)
    requires i < |log|
  {
    i > 0 && Words(log[i].text) != [] && Words(log[i].text) == Words(log[i - 1].text)
  }

  predicate EndsInDuplicate(log: seq<Chunk>) {
    log != [] && IsDuplicate(log, |log| - 1)
  }

  function Received(log: seq<Chunk>): nat {
    if log == [] then 0 else Received(log[..|log| - 1]) + |log[|log| - 1].text|
  }

  function Duplicates(log: seq<Chunk>): nat {
    if log == [] then 0 else Duplicates(log[..|log| - 1]) + if EndsInDuplicate(log) then 1 else 0
  }

  function DuplicateChars(log: seq<Chunk>): nat {
    if log == [] then 0
    else DuplicateChars(log[..|log| - 1]) + if EndsInDuplicate(log) then |log[|log| - 1].text| else 0
  }

  /** How many duplicates the log ends in. */
  function Trailing(log: seq<Chunk>): nat {
    if EndsInDuplicate(log) then Trailing(log[..|log| - 1]) + 1 else 0
  }

  /** A stream without its consecutive duplicates. */
  function Concatenated(log: seq<Chunk>, stream: Stream): Text {
    if log == [] then []
    else
      Concatenated(log[..|log| - 1], stream)
        + if log[|log| - 1].stream == stream && !EndsInDuplicate(log) then log[|log| - 1].text else []
  }

  /** What is kept of a stream. */
  function Kept(log: seq<Chunk>, stream: Stream, maxChars: int): Text {
    if log == [] then []
    else
      var before := Kept(log[..|log| - 1], stream, maxChars);
      if log[|log| - 1].stream != stream || EndsInDuplicate(log) then before
      else AppendBounded(before, log[|log| - 1].text, maxChars)
  }

  /** With a positive limit, what is kept is the end of the stream. */
  lemma {:induction false} KeptIsTail(log: seq<Chunk>, stream: Stream, maxChars: int)
    requires maxChars > 0
    ensures Kept(log, stream, maxChars) == Last(Concatenated(log, stream), maxChars)
  {
    if log != [] {
      var init, last := log[..|log| - 1], log[|log| - 1];
      KeptIsTail(init, stream, maxChars);
      TailOfTail(Concatenated(init, stream), last.text, maxChars);
      assert Concatenated(init, stream) + [] == Concatenated(init, stream);
    }
  }

  /** Every unit received is in one of the streams or in a duplicate. */
  lemma {:induction false} ReceivedAddsUp(log: seq<Chunk>)
    ensures Received(log) == |Concatenated(log, Stdout)| + |Concatenated(log, Stderr)| + DuplicateChars(log)
  {
    if log != [] {
      ReceivedAddsUp(log[..|log| - 1]);
    }
  }

  lemma {:induction false} KeptIsNoLonger(log: seq<Chunk>, stream: Stream, maxChars: int)
    ensures |Kept(log, stream, maxChars)| <= |Concatenated(log, stream)|
  {
    if log != [] {
      KeptIsNoLonger(log[..|log| - 1], stream, maxChars);
    }
  }

  /** Without a spawn error, the units reported as truncated are exactly those received and not retained. */
  lemma NothingIsClamped(log: seq<Chunk>, maxChars: int)
    ensures |Kept(log, Stdout, maxChars)| + |Kept(log, Stderr, maxChars)| <= Received(log)
  {
    ReceivedAddsUp(log);
    KeptIsNoLonger(log, Stdout, maxChars);
    KeptIsNoLonger(log, Stderr, maxChars);
  }

  // The breaker and the result

  datatype Reason = Inactivity | PhaseTimeout | Deadline | DuplicateOutput | OutputLimit

  datatype Limits = Limits(maxOutput: int, maxReceived: int, maxDuplicates: int)

  function DefaultLimits(maxOutput: Option<int>, maxReceived: Option<int>, maxDuplicates: Option<int>): Limits {
    var output := if maxOutput.Some? then maxOutput.value else 500_000;
    Limits(output, if maxReceived.Some? then maxReceived.value else if output * 4 >= output then output * 4 else output,
           if maxDuplicates.Some? then maxDuplicates.value else 80)
  }

  function LastSignature(log: seq<Chunk>): Text {
    if log == [] then [] else Signature(log[|log| - 1].text)
  }

  /** What the last chunk of a log trips, if anything. */
  function Trips(limits: Limits, log: seq<Chunk>): Option<Reason> {
    if log == [] then None
    else if Trailing(log) >= limits.maxDuplicates then Some(DuplicateOutput)
    else if Received(log) > limits.maxReceived then Some(OutputLimit)
    else None
  }

  /** The k-th chunk tripped nothing. */
  predicate Quiet(limits: Limits, log: seq<Chunk>, k: nat) {
    k <= |log| && Trips(limits, log[..k]).None?
  }

  ghost predicate QuietUntil(limits: Limits, log: seq<Chunk>, n: nat) {
    n <= |log| && forall k: nat :: k < n ==> Quiet(limits, log, k)
  }

  /**
   The breaker holds the first reason. After `at` chunks it had still been closed; then the last of
   them tripped it, or a timer did; a breaker that is closed now has been so after every chunk.
   */
  ghost predicate Explains(limits: Limits, log: seq<Chunk>, breaker: Option<Reason>, at: nat) {
    && QuietUntil(limits, log, at)
    && Trips(limits, log[..at]) == (if IsTimeout(breaker) then None else breaker)
    && (breaker.None? ==> at == |log|)
  }

  datatype Ending = Exited(code: Option<int>) | SpawnFailed(code: Option<int>, message: Text)

  datatype Stats = Stats(received: nat, retained: nat, duplicates: nat, truncated: nat)

  datatype Result = Result(exitCode: Option<int>, spawnError: Option<int>, stdout: Text, stderr: Text,
                           aborted: bool, timedOut: bool, breaker: Option<Reason>, stats: Stats)

  predicate IsTimeout(breaker: Option<Reason>) {
    breaker == Some(Inactivity) || breaker == Some(PhaseTimeout) || breaker == Some(Deadline)
  }

  function StatsOf(received: nat, duplicates: nat, stdout: Text, stderr: Text): Stats {
    var retained := |stdout| + |stderr|;
    Stats(received, retained, duplicates, if received > retained then received - retained else 0)
  }

  /** The result of a run, from what was kept and counted, its end and what interrupted it. */
  function Reported(limits: Limits, stdout: Text, kept: Text, received: nat, duplicates: nat, ending: Ending,
                    aborted: bool, breaker: Option<Reason>): Result {
    var stderr :=
      if ending.SpawnFailed? then Trim(AppendBounded(kept, [LINE_FEED] + ending.message, limits.maxOutput)) else kept;
    Result(if ending.Exited? then ending.code else None, if ending.SpawnFailed? then ending.code else None,
           stdout, stderr, aborted, IsTimeout(breaker), breaker, StatsOf(received, duplicates, stdout, stderr))
  }

  function ResultOf(limits: Limits, log: seq<Chunk>, ending: Ending, aborted: bool, breaker: Option<Reason>): Result {
    Reported(limits, Kept(log, Stdout, limits.maxOutput), Kept(log, Stderr, limits.maxOutput),
             Received(log), Duplicates(log), ending, aborted, breaker)
  }

  /**
   The result of a child that ran: with a positive limit both outputs are the ends of their streams
   without consecutive duplicates, and the truncated units are the duplicates and what was cut off.
   */
  lemma ResultRefinesStreams(limits: Limits, log: seq<Chunk>, code: Option<int>, aborted: bool, breaker: Option<Reason>)
    requires limits.maxOutput > 0
    ensures var r := ResultOf(limits, log, Exited(code), aborted, breaker);
      var out, err := Concatenated(log, Stdout), Concatenated(log, Stderr);
      && r.stdout == Last(out, limits.maxOutput) && r.stderr == Last(err, limits.maxOutput)
      && r.stats.received == r.stats.retained + r.stats.truncated
      && r.stats.truncated == DuplicateChars(log) + (|out| - |r.stdout|) + (|err| - |r.stderr|)
  {
    KeptIsTail(log, Stdout, limits.maxOutput);
    KeptIsTail(log, Stderr, limits.maxOutput);
    ReceivedAddsUp(log);
  }

  // One run

  /** What is counted of the chunks, and the signature of the last one. */
  datatype Tally = Tally(received: nat, duplicates: nat, consecutive: nat, signature: Text)

  datatype Buffers = Buffers(stdout: Text, stderr: Text)

  /** The variables of a run. */
  datatype Capture = Capture(tally: Tally, kept: Buffers, aborted: bool, timedOut: bool, breaker: Option<Reason>,
                             spawnError: Option<int>, settled: bool, stopRequested: bool, results: seq<Result>)

  const START := Capture(Tally(0, 0, 0, []), Buffers([], []), false, false, None, None, false, false, [])

  /** What happened until the run settled: the chunks, how many of them came while the breaker was closed, the end. */
  datatype History = History(log: seq<Chunk>, quiet: nat, ending: Ending)

  function Tripped(s: Capture, reason: Reason): Capture {
    if s.breaker.Some? || s.settled then s
    else s.(breaker := Some(reason), timedOut := IsTimeout(Some(reason)), stopRequested := true)
  }

  function Finished(s: Capture, exitCode: Option<int>): Capture {
    if s.settled then s
    else
      var stats := StatsOf(s.tally.received, s.tally.duplicates, s.kept.stdout, s.kept.stderr);
      var result :=
        Result(exitCode, s.spawnError, s.kept.stdout, s.kept.stderr, s.aborted, s.timedOut, s.breaker, stats);
      s.(settled := true, results := s.results + [result])
  }

  predicate Repeats(t: Tally, signature: Text) {
    signature != [] && signature == t.signature
  }

  function Tallied(t: Tally, length: nat, signature: Text): Tally {
    if Repeats(t, signature) then Tally(t.received + length, t.duplicates + 1, t.consecutive + 1, t.signature)
    else Tally(t.received + length, t.duplicates, 0, signature)
  }

  function Appended(kept: Buffers, chunk: Chunk, maxChars: int): Buffers {
    if chunk.stream == Stdout then kept.(stdout := AppendBounded(kept.stdout, chunk.text, maxChars))
    else kept.(stderr := AppendBounded(kept.stderr, chunk.text, maxChars))
  }

  /** Counts a chunk, and keeps it unless it repeats the one before. */
  function Counted(limits: Limits, s: Capture, chunk: Chunk): Capture {
    var signature := Signature(chunk.text);
    s.(tally := Tallied(s.tally, |chunk.text|, signature),
       kept := if Repeats(s.tally, signature) then s.kept else Appended(s.kept, chunk, limits.maxOutput))
  }

  function Checked(limits: Limits, s: Capture): Capture {
    if s.tally.consecutive >= limits.maxDuplicates then Tripped(s, DuplicateOutput)
    else if s.tally.received > limits.maxReceived then Tripped(s, OutputLimit)
    else s
  }

  function Consumed(limits: Limits, s: Capture, chunk: Chunk): Capture {
    if s.settled then s else Checked(limits, Counted(limits, s, chunk))
  }

  function Failed(limits: Limits, s: Capture, code: Option<int>, message: Text): Capture {
    var stderr := Trim(AppendBounded(s.kept.stderr, [LINE_FEED] + message, limits.maxOutput));
    Finished(s.(spawnError := code, kept := s.kept.(stderr := stderr)), None)
  }

  function WithChunk(h: History, s: Capture, chunk: Chunk): History {
    if s.settled then h
    else
      var log := h.log + [chunk];
      h.(log := log, quiet := if s.breaker.Some? then h.quiet else |log|)
  }

  function WithEnding(h: History, s: Capture, ending: Ending): History {
    if s.settled then h else h.(ending := ending)
  }

  ghost function TallyOf(log: seq<Chunk>): Tally {
    Tally(Received(log), Duplicates(log), Trailing(log), LastSignature(log))
  }

  ghost function BuffersOf(log: seq<Chunk>, maxChars: int): Buffers {
    Buffers(Kept(log, Stdout, maxChars), Kept(log, Stderr, maxChars))
  }

  predicate Interrupted(s: Capture) {
    s.timedOut == IsTimeout(s.breaker) && (s.stopRequested <==> s.aborted || s.breaker.Some?)
  }

  /** Until a run settles nothing is reported; once it has, one result is, and it is the result of its history. */
  ghost predicate Settling(limits: Limits, s: Capture, h: History) {
    if s.settled then s.results == [ResultOf(limits, h.log, h.ending, s.aborted, s.breaker)]
    else s.results == [] && s.spawnError == None && s.kept == BuffersOf(h.log, limits.maxOutput)
  }

  ghost predicate Consistent(limits: Limits, s: Capture, h: History) {
    s.tally == TallyOf(h.log) && Interrupted(s) && Explains(limits, h.log, s.breaker, h.quiet) && Settling(limits, s, h)
  }

  /** One more chunk is counted and kept as the log with it is. */
  lemma OneMoreChunk(log: seq<Chunk>, chunk: Chunk, maxChars: int)
    ensures var before := TallyOf(log); var signature := Signature(chunk.text);
      && TallyOf(log + [chunk]) == Tallied(before, |chunk.text|, signature)
      && BuffersOf(log + [chunk], maxChars)
         == if Repeats(before, signature) then BuffersOf(log, maxChars)
            else Appended(BuffersOf(log, maxChars), chunk, maxChars)
  {
    var after := log + [chunk];
    assert after[..|after| - 1] == log;
    DuplicateBySignature(after);
  }

  lemma CheckedTrips(limits: Limits, s: Capture, log: seq<Chunk>)
    requires s.tally == TallyOf(log) && Interrupted(s) && log != [] && !s.settled
    ensures var next := Checked(limits, s);
      && next == s.(breaker := next.breaker, timedOut := next.timedOut, stopRequested := next.stopRequested)
      && next.breaker == (if s.breaker.Some? then s.breaker else Trips(limits, log))
      && Interrupted(next)
  {
  }

  lemma ConsumedConsistent(limits: Limits, s: Capture, h: History, chunk: Chunk)
    requires Consistent(limits, s, h)
    ensures Consistent(limits, Consumed(limits, s, chunk), WithChunk(h, s, chunk))
  {
    if !s.settled {
      var log := h.log + [chunk];
      OneMoreChunk(h.log, chunk, limits.maxOutput);
      CheckedTrips(limits, Counted(limits, s, chunk), log);
      var reason := if s.breaker.Some? then s.breaker else Trips(limits, log);
      assert log[..|h.log|] == h.log;
      ExplainsMore(limits, h.log, log, s.breaker, reason, h.quiet);
    }
  }

  lemma TrippedConsistent(limits: Limits, s: Capture, h: History, reason: Reason)
    requires Consistent(limits, s, h) && IsTimeout(Some(reason))
    ensures Consistent(limits, Tripped(s, reason), h)
  {
  }

  lemma AbortedConsistent(limits: Limits, s: Capture, h: History)
    requires Consistent(limits, s, h) && !s.settled
    ensures Consistent(limits, s.(aborted := true, stopRequested := true), h)
  {
  }

  lemma FailedConsistent(limits: Limits, s: Capture, h: History, code: Option<int>, message: Text)
    requires Consistent(limits, s, h)
    ensures Consistent(limits, Failed(limits, s, code, message), WithEnding(h, s, SpawnFailed(code, message)))
  {
  }

  lemma ClosedConsistent(limits: Limits, s: Capture, h: History, exitCode: Option<int>)
    requires Consistent(limits, s, h)
    ensures Consistent(limits, Finished(s, exitCode), WithEnding(h, s, Exited(exitCode)))
  {
  }

  // Runs

  datatype Event =
    | Data(chunk: Chunk)
    | Timer(reason: Reason)
    | Abort
    | Error(code: Option<int>, message: Text)
    | Close(exitCode: Option<int>)

  /** Timers fire for their own reasons, and nobody listens for an abort once the run has settled. */
  predicate Possible(s: Capture, e: Event) {
    (e.Timer? ==> IsTimeout(Some(e.reason))) && (e.Abort? ==> !s.settled)
  }

  function Next(limits: Limits, s: Capture, e: Event): Capture {
    match e
    case Data(chunk) => Consumed(limits, s, chunk)
    case Timer(reason) => Tripped(s, reason)
    case Abort => s.(aborted := true, stopRequested := true)
    case Error(code, message) => Failed(limits, s, code, message)
    case Close(exitCode) => Finished(s, exitCode)
  }

  function NextHistory(h: History, s: Capture, e: Event): History {
    match e
    case Data(chunk) => WithChunk(h, s, chunk)
    case Error(code, message) => WithEnding(h, s, SpawnFailed(code, message))
    case Close(exitCode) => WithEnding(h, s, Exited(exitCode))
    case _ => h
  }

  function After(limits: Limits, events: seq<Event>): Capture {
    if events == [] then START else Next(limits, After(limits, events[..|events| - 1]), events[|events| - 1])
  }

  function HistoryOf(limits: Limits, events: seq<Event>): History {
    if events == [] then History([], 0, Exited(None))
    else
      var init := events[..|events| - 1];
      NextHistory(HistoryOf(limits, init), After(limits, init), events[|events| - 1])
  }

  predicate PossibleAt(limits: Limits, events: seq<Event>, n: nat) {
    n < |events| && Possible(After(limits, events[..n]), events[n])
  }

  ghost predicate PossibleRun(limits: Limits, events: seq<Event>) {
    forall n: nat :: n < |events| ==> PossibleAt(limits, events, n)
  }

  lemma NextConsistent(limits: Limits, s: Capture, h: History, e: Event)
    requires Consistent(limits, s, h) && Possible(s, e)
    ensures Consistent(limits, Next(limits, s, e), NextHistory(h, s, e))
  {
    match e
    case Data(chunk) => ConsumedConsistent(limits, s, h, chunk);
    case Timer(reason) => TrippedConsistent(limits, s, h, reason);
    case Abort => AbortedConsistent(limits, s, h);
    case Error(code, message) => FailedConsistent(limits, s, h, code, message);
    case Close(exitCode) => ClosedConsistent(limits, s, h, exitCode);
  }

  /** Whatever order events come in, the variables are what the history says. */
  lemma {:induction false} RunIsConsistent(limits: Limits, events: seq<Event>)
    requires PossibleRun(limits, events)
    ensures Consistent(limits, After(limits, events), HistoryOf(limits, events))
  {
    if events == [] {
      assert Quiet(limits, [], 0);
    } else {
      var init := events[..|events| - 1];
      PossiblePrefix(limits, events, |init|);
      RunIsConsistent(limits, init);
      assert PossibleAt(limits, events, |init|);
      NextConsistent(limits, After(limits, init), HistoryOf(limits, init), events[|init|]);
    }
  }

  lemma NextSettles(limits: Limits, s: Capture, e: Event)
    requires Possible(s, e)
    ensures s.breaker.Some? ==> Next(limits, s, e).breaker == s.breaker
    ensures s.settled ==>
        Next(limits, s, e).settled && Next(limits, s, e).results == s.results && Next(limits, s, e).breaker == s.breaker
    ensures e.Close? || e.Error? ==> Next(limits, s, e).settled
  {
  }

  lemma PossiblePrefix(limits: Limits, events: seq<Event>, n: nat)
    requires PossibleRun(limits, events) && n <= |events|
    ensures PossibleRun(limits, events[..n])
  {
    forall k: nat | k < n ensures PossibleAt(limits, events[..n], k) {
      assert PossibleAt(limits, events, k);
      assert events[..n][..k] == events[..k];
    }
  }

  /** What a run reported stays, and its breaker's reason is the first one. */
  lemma {:induction false} ReportStays(limits: Limits, events: seq<Event>, n: nat)
    requires PossibleRun(limits, events) && n <= |events|
    ensures var s, before := After(limits, events), After(limits, events[..n]);
      && (before.settled ==> s.settled && s.results == before.results && s.breaker == before.breaker)
      && (before.breaker.Some? ==> s.breaker == before.breaker)
    decreases |events|
  {
    if n == |events| {
      assert events[..n] == events;
    } else {
      var init := events[..|events| - 1];
      PossiblePrefix(limits, events, |init|);
      ReportStays(limits, init, n);
      assert init[..n] == events[..n];
      assert PossibleAt(limits, events, |init|);
      NextSettles(limits, After(limits, init), events[|init|]);
    }
  }

  /** A run reports exactly once if its child closed or failed to start, and at most once anyway. */
  lemma ReportsOnce(limits: Limits, events: seq<Event>)
    requires PossibleRun(limits, events)
    ensures |After(limits, events).results| <= 1
    ensures (exists k :: 0 <= k < |events| && (events[k].Close? || events[k].Error?)) ==>
        |After(limits, events).results| == 1
  {
    RunIsConsistent(limits, events);
    if k :| 0 <= k < |events| && (events[k].Close? || events[k].Error?) {
      assert PossibleAt(limits, events, k);
      NextSettles(limits, After(limits, events[..k]), events[k]);
      assert events[..k + 1][..k] == events[..k];
      ReportStays(limits, events, k + 1);
    }
  }

  class AgentProcess {
    const limits: Limits
    var stdout: Text
    var stderr: Text
    var aborted: bool
    var timedOut: bool
    var breaker: Option<Reason>
    var spawnError: Option<int>
    var settled: bool
    var stopRequested: bool
    var receivedChars: nat
    var duplicateChunks: nat
    var consecutiveDuplicates: nat
    var lastSignature: Text
    var results: seq<Result>
    ghost var history: History

    function State(): Capture
      reads this
    {
      Capture(Tally(receivedChars, duplicateChunks, consecutiveDuplicates, lastSignature), Buffers(stdout, stderr),
              aborted, timedOut, breaker, spawnError, settled, stopRequested, results)
    }

    ghost predicate Valid()
      reads this
    {
      Consistent(limits, State(), history)
    }

    constructor (maxOutput: Option<int>, maxReceived: Option<int>, maxDuplicates: Option<int>)
      ensures Valid() && State() == START && history == History([], 0, Exited(None))
      ensures limits == DefaultLimits(maxOutput, maxReceived, maxDuplicates)
    {
      limits := DefaultLimits(maxOutput, maxReceived, maxDuplicates);
      stdout, stderr, aborted, timedOut, breaker, spawnError := [], [], false, false, None, None;
      settled, stopRequested, receivedChars, duplicateChunks, consecutiveDuplicates := false, false, 0, 0, 0;
      lastSignature, results, history := [], [], History([], 0, Exited(None));
    }

    /** The first reason stays. */
    method TripBreaker(reason: Reason)
      modifies this`breaker, this`timedOut, this`stopRequested
      ensures State() == Tripped(old(State()), reason)
    {
      if breaker.Some? || settled {
        return;
      }
      breaker := Some(reason);
      timedOut := reason == Inactivity || reason == PhaseTimeout || reason == Deadline;
      stopRequested := true;
    }

    /** Resolves once: a second end of the same run changes nothing. */
    method Finish(exitCode: Option<int>)
      modifies this`settled, this`results
      ensures State() == Finished(old(State()), exitCode)
    {
      if settled {
        return;
      }
      settled := true;
      var stats := StatsOf(receivedChars, duplicateChunks, stdout, stderr);
      results := results + [Result(exitCode, spawnError, stdout, stderr, aborted, timedOut, breaker, stats)];
    }

    /** Counts a chunk; `repeated` when it is a consecutive duplicate. */
    method Count(length: nat, signature: Text) returns (repeated: bool)
      modifies this`receivedChars, this`duplicateChunks, this`consecutiveDuplicates, this`lastSignature
      ensures repeated == Repeats(old(State()).tally, signature)
      ensures State().tally == Tallied(old(State()).tally, length, signature)
    {
      receivedChars := receivedChars + length;
      repeated := signature != [] && signature == lastSignature;
      if repeated {
        duplicateChunks := duplicateChunks + 1;
        consecutiveDuplicates := consecutiveDuplicates + 1;
      } else {
        lastSignature := signature;
        consecutiveDuplicates := 0;
      }
    }

    /** Trips on too many duplicates in a row, or else on too much output. */
    method CheckBreaker()
      modifies this`breaker, this`timedOut, this`stopRequested
      ensures State() == Checked(limits, old(State()))
    {
      if consecutiveDuplicates >= limits.maxDuplicates {
        TripBreaker(DuplicateOutput);
      } else if receivedChars > limits.maxReceived {
        TripBreaker(OutputLimit);
      }
    }

    method Retain(stream: Stream, text: Text)
      modifies this`stdout, this`stderr
      ensures Buffers(stdout, stderr) == Appended(old(Buffers(stdout, stderr)), Chunk(stream, text), limits.maxOutput)
    {
      if stream == Stdout {
        stdout := AppendBounded(stdout, text, limits.maxOutput);
      } else {
        stderr := AppendBounded(stderr, text, limits.maxOutput);
      }
    }

    method TakeIn(stream: Stream, text: Text)
      modifies this`receivedChars, this`duplicateChunks, this`consecutiveDuplicates, this`lastSignature,
               this`stdout, this`stderr, this`breaker, this`timedOut, this`stopRequested
      ensures State() == Consumed(limits, old(State()), Chunk(stream, text))
    {
      if settled {
        return;
      }
      var repeated := Count(|text|, Signature(text));
      if !repeated {
        Retain(stream, text);
      }
      assert State() == Counted(limits, old(State()), Chunk(stream, text));
      CheckBreaker();
    }

    method Consume(stream: Stream, text: Text)
      requires Valid()
      modifies this
      ensures Valid() && State() == Consumed(limits, old(State()), Chunk(stream, text))
      ensures history == WithChunk(old(history), old(State()), Chunk(stream, text))
    {
      ConsumedConsistent(limits, State(), history, Chunk(stream, text));
      history := WithChunk(history, State(), Chunk(stream, text));
      TakeIn(stream, text);
    }

    /** One of the timers fires. */
    method TimerFires(reason: Reason)
      requires Valid() && IsTimeout(Some(reason))
      modifies this
      ensures Valid() && State() == Tripped(old(State()), reason) && history == old(history)
    {
      TrippedConsistent(limits, State(), history, reason);
      TripBreaker(reason);
    }

    /** The caller cancels; finishing stops listening to it. */
    method OnAbort()
      requires Valid() && !settled
      modifies this
      ensures Valid() && State() == old(State()).(aborted := true, stopRequested := true) && history == old(history)
    {
      AbortedConsistent(limits, State(), history);
      aborted, stopRequested := true, true;
    }

    method OnError(code: Option<int>, message: Text)
      requires Valid()
      modifies this
      ensures Valid() && State() == Failed(limits, old(State()), code, message)
      ensures history == WithEnding(old(history), old(State()), SpawnFailed(code, message))
    {
      FailedConsistent(limits, State(), history, code, message);
      history := WithEnding(history, State(), SpawnFailed(code, message));
      spawnError := code;
      stderr := Trim(AppendBounded(stderr, [LINE_FEED] + message, limits.maxOutput));
      Finish(None);
    }

    /** The child closes, or is given up on two seconds after it was stopped. */
    method OnClose(exitCode: Option<int>)
      requires Valid()
      modifies this
      ensures Valid() && State() == Finished(old(State()), exitCode)
      ensures history == WithEnding(old(history), old(State()), Exited(exitCode))
    {
      ClosedConsistent(limits, State(), history, exitCode);
      history := WithEnding(history, State(), Exited(exitCode));
      Finish(exitCode);
    }
  }

  /** The source's test for a duplicate, on the signature of the chunk before. */
  lemma DuplicateBySignature(log: seq<Chunk>)
    requires log != []
    ensures EndsInDuplicate(log) <==> LastSignature(log) != [] && LastSignature(log) == LastSignature(log[..|log| - 1])
  {
    var n := |log| - 1;
    SameSignatureIffSameWords(log[n].text, []);
    if n > 0 {
      SameSignatureIffSameWords(log[n].text, log[n - 1].text);
    }
  }

  lemma QuietLonger(limits: Limits, before: seq<Chunk>, log: seq<Chunk>, n: nat)
    requires |before| <= |log| && log[..|before|] == before && QuietUntil(limits, before, n)
    ensures QuietUntil(limits, log, n) && log[..n] == before[..n]
  {
    assert forall k | 0 <= k <= n :: log[..k] == before[..k];
    forall k: nat | k < n ensures Quiet(limits, log, k) {
      assert Quiet(limits, before, k);
    }
  }

  lemma ExplainsMore(limits: Limits, before: seq<Chunk>, log: seq<Chunk>, was: Option<Reason>, breaker: Option<Reason>,
                     at: nat)
    requires Explains(limits, before, was, at) && |log| == |before| + 1 && log[..|before|] == before
    requires breaker == if was.Some? then was else Trips(limits, log)
    ensures Explains(limits, log, breaker, if was.Some? then at else |log|)
  {
    QuietLonger(limits, before, log, at);
    if was.None? {
      assert Quiet(limits, log, |before|);
      StillQuiet(limits, log, |before|);
      assert log[..|log|] == log;
    }
  }

  lemma StillQuiet(limits: Limits, log: seq<Chunk>, n: nat)
    requires QuietUntil(limits, log, n) && Quiet(limits, log, n) && n < |log|
    ensures QuietUntil(limits, log, n + 1)
  {
    forall k: nat | k < n + 1 ensures Quiet(limits, log, k) {
    }
  }
}
