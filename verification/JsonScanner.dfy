/**
 findJsonObjects (src/agents/process.ts): the object texts embedded in a provider's output, found by
 counting braces outside strings. A text is a sequence of UTF-16 code units; JSON.parse is a parameter.
 */
module JsonScanner {
  import opened Basics

  type Text = seq<int>

  const QUOTE := 34
  const BACKSLASH := 92
  const OPEN := 123
  const CLOSE := 125

  datatype Scan = Scan(depth: nat, start: int, inString: bool, escape: bool)

  const START := Scan(0, -1, false, false)

  /** A candidate: text[from..to]. */
  datatype Span = Span(from: int, to: int)

  datatype Out = Out(state: Scan, spans: seq<Span>)

  const BEGIN := Out(START, [])

  /** The unit `u` at place `i`. */
  function Next(s: Scan, i: int, u: int): Scan {
    if s.inString then
      if s.escape then s.(escape := false)
      else if u == BACKSLASH then s.(escape := true)
      else if u == QUOTE then s.(inString := false)
      else s
    else if u == QUOTE then s.(inString := true)
    else if u == OPEN then s.(depth := s.depth + 1, start := if s.depth == 0 then i else s.start)
    else if u == CLOSE && s.depth > 0 then s.(depth := s.depth - 1, start := if Closes(s, u) then -1 else s.start)
    else s
  }

  predicate Closes(s: Scan, u: int) {
    !s.inString && u == CLOSE && s.depth == 1 && s.start != -1
  }

  /** One more unit, and the candidate it completes. */
  function Feed(o: Out, i: int, u: int): Out {
    Out(Next(o.state, i, u), if Closes(o.state, u) then o.spans + [Span(o.state.start, i + 1)] else o.spans)
  }

  /** Scans on through `text`, which begins at place `at`. */
  function Run(o: Out, at: int, text: Text): Out {
    if text == [] then o else Feed(Run(o, at, text[..|text| - 1]), at + |text| - 1, text[|text| - 1])
  }

  /** The scan of a whole text. */
  function Whole(text: Text): Out {
    Run(BEGIN, 0, text)
  }

  function Spans(text: Text): seq<Span> {
    Whole(text).spans
  }

  lemma RunOne(o: Out, at: int, text: Text, u: int)
    ensures Run(o, at, text + [u]) == Feed(Run(o, at, text), at + |text|, u)
  {
    assert (text + [u])[..|text|] == text;
  }

  lemma RunUnit(o: Out, at: int, u: int)
    ensures Run(o, at, [u]) == Feed(o, at, u)
  {
    assert [u][..0] == [];
  }

  lemma RunNone(o: Out, at: int)
    ensures Run(o, at, []) == o
  {
  }

  /** Scanning goes on where it stopped. */
  lemma {:induction false} RunConcat(o: Out, at: int, a: Text, b: Text)
    ensures Run(o, at, a + b) == Run(Run(o, at, a), at + |a|, b)
  {
    hide Run;
    if b == [] {
      RunNone(Run(o, at, a), at + |a|);
      assert a + b == a;
    } else {
      var init, u := b[..|b| - 1], b[|b| - 1];
      RunConcat(o, at, a, init);
      RunOne(o, at, a + init, u);
      RunOne(Run(o, at, a), at + |a|, init, u);
      assert a + init + [u] == a + b && init + [u] == b;
    }
  }

  // Every text

  predicate InRange(spans: seq<Span>, end: int) {
    forall k :: 0 <= k < |spans| ==> 0 <= spans[k].from < spans[k].to <= end
  }

  predicate InOrder(spans: seq<Span>, end: int) {
    InRange(spans, end) && forall j, k :: 0 <= j < k < |spans| ==> spans[j].to <= spans[k].from
  }

  /** A text that scans, by itself, as one candidate: braces outside strings balance at its end and not before. */
  predicate IsCandidate(t: Text) {
    Whole(t) == Out(START, [Span(0, |t|)])
  }

  /** What the scanner knows inside a candidate: the state it would have, had it started there. */
  predicate Inside(s: Scan, text: Text) {
    0 <= s.start < |text| && Whole(text[s.start..]) == Out(s.(start := 0), [])
  }

  /** A candidate that starts outside all strings and braces. */
  predicate CandidateAt(text: Text, span: Span) {
    && 0 <= span.from < span.to <= |text|
    && IsCandidate(text[span.from..span.to]) && Whole(text[..span.from]).state == START
  }

  /** What holds of the scan of every text. */
  ghost predicate Known(text: Text, o: Out) {
    && InOrder(o.spans, |text|)
    && (forall k :: 0 <= k < |o.spans| ==> CandidateAt(text, o.spans[k]))
    && (o.state.escape ==> o.state.inString)
    && (if o.state.depth == 0 then o.state.start == -1
        else Inside(o.state, text) && Whole(text[..o.state.start]).state == START
             && forall k :: 0 <= k < |o.spans| ==> o.spans[k].to <= o.state.start)
  }

  lemma LongerText(init: Text, u: int, spans: seq<Span>)
    requires InOrder(spans, |init|) && forall k :: 0 <= k < |spans| ==> CandidateAt(init, spans[k])
    ensures InOrder(spans, |init| + 1) && forall k :: 0 <= k < |spans| ==> CandidateAt(init + [u], spans[k])
  {
    hide Run;
    forall k | 0 <= k < |spans| ensures CandidateAt(init + [u], spans[k]) {
      assert CandidateAt(init, spans[k]);
      assert (init + [u])[..spans[k].from] == init[..spans[k].from];
      assert (init + [u])[spans[k].from..spans[k].to] == init[spans[k].from..spans[k].to];
    }
  }

  /** One more unit inside a candidate is one more unit of the candidate by itself. */
  lemma InsideStep(init: Text, u: int, s: Scan)
    requires s.depth > 0 && Inside(s, init) && (s.escape ==> s.inString)
    ensures var text := init + [u]; var next := Next(s, |init|, u);
      if Closes(s, u) then IsCandidate(text[s.start..])
      else Inside(next, text) && next.start == s.start && next.depth > 0
  {
    hide Run;
    var text := init + [u];
    assert text[s.start..] == init[s.start..] + [u];
    RunOne(BEGIN, 0, init[s.start..], u);
  }

  lemma ClosingKnown(init: Text, o: Out)
    requires Known(init, o) && o.state.depth > 0 && Closes(o.state, CLOSE)
    ensures Known(init + [CLOSE], Feed(o, |init|, CLOSE))
  {
    hide Run;
    var text := init + [CLOSE];
    var from := o.state.start;
    LongerText(init, CLOSE, o.spans);
    InsideStep(init, CLOSE, o.state);
    assert text[..from] == init[..from] && text[from..|text|] == text[from..];
    assert CandidateAt(text, Span(from, |text|));
  }

  lemma InsideKnown(init: Text, u: int, o: Out)
    requires Known(init, o) && o.state.depth > 0 && !Closes(o.state, u)
    ensures Known(init + [u], Feed(o, |init|, u))
  {
    hide Run;
    LongerText(init, u, o.spans);
    InsideStep(init, u, o.state);
    assert (init + [u])[..o.state.start] == init[..o.state.start];
  }

  lemma OutsideKnown(init: Text, u: int, o: Out)
    requires Known(init, o) && o.state.depth == 0 && (u == OPEN ==> o.state.inString)
    ensures Known(init + [u], Feed(o, |init|, u))
  {
    hide Run;
    LongerText(init, u, o.spans);
  }

  lemma OpeningKnown(init: Text, o: Out)
    requires Known(init, o) && o.state == START && Whole(init).state == START
    ensures Known(init + [OPEN], Feed(o, |init|, OPEN))
  {
    hide Run;
    var text := init + [OPEN];
    LongerText(init, OPEN, o.spans);
    RunUnit(BEGIN, 0, OPEN);
    assert text[|init|..] == [OPEN] && text[..|init|] == init;
    assert Inside(Scan(1, |init|, false, false), text);
  }

  lemma {:induction false} SpansAreCandidates(text: Text)
    ensures Known(text, Whole(text))
  {
    if text != [] {
      var init, u := text[..|text| - 1], text[|text| - 1];
      SpansAreCandidates(init);
      assert init + [u] == text;
      var o := Whole(init);
      if o.state.depth == 0 {
        if u == OPEN && !o.state.inString {
          OpeningKnown(init, o);
        } else {
          OutsideKnown(init, u, o);
        }
      } else if Closes(o.state, u) {
        ClosingKnown(init, o);
      } else {
        InsideKnown(init, u, o);
      }
    }
  }

  /** `p` is `o` moved `d` places to the right, after the spans found before. */
  ghost predicate Moved(before: seq<Span>, d: int, o: Out, p: Out) {
    && p.state == (if o.state.start == -1 then o.state else o.state.(start := o.state.start + d)) && o.state.start >= -1
    && |p.spans| == |before| + |o.spans|
    && forall k :: 0 <= k < |o.spans| ==> p.spans[|before| + k] == Span(o.spans[k].from + d, o.spans[k].to + d)
  }

  lemma {:induction false} RunMoved(before: seq<Span>, d: nat, text: Text)
    ensures Moved(before, d, Whole(text), Run(Out(START, before), d, text))
  {
    if text != [] {
      RunMoved(before, d, text[..|text| - 1]);
    }
  }

  /** The scanner finds a slice exactly when it would find it by itself, from outside all strings and braces. */
  lemma FoundIffScannedAlone(text: Text, span: Span)
    ensures InOrder(Spans(text), |text|)
    ensures span in Spans(text) <==> CandidateAt(text, span)
  {
    hide Run;
    SpansAreCandidates(text);
    if CandidateAt(text, span) {
      CandidateIsFound(text, span);
    }
  }

  lemma CandidateIsFound(text: Text, span: Span)
    requires CandidateAt(text, span)
    ensures span in Spans(text)
  {
    hide Run;
    var before, t, after := text[..span.from], text[span.from..span.to], text[span.to..];
    RunMoved(Spans(before), span.from, t);
    RunConcat(BEGIN, 0, before, t);
    assert Whole(before) == Out(START, Spans(before)) && Whole(t).spans[0] == Span(0, |t|);
    assert span == Run(Whole(before), span.from, t).spans[|Spans(before)|];
    RunConcat(BEGIN, 0, before + t, after);
    assert text == before + t + after;
    FoundStays(Whole(before + t), span.to, after, span);
  }

  lemma {:induction false} FoundStays(o: Out, at: int, text: Text, span: Span)
    requires span in o.spans
    ensures span in Run(o, at, text).spans
  {
    if text != [] {
      FoundStays(o, at, text[..|text| - 1], span);
    }
  }

  // Texts that interleave filler with objects

  /** What is between two quotes: units that are no quote or backslash, and escaped units. */
  datatype Chars = NoChars | Raw(u: int, rest: Chars) | Escaped(u: int, rest: Chars)

  /** What is inside an object: units that are no quote or brace, strings, and braced pieces. */
  datatype Pieces =
    | NoPieces
    | Plain(u: int, rest: Pieces)
    | Quoted(chars: Chars, rest: Pieces)
    | Braced(inner: Pieces, rest: Pieces)

  /** What is between objects: strings, and units that are no quote or opening brace. */
  datatype Element = Filler(u: int) | QuotedFiller(chars: Chars) | Object(pieces: Pieces)

  predicate GoodChars(chars: Chars) {
    match chars
    case NoChars => true
    case Raw(u, rest) => u != QUOTE && u != BACKSLASH && GoodChars(rest)
    case Escaped(u, rest) => GoodChars(rest)
  }

  predicate Good(p: Pieces) {
    match p
    case NoPieces => true
    case Plain(u, rest) => u != QUOTE && u != OPEN && u != CLOSE && Good(rest)
    case Quoted(chars, rest) => GoodChars(chars) && Good(rest)
    case Braced(inner, rest) => Good(inner) && Good(rest)
  }

  predicate GoodElement(e: Element) {
    match e
    case Filler(u) => u != QUOTE && u != OPEN
    case QuotedFiller(chars) => GoodChars(chars)
    case Object(pieces) => Good(pieces)
  }

  function CharsText(chars: Chars): Text {
    match chars
    case NoChars => []
    case Raw(u, rest) => [u] + CharsText(rest)
    case Escaped(u, rest) => [BACKSLASH, u] + CharsText(rest)
  }

  function StringText(chars: Chars): Text {
    [QUOTE] + CharsText(chars) + [QUOTE]
  }

  function PiecesText(p: Pieces): Text {
    match p
    case NoPieces => []
    case Plain(u, rest) => [u] + PiecesText(rest)
    case Quoted(chars, rest) => StringText(chars) + PiecesText(rest)
    case Braced(inner, rest) => [OPEN] + PiecesText(inner) + [CLOSE] + PiecesText(rest)
  }

  function ObjectText(p: Pieces): Text {
    [OPEN] + PiecesText(p) + [CLOSE]
  }

  function ElementText(e: Element): Text {
    match e
    case Filler(u) => [u]
    case QuotedFiller(chars) => StringText(chars)
    case Object(pieces) => ObjectText(pieces)
  }

  function DocumentText(doc: seq<Element>): Text {
    if doc == [] then [] else DocumentText(doc[..|doc| - 1]) + ElementText(doc[|doc| - 1])
  }

  function ObjectTexts(doc: seq<Element>): seq<Text> {
    if doc == [] then []
    else
      var last := doc[|doc| - 1];
      ObjectTexts(doc[..|doc| - 1]) + if last.Object? then [ObjectText(last.pieces)] else []
  }

  lemma {:induction false} RunChars(o: Out, at: int, chars: Chars)
    requires o.state.inString && !o.state.escape && GoodChars(chars)
    ensures Run(o, at, CharsText(chars)) == o
    decreases chars
  {
    match chars
    case NoChars =>
    case Raw(u, rest) =>
      RunUnit(o, at, u);
      RunChars(o, at + 1, rest);
      RunConcat(o, at, [u], CharsText(rest));
    case Escaped(u, rest) =>
      RunEscaped(o, at, u);
      RunChars(o, at + 2, rest);
      RunConcat(o, at, [BACKSLASH, u], CharsText(rest));
  }

  lemma RunEscaped(o: Out, at: int, u: int)
    requires o.state.inString && !o.state.escape
    ensures Run(o, at, [BACKSLASH, u]) == o
  {
    hide Run;
    RunUnit(o, at, BACKSLASH);
    RunOne(o, at, [BACKSLASH], u);
    assert [BACKSLASH] + [u] == [BACKSLASH, u];
  }

  /** A string is skipped whole, whatever braces it holds. */
  lemma RunString(o: Out, at: int, chars: Chars)
    requires !o.state.inString && !o.state.escape && GoodChars(chars)
    ensures Run(o, at, StringText(chars)) == o
  {
    hide Run;
    var inside := o.(state := o.state.(inString := true));
    RunUnit(o, at, QUOTE);
    RunChars(inside, at + 1, chars);
    RunConcat(o, at, [QUOTE], CharsText(chars));
    RunOne(o, at, [QUOTE] + CharsText(chars), QUOTE);
  }

  /** The text of the first piece. */
  function Head(p: Pieces): (t: Text)
    requires !p.NoPieces?
    ensures PiecesText(p) == t + PiecesText(p.rest)
  {
    match p
    case Plain(u, rest) => [u]
    case Quoted(chars, rest) => StringText(chars)
    case Braced(inner, rest) => ObjectText(inner)
  }

  /** Inside an object, well-formed pieces leave the scanner as it was. */
  lemma {:induction false} RunPieces(o: Out, at: int, p: Pieces)
    requires o.state.depth > 0 && !o.state.inString && !o.state.escape && Good(p)
    ensures Run(o, at, PiecesText(p)) == o
    decreases p, 1
  {
    if !p.NoPieces? {
      RunHead(o, at, p);
      RunPieces(o, at + |Head(p)|, p.rest);
      hide Run, PiecesText;
      SkipBoth(o, at, Head(p), PiecesText(p.rest), PiecesText(p));
    }
  }

  lemma SkipBoth(o: Out, at: int, a: Text, b: Text, both: Text)
    requires both == a + b && Run(o, at, a) == o && Run(o, at + |a|, b) == o
    ensures Run(o, at, both) == o
  {
    hide Run;
    RunConcat(o, at, a, b);
  }

  lemma {:induction false} RunHead(o: Out, at: int, p: Pieces)
    requires o.state.depth > 0 && !o.state.inString && !o.state.escape && Good(p) && !p.NoPieces?
    ensures Run(o, at, Head(p)) == o
    decreases p, 0
  {
    match p
    case Plain(u, rest) => RunUnit(o, at, u);
    case Quoted(chars, rest) => RunString(o, at, chars);
    case Braced(inner, rest) =>
      RunPieces(Deeper(o), at + 1, inner);
      RunBraced(o, at, PiecesText(inner));
  }

  function Deeper(o: Out): Out {
    o.(state := o.state.(depth := o.state.depth + 1))
  }

  lemma RunBraced(o: Out, at: int, body: Text)
    requires o.state.depth > 0 && !o.state.inString && !o.state.escape
    requires Run(Deeper(o), at + 1, body) == Deeper(o)
    ensures Run(o, at, [OPEN] + body + [CLOSE]) == o
  {
    hide Run;
    RunUnit(o, at, OPEN);
    RunConcat(o, at, [OPEN], body);
    RunOne(o, at, [OPEN] + body, CLOSE);
  }

  /** An object outside all others is found whole. */
  lemma RunObject(o: Out, at: nat, p: Pieces)
    requires Good(p) && o.state == START
    ensures Run(o, at, ObjectText(p)) == o.(spans := o.spans + [Span(at, at + |ObjectText(p)|)])
  {
    hide Run;
    var open := o.(state := Scan(1, at, false, false));
    var body := PiecesText(p);
    RunUnit(o, at, OPEN);
    RunPieces(open, at + 1, p);
    RunConcat(o, at, [OPEN], body);
    RunOne(o, at, [OPEN] + body, CLOSE);
  }

  lemma RunElement(o: Out, at: nat, e: Element)
    requires GoodElement(e) && o.state == START
    ensures Run(o, at, ElementText(e))
      == if e.Object? then o.(spans := o.spans + [Span(at, at + |ElementText(e)|)]) else o
  {
    hide Run;
    match e
    case Filler(u) => RunUnit(o, at, u);
    case QuotedFiller(chars) => RunString(o, at, chars);
    case Object(pieces) => RunObject(o, at, pieces);
  }

  function CandidateTexts(text: Text, spans: seq<Span>): seq<Text>
    requires InRange(spans, |text|)
  {
    seq(|spans|, k requires 0 <= k < |spans| => text[spans[k].from..spans[k].to])
  }

  lemma OneMoreSpan(text: Text, spans: seq<Span>, span: Span)
    requires InRange(spans, |text|) && 0 <= span.from < span.to <= |text|
    ensures InRange(spans + [span], |text|)
    ensures CandidateTexts(text, spans + [span]) == CandidateTexts(text, spans) + [text[span.from..span.to]]
  {
    assert forall k :: 0 <= k < |spans| ==> (spans + [span])[k] == spans[k];
    assert (spans + [span])[|spans|] == span;
  }

  lemma SameTexts(text: Text, more: Text, spans: seq<Span>)
    requires InRange(spans, |text|)
    ensures InRange(spans, |text + more|) && CandidateTexts(text + more, spans) == CandidateTexts(text, spans)
  {
    forall k | 0 <= k < |spans|
      ensures (text + more)[spans[k].from..spans[k].to] == text[spans[k].from..spans[k].to]
    {
    }
  }

  lemma SpansInRange(text: Text)
    ensures InRange(Spans(text), |text|)
    ensures forall k :: 0 <= k < |Spans(text)| ==> CandidateAt(text, Spans(text)[k])
  {
    hide Run;
    SpansAreCandidates(text);
  }

  /** The texts of the candidates. */
  function Candidates(text: Text): (r: seq<Text>)
    ensures |r| == |Spans(text)|
    ensures forall k :: 0 <= k < |r| ==> IsCandidate(r[k])
  {
    SpansInRange(text);
    assert forall k :: 0 <= k < |Spans(text)| ==> CandidateAt(text, Spans(text)[k]);
    CandidateTexts(text, Spans(text))
  }

  predicate GoodDocument(doc: seq<Element>) {
    forall k :: 0 <= k < |doc| ==> GoodElement(doc[k])
  }

  lemma CandidatesStay(text: Text, more: Text)
    requires Spans(text + more) == Spans(text)
    ensures Candidates(text + more) == Candidates(text)
  {
    hide Run;
    SpansInRange(text);
    SameTexts(text, more, Spans(text));
  }

  lemma CandidatesGrow(text: Text, more: Text, both: Text)
    requires both == text + more && more != [] && Spans(both) == Spans(text) + [Span(|text|, |both|)]
    ensures Candidates(both) == Candidates(text) + [more]
  {
    hide Run;
    SpansInRange(text);
    SameTexts(text, more, Spans(text));
    OneMoreSpan(both, Spans(text), Span(|text|, |both|));
    assert both[|text|..|both|] == more;
  }

  lemma OneMoreElement(text: Text, e: Element)
    requires Whole(text).state == START && GoodElement(e)
    ensures Whole(text + ElementText(e)).state == START
    ensures Candidates(text + ElementText(e))
      == if e.Object? then Candidates(text) + [ObjectText(e.pieces)] else Candidates(text)
  {
    hide Run;
    var more := ElementText(e);
    RunElement(Whole(text), |text|, e);
    RunConcat(BEGIN, 0, text, more);
    if e.Object? {
      CandidatesGrow(text, more, text + more);
    } else {
      CandidatesStay(text, more);
    }
  }

  /**
   Exactness: in a text that interleaves filler with objects, the candidates are exactly the
   objects, in order, however deep they nest and whatever their strings hold.
   */
  lemma {:induction false} FindsExactlyTheObjects(doc: seq<Element>)
    requires GoodDocument(doc)
    ensures Whole(DocumentText(doc)).state == START
    ensures Candidates(DocumentText(doc)) == ObjectTexts(doc)
  {
    if doc != [] {
      var init, last := doc[..|doc| - 1], doc[|doc| - 1];
      FindsExactlyTheObjects(init);
      OneMoreElement(DocumentText(init), last);
    }
  }

  // JSON

  /** A JSON text (RFC 8259): a value, with the white space around it. */
  datatype Json = Json(before: Text, value: Value, after: Text)

  /** A literal name or a number, a string, an array or an object; `gap` is white space after the opening bracket. */
  datatype Value =
    | Literal(text: Text)
    | Str(chars: Chars)
    | Arr(gap: Text, items: Items)
    | Obj(gap: Text, members: Members)

  datatype Items = NoItems | Item(json: Json, rest: Items)

  datatype Members = NoMembers | Member(before: Text, name: Chars, after: Text, json: Json, rest: Members)

  const COMMA := 44
  const COLON := 58
  const OPEN_BRACKET := 91
  const CLOSE_BRACKET := 93

  /** No quote or brace: white space, and what literals are made of (sections 2, 3 and 6 of RFC 8259). */
  predicate Bare(t: Text) {
    forall k :: 0 <= k < |t| ==> t[k] != QUOTE && t[k] != OPEN && t[k] != CLOSE
  }

  predicate WellFormed(j: Json) {
    Bare(j.before) && Bare(j.after) && WellFormedValue(j.value)
  }

  predicate WellFormedValue(v: Value) {
    match v
    case Literal(text) => Bare(text)
    case Str(chars) => GoodChars(chars)
    case Arr(gap, items) => Bare(gap) && WellFormedItems(items)
    case Obj(gap, members) => Bare(gap) && WellFormedMembers(members)
  }

  predicate WellFormedItems(items: Items) {
    items.Item? ==> WellFormed(items.json) && WellFormedItems(items.rest)
  }

  predicate WellFormedMembers(m: Members) {
    m.Member? ==>
      Bare(m.before) && GoodChars(m.name) && Bare(m.after) && WellFormed(m.json) && WellFormedMembers(m.rest)
  }

  function JsonText(j: Json): Text {
    j.before + ValueText(j.value) + j.after
  }

  function ValueText(v: Value): Text {
    match v
    case Literal(text) => text
    case Str(chars) => StringText(chars)
    case Arr(gap, items) => [OPEN_BRACKET] + (gap + ItemsText(items)) + [CLOSE_BRACKET]
    case Obj(gap, members) => [OPEN] + (gap + MembersText(members)) + [CLOSE]
  }

  function Separator(last: bool): Text {
    if last then [] else [COMMA]
  }

  function ItemsText(items: Items): Text {
    match items
    case NoItems => []
    case Item(json, rest) => JsonText(json) + Separator(rest.NoItems?) + ItemsText(rest)
  }

  function MembersText(members: Members): Text {
    match members
    case NoMembers => []
    case Member(before, name, after, json, rest) =>
      before + StringText(name) + after + [COLON] + JsonText(json) + Separator(rest.NoMembers?) + MembersText(rest)
  }

  /** The text is that of well-formed pieces. */
  ghost predicate IsPieces(t: Text) {
    exists p :: Good(p) && PiecesText(p) == t
  }

  function Append(p: Pieces, q: Pieces): Pieces {
    match p
    case NoPieces => q
    case Plain(u, rest) => Plain(u, Append(rest, q))
    case Quoted(chars, rest) => Quoted(chars, Append(rest, q))
    case Braced(inner, rest) => Braced(inner, Append(rest, q))
  }

  lemma Associate(a: Text, b: Text, c: Text)
    ensures a + (b + c) == a + b + c
  {
  }

  lemma {:induction false} PiecesAppend(p: Pieces, q: Pieces)
    requires Good(p) && Good(q)
    ensures Good(Append(p, q)) && PiecesText(Append(p, q)) == PiecesText(p) + PiecesText(q)
  {
    if !p.NoPieces? {
      PiecesAppend(p.rest, q);
      Associate(Head(p), PiecesText(p.rest), PiecesText(q));
    }
  }

  lemma TwoPieces(a: Text, b: Text)
    requires IsPieces(a) && IsPieces(b)
    ensures IsPieces(a + b)
  {
    var p :| Good(p) && PiecesText(p) == a;
    var q :| Good(q) && PiecesText(q) == b;
    PiecesAppend(p, q);
  }

  lemma StringPieces(chars: Chars)
    requires GoodChars(chars)
    ensures IsPieces(StringText(chars))
  {
    var p := Quoted(chars, NoPieces);
    assert Good(p) && PiecesText(p) == StringText(chars) + PiecesText(NoPieces);
    assert PiecesText(NoPieces) == [];
    hide PiecesText, Good, StringText;
    assert StringText(chars) + [] == StringText(chars);
  }

  lemma BracedPieces(t: Text)
    requires IsPieces(t)
    ensures IsPieces([OPEN] + t + [CLOSE])
  {
    var p :| Good(p) && PiecesText(p) == t;
    var braced := Braced(p, NoPieces);
    assert PiecesText(NoPieces) == [];
    assert PiecesText(braced) == [OPEN] + PiecesText(p) + [CLOSE];
    assert Good(braced);
  }

  lemma {:induction false} BarePieces(t: Text)
    requires Bare(t)
    ensures IsPieces(t)
  {
    if t == [] {
      assert Good(NoPieces) && PiecesText(NoPieces) == t;
    } else {
      BarePieces(t[1..]);
      var p :| Good(p) && PiecesText(p) == t[1..];
      assert Good(Plain(t[0], p)) && PiecesText(Plain(t[0], p)) == [t[0]] + t[1..] == t;
    }
  }

  lemma {:induction false} JsonPieces(j: Json)
    requires WellFormed(j)
    ensures IsPieces(JsonText(j))
  {
    BarePieces(j.before);
    ValuePieces(j.value);
    BarePieces(j.after);
    TwoPieces(j.before, ValueText(j.value));
    TwoPieces(j.before + ValueText(j.value), j.after);
  }

  lemma {:induction false} ValuePieces(v: Value)
    requires WellFormedValue(v)
    ensures IsPieces(ValueText(v))
    ensures v.Obj? ==> IsPieces(v.gap + MembersText(v.members))
  {
    match v
    case Literal(text) => BarePieces(text);
    case Str(chars) => StringPieces(chars);
    case Arr(gap, items) =>
      BarePieces(gap);
      ItemsPieces(items);
      TwoPieces(gap, ItemsText(items));
      BarePieces([OPEN_BRACKET]);
      BarePieces([CLOSE_BRACKET]);
      TwoPieces([OPEN_BRACKET], gap + ItemsText(items));
      TwoPieces([OPEN_BRACKET] + (gap + ItemsText(items)), [CLOSE_BRACKET]);
    case Obj(gap, members) =>
      BarePieces(gap);
      MembersPieces(members);
      TwoPieces(gap, MembersText(members));
      BracedPieces(gap + MembersText(members));
  }

  lemma {:induction false} ItemsPieces(items: Items)
    requires WellFormedItems(items)
    ensures IsPieces(ItemsText(items))
  {
    BarePieces([]);
    if items.Item? {
      var comma := Separator(items.rest.NoItems?);
      JsonPieces(items.json);
      BarePieces(comma);
      ItemsPieces(items.rest);
      TwoPieces(JsonText(items.json), comma);
      TwoPieces(JsonText(items.json) + comma, ItemsText(items.rest));
    }
  }

  lemma {:induction false} MembersPieces(m: Members)
    requires WellFormedMembers(m)
    ensures IsPieces(MembersText(m))
  {
    BarePieces([]);
    if m.Member? {
      var comma := Separator(m.rest.NoMembers?);
      BarePieces(m.before);
      StringPieces(m.name);
      BarePieces(m.after);
      BarePieces([COLON]);
      JsonPieces(m.json);
      BarePieces(comma);
      MembersPieces(m.rest);
      TwoPieces(m.before, StringText(m.name));
      TwoPieces(m.before + StringText(m.name), m.after);
      TwoPieces(m.before + StringText(m.name) + m.after, [COLON]);
      TwoPieces(m.before + StringText(m.name) + m.after + [COLON], JsonText(m.json));
      TwoPieces(m.before + StringText(m.name) + m.after + [COLON] + JsonText(m.json), comma);
      TwoPieces(m.before + StringText(m.name) + m.after + [COLON] + JsonText(m.json) + comma, MembersText(m.rest));
    }
  }

  /** Output that prints JSON objects among other text without quotes or opening braces. */
  datatype Output = Noise(text: Text) | Printed(value: Value)

  predicate GoodOutput(o: Output) {
    match o
    case Noise(text) => forall k :: 0 <= k < |text| ==> text[k] != QUOTE && text[k] != OPEN
    case Printed(value) => value.Obj? && WellFormedValue(value)
  }

  function OutputText(outputs: seq<Output>): Text {
    if outputs == [] then []
    else
      var last := outputs[|outputs| - 1];
      OutputText(outputs[..|outputs| - 1]) + if last.Noise? then last.text else ValueText(last.value)
  }

  function PrintedTexts(outputs: seq<Output>): seq<Text> {
    if outputs == [] then []
    else
      var last := outputs[|outputs| - 1];
      PrintedTexts(outputs[..|outputs| - 1]) + if last.Printed? then [ValueText(last.value)] else []
  }

  /** Noise adds no candidate. */
  lemma {:induction false} NoiseIsSkipped(text: Text, noise: Text)
    requires Whole(text).state == START && GoodOutput(Noise(noise))
    ensures Whole(text + noise).state == START && Candidates(text + noise) == Candidates(text)
  {
    if noise == [] {
      assert text + noise == text;
    } else {
      var init, u := noise[..|noise| - 1], noise[|noise| - 1];
      var before := text + init;
      NoiseIsSkipped(text, init);
      assert ElementText(Filler(u)) == [u] && before + [u] == text + noise;
      OneMoreElement(before, Filler(u));
    }
  }

  lemma PrintedIsFound(text: Text, value: Value)
    requires Whole(text).state == START && GoodOutput(Printed(value))
    ensures Whole(text + ValueText(value)).state == START
    ensures Candidates(text + ValueText(value)) == Candidates(text) + [ValueText(value)]
  {
    ValuePieces(value);
    var p :| Good(p) && PiecesText(p) == value.gap + MembersText(value.members);
    OneMoreElement(text, Object(p));
    assert ObjectText(p) == ValueText(value);
  }

  /** Every JSON object printed among such text is found, whole and in order, and nothing else is. */
  lemma {:induction false} FindsEveryPrintedObject(outputs: seq<Output>)
    requires forall k :: 0 <= k < |outputs| ==> GoodOutput(outputs[k])
    ensures Whole(OutputText(outputs)).state == START
    ensures Candidates(OutputText(outputs)) == PrintedTexts(outputs)
  {
    if outputs != [] {
      var init, last := outputs[..|outputs| - 1], outputs[|outputs| - 1];
      FindsEveryPrintedObject(init);
      if last.Noise? {
        NoiseIsSkipped(OutputText(init), last.text);
      } else {
        PrintedIsFound(OutputText(init), last.value);
      }
    }
  }

  // The scanner

  /** The candidates that parse, parsed. */
  function Parsed<T>(candidates: seq<Text>, parse: Text -> Option<T>): seq<T> {
    if candidates == [] then []
    else
      var last := parse(candidates[|candidates| - 1]);
      Parsed(candidates[..|candidates| - 1], parse) + if last.Some? then [last.value] else []
  }

  lemma OneMoreParsed<T>(candidates: seq<Text>, t: Text, parse: Text -> Option<T>)
    ensures Parsed(candidates + [t], parse)
      == Parsed(candidates, parse) + if parse(t).Some? then [parse(t).value] else []
  {
    assert (candidates + [t])[..|candidates|] == candidates;
  }

  /** The scan of the first `i` units. */
  function Prefix(text: Text, i: nat): Out
    requires i <= |text|
  {
    if i == 0 then BEGIN else Feed(Prefix(text, i - 1), i - 1, text[i - 1])
  }

  lemma {:induction false} PrefixIsRun(text: Text, i: nat)
    requires i <= |text|
    ensures Prefix(text, i) == Whole(text[..i])
  {
    if i > 0 {
      PrefixIsRun(text, i - 1);
      RunOne(BEGIN, 0, text[..i - 1], text[i - 1]);
      assert text[..i] == text[..i - 1] + [text[i - 1]];
    }
  }

  lemma OneMoreCandidate<T>(text: Text, spans: seq<Span>, span: Span, parse: Text -> Option<T>)
    requires InRange(spans, |text|) && 0 <= span.from < span.to <= |text|
    ensures InRange(spans + [span], |text|)
    ensures var parsed := parse(text[span.from..span.to]);
      Parsed(CandidateTexts(text, spans + [span]), parse)
      == Parsed(CandidateTexts(text, spans), parse) + if parsed.Some? then [parsed.value] else []
  {
    OneMoreSpan(text, spans, span);
    OneMoreParsed(CandidateTexts(text, spans), text[span.from..span.to], parse);
  }

  lemma ClosesInRange(text: Text, i: nat)
    requires i < |text| && Closes(Prefix(text, i).state, text[i])
    ensures 0 <= Prefix(text, i).state.start <= i
  {
    PrefixIsRun(text, i);
    SpansAreCandidates(text[..i]);
  }

  /** A closing brace that ends a candidate adds what it parses to; every other unit adds nothing. */
  lemma OneMoreUnit<T>(text: Text, i: nat, parse: Text -> Option<T>)
    requires i < |text| && InRange(Prefix(text, i).spans, |text|)
    ensures var o := Prefix(text, i); var next := Prefix(text, i + 1);
      && next.state == Next(o.state, i, text[i])
      && if Closes(o.state, text[i]) then
           && 0 <= o.state.start <= i && InRange(next.spans, |text|)
           && var parsed := parse(text[o.state.start..i + 1]);
              Parsed(CandidateTexts(text, next.spans), parse)
              == Parsed(CandidateTexts(text, o.spans), parse) + if parsed.Some? then [parsed.value] else []
         else next.spans == o.spans
  {
    var o := Prefix(text, i);
    if Closes(o.state, text[i]) {
      ClosesInRange(text, i);
      OneMoreCandidate(text, o.spans, Span(o.state.start, i + 1), parse);
    }
  }

  method FindJsonObjects<T>(text: Text, parse: Text -> Option<T>) returns (objects: seq<T>)
    ensures objects == Parsed(Candidates(text), parse)
  {
    objects := [];
    var depth: nat, start, inString, escape := 0, -1, false, false;
    var i := 0;
    while i < |text|
      invariant i <= |text| && Prefix(text, i).state == Scan(depth, start, inString, escape)
      invariant InRange(Prefix(text, i).spans, |text|)
      invariant objects == Parsed(CandidateTexts(text, Prefix(text, i).spans), parse)
    {
      var u := text[i];
      OneMoreUnit(text, i, parse);
      if inString {
        if escape {
          escape := false;
        } else if u == BACKSLASH {
          escape := true;
        } else if u == QUOTE {
          inString := false;
        }
      } else if u == QUOTE {
        inString := true;
      } else if u == OPEN {
        if depth == 0 {
          start := i;
        }
        depth := depth + 1;
      } else if u == CLOSE && depth > 0 {
        depth := depth - 1;
        if depth == 0 && start != -1 {
          var parsed := parse(text[start..i + 1]);
          if parsed.Some? {
            objects := objects + [parsed.value];
          }
          start := -1;
        }
      }
      i := i + 1;
    }
    PrefixIsRun(text, i);
    assert text[..i] == text;
  }
}
