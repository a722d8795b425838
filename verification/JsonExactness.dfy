/**
 What the scanner finds in an arbitrary text, in terms of the grammar of braces and strings alone:
 every text is a document followed by an unfinished object or string, and the candidates are the
 objects of that document.
 */
module JsonExactness {
  import opened JsonScanner

  /** A text taken apart: a document, the objects still open, outermost first, and the string still open. */
  datatype Parse = Parse(doc: seq<Element>, levels: seq<Pieces>, chars: Chars)

  function StackText(levels: seq<Pieces>): Text {
    if levels == [] then []
    else StackText(levels[..|levels| - 1]) + ([OPEN] + PiecesText(levels[|levels| - 1]))
  }

  function TailText(s: Scan, chars: Chars): Text {
    if !s.inString then []
    else if s.escape then [QUOTE] + CharsText(chars) + [BACKSLASH]
    else [QUOTE] + CharsText(chars)
  }

  predicate AllGood(levels: seq<Pieces>) {
    forall k :: 0 <= k < |levels| ==> Good(levels[k])
  }

  predicate GoodParse(p: Parse) {
    GoodDocument(p.doc) && AllGood(p.levels) && GoodChars(p.chars)
  }

  /** `p` takes `t` apart, and the scanner has found what it finds in the document. */
  ghost predicate TakesApart(p: Parse, t: Text, o: Out) {
    && GoodParse(p) && |p.levels| == o.state.depth
    && t == DocumentText(p.doc) + StackText(p.levels) + TailText(o.state, p.chars)
    && o.spans == Spans(DocumentText(p.doc))
  }

  // Growing a parse by one unit

  function AddChar(chars: Chars, last: Chars): Chars {
    match chars
    case NoChars => last
    case Raw(u, rest) => Raw(u, AddChar(rest, last))
    case Escaped(u, rest) => Escaped(u, AddChar(rest, last))
  }

  lemma {:induction false} AddedChar(chars: Chars, last: Chars)
    requires GoodChars(chars) && GoodChars(last)
    ensures GoodChars(AddChar(chars, last)) && CharsText(AddChar(chars, last)) == CharsText(chars) + CharsText(last)
  {
    match chars
    case NoChars =>
    case Raw(u, rest) =>
      AddedChar(rest, last);
      Associate([u], CharsText(rest), CharsText(last));
    case Escaped(u, rest) =>
      AddedChar(rest, last);
      Associate([BACKSLASH, u], CharsText(rest), CharsText(last));
  }

  /** One more piece: at the end of the innermost open object, or of the document when none is open. */
  function AddPiece(p: Parse, piece: Pieces, element: Element): Parse {
    if p.levels == [] then p.(doc := p.doc + [element], chars := NoChars)
    else
      var n := |p.levels| - 1;
      p.(levels := p.levels[..n] + [Append(p.levels[n], piece)], chars := NoChars)
  }

  lemma OneMoreLevel(levels: seq<Pieces>, p: Pieces)
    ensures StackText(levels + [p]) == StackText(levels) + ([OPEN] + PiecesText(p))
  {
    assert (levels + [p])[..|levels|] == levels;
  }

  lemma GrownLevel(levels: seq<Pieces>, piece: Pieces)
    requires levels != [] && AllGood(levels) && Good(piece)
    ensures var n := |levels| - 1; var grown := levels[..n] + [Append(levels[n], piece)];
      AllGood(grown) && StackText(grown) == StackText(levels) + PiecesText(piece)
  {
    var n := |levels| - 1;
    var below, last := StackText(levels[..n]), PiecesText(levels[n]);
    PiecesAppend(levels[n], piece);
    OneMoreLevel(levels[..n], Append(levels[n], piece));
    Associate([OPEN], last, PiecesText(piece));
    Associate(below, [OPEN] + last, PiecesText(piece));
  }

  lemma OneMoreInDocument(doc: seq<Element>, e: Element)
    requires GoodDocument(doc) && GoodElement(e)
    ensures GoodDocument(doc + [e]) && DocumentText(doc + [e]) == DocumentText(doc) + ElementText(e)
  {
    assert (doc + [e])[..|doc|] == doc;
  }

  lemma NothingBehind(t: Text)
    ensures t + [] == t
  {
  }

  /** A complete piece is added; a text that ends outside all objects is a document from then on. */
  lemma AddedPiece(p: Parse, t: Text, piece: Pieces, element: Element, after: Text, next: Out)
    requires GoodParse(p) && Good(piece) && GoodElement(element)
    requires t == DocumentText(p.doc) + StackText(p.levels) && after == t + PiecesText(piece)
    requires p.levels == [] ==> ElementText(element) == PiecesText(piece)
    requires next == Whole(after) && next.state.depth == |p.levels| && !next.state.inString
    requires p.levels != [] ==> next.spans == Spans(DocumentText(p.doc))
    ensures TakesApart(AddPiece(p, piece, element), after, next)
  {
    assert StackText([]) == [];
    hide Run, DocumentText, StackText, PiecesText, ElementText;
    var q := AddPiece(p, piece, element);
    if p.levels == [] {
      OneMoreInDocument(p.doc, element);
      NothingBehind(DocumentText(p.doc));
      NothingBehind(after);
    } else {
      GrownLevel(p.levels, piece);
      Associate(DocumentText(p.doc), StackText(p.levels), PiecesText(piece));
      NothingBehind(after);
    }
  }

  lemma StringGrows(p: Parse, init: Text, u: int, o: Out) returns (q: Parse)
    requires TakesApart(p, init, o) && o == Whole(init) && o.state.inString
    requires o.state.escape || u != QUOTE
    ensures TakesApart(q, init + [u], Feed(o, |init|, u))
  {
    q := p;
    var before := DocumentText(p.doc) + StackText(p.levels);
    var tail := TailText(o.state, p.chars);
    Associate(before, tail, [u]);
    if o.state.escape {
      q := p.(chars := AddChar(p.chars, Escaped(u, NoChars)));
      AddedChar(p.chars, Escaped(u, NoChars));
      assert CharsText(Escaped(u, NoChars)) == [BACKSLASH, u];
      assert tail + [u] == [QUOTE] + (CharsText(p.chars) + [BACKSLASH, u]);
    } else if u == BACKSLASH {
      assert tail + [u] == [QUOTE] + CharsText(p.chars) + [BACKSLASH];
    } else {
      q := p.(chars := AddChar(p.chars, Raw(u, NoChars)));
      AddedChar(p.chars, Raw(u, NoChars));
      assert CharsText(Raw(u, NoChars)) == [u];
      assert tail + [u] == [QUOTE] + (CharsText(p.chars) + [u]);
    }
  }

  lemma StringEnds(p: Parse, init: Text, o: Out) returns (q: Parse)
    requires TakesApart(p, init, o) && o == Whole(init) && o.state.inString && !o.state.escape
    ensures TakesApart(q, init + [QUOTE], Feed(o, |init|, QUOTE))
  {
    var piece, element := Quoted(p.chars, NoPieces), QuotedFiller(p.chars);
    var before := DocumentText(p.doc) + StackText(p.levels);
    assert PiecesText(NoPieces) == [];
    assert PiecesText(piece) == StringText(p.chars);
    assert before + ([QUOTE] + CharsText(p.chars)) + [QUOTE] == before + StringText(p.chars);
    RunOne(BEGIN, 0, init, QUOTE);
    q := AddPiece(p, piece, element);
    AddedPiece(p, before, piece, element, init + [QUOTE], Feed(o, |init|, QUOTE));
  }

  lemma StringBegins(p: Parse, init: Text, o: Out) returns (q: Parse)
    requires TakesApart(p, init, o) && !o.state.inString && !o.state.escape
    ensures TakesApart(q, init + [QUOTE], Feed(o, |init|, QUOTE))
  {
    q := p.(chars := NoChars);
    assert [QUOTE] + CharsText(NoChars) == [QUOTE];
  }

  lemma ObjectBegins(p: Parse, init: Text, o: Out) returns (q: Parse)
    requires TakesApart(p, init, o) && !o.state.inString
    ensures TakesApart(q, init + [OPEN], Feed(o, |init|, OPEN))
  {
    q := p.(levels := p.levels + [NoPieces]);
    OneMoreLevel(p.levels, NoPieces);
    assert [OPEN] + PiecesText(NoPieces) == [OPEN];
    Associate(DocumentText(p.doc), StackText(p.levels), [OPEN]);
  }

  lemma LevelCloses(doc: Text, outer: Text, inner: Text)
    ensures doc + (outer + ([OPEN] + inner)) + [CLOSE] == doc + outer + ([OPEN] + inner + [CLOSE])
  {
  }

  lemma BracedText(last: Pieces)
    ensures PiecesText(Braced(last, NoPieces)) == ObjectText(last)
  {
    assert PiecesText(NoPieces) == [];
    NothingBehind(ObjectText(last));
  }

  lemma ObjectEnds(p: Parse, init: Text, o: Out) returns (q: Parse)
    requires TakesApart(p, init, o) && o == Whole(init) && !o.state.inString && o.state.depth > 0
    ensures TakesApart(q, init + [CLOSE], Feed(o, |init|, CLOSE))
  {
    hide Run, DocumentText, StackText, PiecesText;
    var n := |p.levels| - 1;
    var outer, last := p.(levels := p.levels[..n]), p.levels[n];
    var doc, below := DocumentText(p.doc), StackText(outer.levels);
    OneMoreLevel(outer.levels, last);
    assert p.levels == outer.levels + [last];
    NothingBehind(doc + StackText(p.levels));
    LevelCloses(doc, below, PiecesText(last));
    BracedText(last);
    RunOne(BEGIN, 0, init, CLOSE);
    q := AddPiece(outer, Braced(last, NoPieces), Object(last));
    AddedPiece(outer, doc + below, Braced(last, NoPieces), Object(last), init + [CLOSE], Feed(o, |init|, CLOSE));
  }

  lemma PlainUnit(p: Parse, init: Text, u: int, o: Out) returns (q: Parse)
    requires TakesApart(p, init, o) && o == Whole(init) && !o.state.inString
    requires u != QUOTE && u != OPEN && (u == CLOSE ==> o.state.depth == 0)
    ensures TakesApart(q, init + [u], Feed(o, |init|, u))
  {
    hide Run;
    RunOne(BEGIN, 0, init, u);
    if p.levels == [] {
      q := p.(doc := p.doc + [Filler(u)]);
      OneMoreInDocument(p.doc, Filler(u));
      assert init == DocumentText(p.doc);
      assert init + [u] == DocumentText(q.doc);
      assert init + [u] == DocumentText(q.doc) + StackText([]) + [];
    } else {
      var piece := Plain(u, NoPieces);
      assert PiecesText(NoPieces) == [];
      assert PiecesText(piece) == [u];
      assert init == DocumentText(p.doc) + StackText(p.levels);
      q := AddPiece(p, piece, Filler(u));
      AddedPiece(p, init, piece, Filler(u), init + [u], Feed(o, |init|, u));
    }
  }

  lemma OneMoreUnitApart(p: Parse, init: Text, u: int, o: Out) returns (q: Parse)
    requires TakesApart(p, init, o) && o == Whole(init) && (o.state.escape ==> o.state.inString)
    ensures TakesApart(q, init + [u], Feed(o, |init|, u))
  {
    if o.state.inString {
      if o.state.escape || u != QUOTE {
        q := StringGrows(p, init, u, o);
      } else {
        q := StringEnds(p, init, o);
      }
    } else if u == QUOTE {
      q := StringBegins(p, init, o);
    } else if u == OPEN {
      q := ObjectBegins(p, init, o);
    } else if u == CLOSE && o.state.depth > 0 {
      q := ObjectEnds(p, init, o);
    } else {
      q := PlainUnit(p, init, u, o);
    }
  }

  lemma NothingApart() returns (p: Parse)
    ensures TakesApart(p, [], Whole([]))
  {
    p := Parse([], [], NoChars);
    assert DocumentText([]) + StackText([]) + TailText(START, NoChars) == [];
  }

  lemma {:induction false} EveryTextTakenApart(t: Text) returns (p: Parse)
    ensures TakesApart(p, t, Whole(t))
  {
    hide Run, TakesApart;
    if t == [] {
      p := NothingApart();
    } else {
      var init, u := t[..|t| - 1], t[|t| - 1];
      var before := EveryTextTakenApart(init);
      SpansAreCandidates(init);
      p := OneMoreUnitApart(before, init, u, Whole(init));
      RunOne(BEGIN, 0, init, u);
      assert init + [u] == t;
    }
  }

  // What is found

  ghost predicate IsDocument(t: Text) {
    exists doc :: GoodDocument(doc) && DocumentText(doc) == t
  }

  ghost predicate IsObjectText(t: Text) {
    exists p :: Good(p) && ObjectText(p) == t
  }

  /**
   Every text is a document, followed by objects and a string that it leaves open; and whatever the
   text, the candidates are exactly the objects of the document, in order.
   */
  lemma CandidatesOfEveryText(t: Text) returns (p: Parse)
    ensures GoodParse(p) && |p.levels| == Whole(t).state.depth
    ensures t == DocumentText(p.doc) + StackText(p.levels) + TailText(Whole(t).state, p.chars)
    ensures Candidates(t) == ObjectTexts(p.doc)
  {
    p := EveryTextTakenApart(t);
    var d := DocumentText(p.doc);
    var rest := StackText(p.levels) + TailText(Whole(t).state, p.chars);
    Associate(d, StackText(p.levels), TailText(Whole(t).state, p.chars));
    CandidatesStay(d, rest);
    FindsExactlyTheObjects(p.doc);
  }

  /** A text ends outside all strings and braces exactly when it is a document. */
  lemma OutsideIff(t: Text)
    ensures Whole(t).state == START <==> IsDocument(t)
  {
    if Whole(t).state == START {
      var p := EveryTextTakenApart(t);
      assert DocumentText(p.doc) == t;
    }
    if IsDocument(t) {
      var doc :| GoodDocument(doc) && DocumentText(doc) == t;
      FindsExactlyTheObjects(doc);
    }
  }

  /** A text scans as one candidate exactly when it is one balanced object text, braces in strings aside. */
  lemma CandidateIff(t: Text)
    ensures IsCandidate(t) <==> IsObjectText(t)
  {
    if IsCandidate(t) {
      CandidateIsObject(t);
    }
    if IsObjectText(t) {
      var p :| Good(p) && ObjectText(p) == t;
      RunObject(BEGIN, 0, p);
    }
  }

  lemma CandidateIsObject(t: Text)
    requires IsCandidate(t)
    ensures IsObjectText(t)
  {
    hide Run;
    var p := EveryTextTakenApart(t);
    assert DocumentText(p.doc) == t;
    NothingFoundInNothing();
    var init, last := p.doc[..|p.doc| - 1], p.doc[|p.doc| - 1];
    var before := DocumentText(init);
    FindsExactlyTheObjects(init);
    RunElement(Whole(before), |before|, last);
    RunConcat(BEGIN, 0, before, ElementText(last));
    if last.Object? {
      SingleSpan(Spans(before), Span(|before|, |t|), Span(0, |t|));
      assert before == [];
    } else {
      NotFoundYet(before, |t|);
    }
  }

  lemma NotFoundYet(t: Text, n: int)
    requires n > |t|
    ensures Spans(t) != [Span(0, n)]
  {
    SpansInRange(t);
    if |Spans(t)| == 1 {
      assert Spans(t)[0].to <= |t|;
    }
  }

  lemma NothingFoundInNothing()
    ensures Whole([]) == BEGIN && DocumentText([]) == []
  {
  }

  lemma SingleSpan(spans: seq<Span>, last: Span, only: Span)
    requires spans + [last] == [only]
    ensures last == only
  {
    assert (spans + [last])[|spans|] == last;
  }

  /**
   The scanner finds a slice if and only if it is one balanced object text and what precedes it is a
   document; and it finds slices left to right without overlap.
   */
  lemma SpanIff(text: Text, span: Span)
    ensures InOrder(Spans(text), |text|)
    ensures span in Spans(text)
      <==> 0 <= span.from < span.to <= |text| && IsDocument(text[..span.from]) && IsObjectText(text[span.from..span.to])
  {
    FoundIffScannedAlone(text, span);
    if 0 <= span.from < span.to <= |text| {
      OutsideIff(text[..span.from]);
      CandidateIff(text[span.from..span.to]);
    }
  }
}
