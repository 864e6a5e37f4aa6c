/**
 What a Markdown reader finds in a text of segments, and exactly when it finds what docgen meant:
 every fence closed where docgen closes it, every heading and code block there, in order.
 */
module SegmentReading {
  import opened OneLineTypes
  import opened Markdown
  import opened Sequences
  import opened Document

  /** The text that a label or a comment copies into the document. */
  function Copied(s: Segment): string
    requires s.Label? || s.Comment?
  {
    if s.Label? then s.text else TrimSpace(s.doc)
  }

  function CopiedReading(s: Segment): Reading
    requires s.Label? || s.Comment?
  {
    Read(Lines(Copied(s)), START)
  }

  /** What a segment is meant to read as. A copied text may bring headings and blocks of its own. */
  function Blocks(s: Segment): seq<Block> {
    match s
    case Title(text) => [Heading(text)]
    case Fenced(ps) => [Code(AllLines(ps))]
    case _ => CopiedReading(s).blocks
  }

  /** A heading on one line; a copied text that closes every fence it opens; code that closes none. */
  predicate Safe(s: Segment) {
    match s
    case Title(text) => OneLine(text)
    case Fenced(ps) => CodeSafe(AllLines(ps))
    case _ => CopiedReading(s).state == Prose
  }

  predicate AllSafe(ss: seq<Segment>) {
    ss == [] || (Safe(ss[0]) && AllSafe(ss[1..]))
  }

  /** A label of one line, as docgen writes in front of a comment. */
  predicate Calm(s: Segment) {
    s.Label? && OneLine(s.text) && s.text != "" && s.text[0] == '*'
  }

  predicate MayStayOpen(s: Segment) {
    (s.Label? || s.Comment?) && !Calm(s)
  }

  predicate Restarts(s: Segment) {
    s.Title? || s.Fenced?
  }

  /** The layout all documents have: only a heading or code follows a text that may leave a fence open. */
  predicate Laid(ss: seq<Segment>) {
    ss == [] || (LaidFirst(ss) && Laid(ss[1..]))
  }

  predicate LaidFirst(ss: seq<Segment>)
    requires ss != []
  {
    && (ss[0].Title? ==> IsHeading(ss[0].text))
    && (|ss| > 1 && MayStayOpen(ss[0]) ==> Restarts(ss[1]))
  }

  /** A text that may stand in front of any other. */
  predicate Closed(ss: seq<Segment>) {
    ss != [] ==> !MayStayOpen(ss[|ss| - 1])
  }

  lemma LaidAppend(a: seq<Segment>, b: seq<Segment>)
    requires Laid(a) && Laid(b) && (Closed(a) || b == [] || Restarts(b[0]))
    ensures Laid(a + b)
    ensures b != [] && Closed(b) ==> Closed(a + b)
    ensures b == [] ==> a + b == a
  {
    LaidBoth(a, b);
    ClosedAppend(a, b);
  }

  lemma {:induction false} LaidBoth(a: seq<Segment>, b: seq<Segment>)
    requires Laid(a) && Laid(b) && (Closed(a) || b == [] || Restarts(b[0]))
    ensures Laid(a + b)
    decreases |a|
  {
    if a == [] {
      assert a + b == b;
    } else {
      var rest := a[1..];
      assert rest != [] ==> rest[|rest| - 1] == a[|a| - 1];
      LaidBoth(rest, b);
      LaidFirstAppend(a, b);
      assert (a + b)[1..] == rest + b;
    }
  }

  lemma LaidFirstAppend(a: seq<Segment>, b: seq<Segment>)
    requires a != [] && LaidFirst(a) && (Closed(a) || b == [] || Restarts(b[0]))
    ensures LaidFirst(a + b)
  {
    assert |a + b| > 1 ==> (a + b)[1] == if |a| > 1 then a[1] else b[0];
  }

  lemma ClosedAppend(a: seq<Segment>, b: seq<Segment>)
    ensures b != [] && Closed(b) ==> Closed(a + b)
    ensures b == [] ==> a + b == a
  {
  }

  lemma LaidOne(s: Segment)
    requires s.Title? ==> IsHeading(s.text)
    ensures Laid([s])
  {
    assert [s][1..] == [];
  }

  /** The lines of a text of segments. */
  function SegmentLines(ss: seq<Segment>): seq<string> {
    AllLines(FlatMap(Pieces, ss))
  }

  lemma SegmentLinesCons(s: Segment, ss: seq<Segment>)
    ensures SegmentLines([s] + ss) == AllLines(Pieces(s)) + SegmentLines(ss)
  {
    FlatMapAppend(Pieces, [s], ss);
    FlatMapThen(Pieces, [s], []);
    SeqNil(FlatMap(Pieces, [s]));
    SeqNil(Pieces(s));
    AllLinesAppend(Pieces(s), FlatMap(Pieces, ss));
  }

  lemma BlocksCons(s: Segment, ss: seq<Segment>)
    ensures FlatMap(Blocks, [s] + ss) == Blocks(s) + FlatMap(Blocks, ss)
  {
    assert ([s] + ss)[1..] == ss;
  }

  lemma PairLines(x: string)
    ensures AllLines([x]) == Lines(x)
    ensures AllLines([x, ""]) == Lines(x) + [""]
  {
  }

  lemma FencedLines(ps: seq<string>)
    ensures AllLines(Pieces(Fenced(ps))) == ["```go"] + (AllLines(ps) + ["```", ""])
  {
    OneLineLines("```go");
    OneLineLines("```");
    PairLines("```go");
    PairLines("```");
    AllLinesAppend(["```go"] + ps, ["```", ""]);
    AllLinesAppend(["```go"], ps);
  }

  /** The reading of a copied text with the empty line behind it. */
  lemma CopiedAdds(s: Segment)
    requires s.Label? || s.Comment?
    ensures Read(AllLines(Pieces(s)), START) == Blanked(CopiedReading(s))
  {
    PairLines(Copied(s));
    ReadAppend(Lines(Copied(s)), [""], START);
    BlankLine(CopiedReading(s));
  }

  /** A safe segment reads as meant, and leaves the reader in prose. */
  lemma SafeSegmentAdds(s: Segment)
    requires s.Title? ==> IsHeading(s.text)
    requires Safe(s)
    ensures Adds(AllLines(Pieces(s)), Blocks(s))
  {
    match s
    case Title(text) =>
      PairLines(text);
      OneLineLines(text);
      HeadingAdds(text);
    case Fenced(ps) =>
      FencedLines(ps);
      FencedAdds(AllLines(ps));
    case _ =>
      CopiedAdds(s);
  }

  lemma CalmIsSafe(s: Segment)
    requires Calm(s)
    ensures Safe(s) && Blocks(s) == []
  {
    OneLineLines(s.text);
    ProseAdds(s.text);
  }

  /** A reader of lines finds headings of one line, and keeps in a block no line that closes it. */
  predicate Readable(r: Reading) {
    && (forall b :: b in r.blocks && b.Heading? ==> OneLine(b.text))
    && (r.state.InCode? ==> NoneCloses(r.state.lines, r.state.fence))
  }

  lemma {:induction false} OnlyReadable(lines: seq<string>, r: Reading)
    requires (forall l :: l in lines ==> OneLine(l)) && Readable(r)
    ensures Readable(Read(lines, r))
    decreases |lines|
  {
    if lines != [] {
      assert lines[0] in lines;
      ReadableStep(lines[0], r);
      OnlyReadable(lines[1..], Step(lines[0], r));
    }
  }

  lemma ReadableStep(line: string, r: Reading)
    requires OneLine(line) && Readable(r)
    ensures Readable(Step(line, r))
  {
  }

  lemma {:induction false} LinesAreOneLine(s: string)
    ensures forall l :: l in Lines(s) ==> OneLine(l)
  {
    if s != "" {
      LinesAreOneLine(s[1..]);
      var r := Lines(s[1..]);
      assert r[0] in r;
      if s[0] != '\n' {
        forall l | l in Lines(s)
          ensures OneLine(l)
        {
          assert l == [s[0]] + r[0] || l in r[1..];
        }
      }
    }
  }

  lemma {:induction false} AllLinesAreOneLine(ps: seq<string>)
    ensures forall l :: l in AllLines(ps) ==> OneLine(l)
  {
    if ps != [] {
      LinesAreOneLine(ps[0]);
      AllLinesAreOneLine(ps[1..]);
    }
  }

  /** A heading that is not one line is never found. */
  lemma BrokenHeading(s: Segment, rest: seq<Segment>)
    requires s.Title? && !Safe(s)
    ensures Read(SegmentLines([s] + rest), START) != Reading(FlatMap(Blocks, [s] + rest), Prose)
  {
    AllLinesAreOneLine(FlatMap(Pieces, [s] + rest));
    OnlyReadable(SegmentLines([s] + rest), START);
    BlocksCons(s, rest);
    assert Heading(s.text) in FlatMap(Blocks, [s] + rest) by {
      assert (Blocks(s) + FlatMap(Blocks, rest))[0] == Heading(s.text);
    }
  }

  lemma FencedThen(ps: seq<string>, rest: seq<Segment>)
    ensures SegmentLines([Fenced(ps)] + rest) == ["```go"] + (AllLines(ps) + (["```", ""] + SegmentLines(rest)))
  {
    SegmentLinesCons(Fenced(ps), rest);
    FencedLines(ps);
    LinesRegroup(["```go"], AllLines(ps), ["```", ""], SegmentLines(rest));
  }

  lemma LinesRegroup(a: seq<string>, b: seq<string>, c: seq<string>, d: seq<string>)
    ensures (a + (b + c)) + d == a + (b + (c + d))
  {
  }

  /** Code that closes its own fence is cut short. */
  lemma BrokenCode(s: Segment, rest: seq<Segment>)
    requires s.Fenced? && !Safe(s)
    ensures Read(SegmentLines([s] + rest), START) != Reading(FlatMap(Blocks, [s] + rest), Prose)
  {
    FencedThen(s.pieces, rest);
    UnsafeFence(AllLines(s.pieces), ["```", ""] + SegmentLines(rest));
    BlocksCons(s, rest);
  }

  /** A text left open spoils what follows it. */
  lemma LeftOpen(ss: seq<Segment>, f: Fence, inside: seq<string>)
    requires ss != [] ==> Restarts(ss[0])
    requires NoneCloses(inside, f)
    ensures Read(SegmentLines(ss), Reading([], InCode(f, inside))) != Reading(FlatMap(Blocks, ss), Prose)
  {
    if ss == [] || ss[0].Title? {
      var k := CodeFound(SegmentLines(ss), f, inside);
      if ss != [] {
        assert ss == [ss[0]] + ss[1..];
        BlocksCons(ss[0], ss[1..]);
        assert FlatMap(Blocks, ss)[0].Heading?;
      }
    } else {
      var ps, rest := ss[0].pieces, ss[1..];
      assert ss == [Fenced(ps)] + rest;
      FencedThen(ps, rest);
      SwallowedFence(AllLines(ps), ["```", ""] + SegmentLines(rest), f, inside);
      BlocksCons(Fenced(ps), rest);
      assert FlatMap(Blocks, ss)[0] == Code(AllLines(ps));
    }
  }

  /** The same for a text that leaves HTML open. */
  lemma LeftInHtml(ss: seq<Segment>, kind: HtmlKind, inside: seq<string>)
    requires ss != [] ==> Restarts(ss[0])
    ensures Read(SegmentLines(ss), Reading([], InHtml(kind, inside))) != Reading(FlatMap(Blocks, ss), Prose)
  {
    HtmlFound(SegmentLines(ss), kind, inside);
    if ss != [] {
      assert ss == [ss[0]] + ss[1..];
      BlocksCons(ss[0], ss[1..]);
      assert !FlatMap(Blocks, ss)[0].Html?;
    }
  }

  lemma BrokenCopy(s: Segment, rest: seq<Segment>)
    requires (s.Label? || s.Comment?) && !Safe(s)
    requires rest != [] ==> Restarts(rest[0])
    ensures Read(SegmentLines([s] + rest), START) != Reading(FlatMap(Blocks, [s] + rest), Prose)
  {
    CopiedAdds(s);
    LinesAreOneLine(Copied(s));
    OnlyReadable(Lines(Copied(s)), START);
    var open := Blanked(CopiedReading(s));
    SegmentLinesCons(s, rest);
    ReadAppend(AllLines(Pieces(s)), SegmentLines(rest), START);
    ReadOnto(SegmentLines(rest), open.blocks, open.state);
    if open.state.InCode? {
      BlankClosesNothing(open.state.fence);
      LeftOpen(rest, open.state.fence, open.state.lines);
    } else {
      LeftInHtml(rest, open.state.kind, open.state.lines);
    }
    BlocksCons(s, rest);
    SameTail(open.blocks, Read(SegmentLines(rest), Reading([], open.state)).blocks, FlatMap(Blocks, rest));
  }

  lemma BlankClosesNothing(f: Fence)
    ensures !Closes("", f)
  {
  }

  lemma SameTail<T>(a: seq<T>, b: seq<T>, c: seq<T>)
    ensures a + b == a + c ==> b == c
  {
    assert b == (a + b)[|a|..] && c == (a + c)[|a|..];
  }

  lemma SafeFirst(s: Segment, rest: seq<Segment>)
    requires s.Title? ==> IsHeading(s.text)
    requires Safe(s)
    ensures Read(SegmentLines([s] + rest), START) == Reading(FlatMap(Blocks, [s] + rest), Prose)
       <==> Read(SegmentLines(rest), START) == Reading(FlatMap(Blocks, rest), Prose)
  {
    SafeSegmentAdds(s);
    SegmentLinesCons(s, rest);
    BlocksCons(s, rest);
    ReadAppend(AllLines(Pieces(s)), SegmentLines(rest), START);
    ReadOnto(SegmentLines(rest), Blocks(s), Prose);
    SameTail(Blocks(s), Read(SegmentLines(rest), START).blocks, FlatMap(Blocks, rest));
  }

  /** A text of segments reads as meant exactly when all its segments are safe. */
  lemma {:induction false} ReadsExactly(ss: seq<Segment>)
    requires Laid(ss)
    ensures Read(SegmentLines(ss), START) == Reading(FlatMap(Blocks, ss), Prose) <==> AllSafe(ss)
    decreases |ss|
  {
    if ss != [] {
      var s, rest := ss[0], ss[1..];
      assert ss == [s] + rest;
      if Calm(s) {
        CalmIsSafe(s);
      }
      if Safe(s) {
        ReadsExactly(rest);
        SafeFirst(s, rest);
      } else if s.Title? {
        BrokenHeading(s, rest);
      } else if s.Fenced? {
        BrokenCode(s, rest);
      } else {
        BrokenCopy(s, rest);
      }
    }
  }
}
