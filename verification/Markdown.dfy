/**
 A reader for the documents that docgen.go writes: it goes over the lines of a text and tells
 headings, fenced code and HTML from prose by the rules of the CommonMark Specification, sections
 "Fenced code blocks", "ATX headings" and "HTML blocks" (the kinds 1 to 5, which run over empty
 lines), and returns them in order.
 */
module Markdown {
  import opened OneLineTypes
  import opened Sequences

  /** The pieces of s between its line ends; there is always one. */
  function Lines(s: string): (r: seq<string>)
    ensures r != []
  {
    if s == "" then [""]
    else if s[0] == '\n' then [""] + Lines(s[1..])
    else var r := Lines(s[1..]); [[s[0]] + r[0]] + r[1..]
  }

  lemma {:induction false} OneLineLines(s: string)
    requires OneLine(s)
    ensures Lines(s) == [s]
  {
    if s != "" {
      OneLineLines(s[1..]);
      assert s == [s[0]] + s[1..];
    }
  }

  lemma {:induction false} LinesAppend(a: string, b: string)
    ensures Lines(a + ("\n" + b)) == Lines(a) + Lines(b)
    decreases |a|
  {
    if a == "" {
      LinesOfEnd(b);
      assert a + ("\n" + b) == "\n" + b;
    } else {
      LinesAppend(a[1..], b);
      LinesStep(a[0], a[1..]);
      LinesStep(a[0], a[1..] + ("\n" + b));
      assert a == [a[0]] + a[1..];
      assert a + ("\n" + b) == [a[0]] + (a[1..] + ("\n" + b));
      Push(a[0], Lines(a[1..]), Lines(b));
    }
  }

  function PushChar(c: char, ls: seq<string>): seq<string>
    requires ls != []
  {
    if c == '\n' then [""] + ls else [[c] + ls[0]] + ls[1..]
  }

  lemma LinesStep(c: char, s: string)
    ensures Lines([c] + s) == PushChar(c, Lines(s))
  {
    assert ([c] + s)[1..] == s;
  }

  lemma LinesOfEnd(b: string)
    ensures Lines("\n" + b) == [""] + Lines(b)
  {
    assert ("\n" + b)[1..] == b;
  }

  lemma Push(c: char, a: seq<string>, b: seq<string>)
    requires a != []
    ensures PushChar(c, a + b) == PushChar(c, a) + b
  {
    assert (a + b)[1..] == a[1..] + b;
  }

  /** Pieces of text, each put on a line of its own; a piece may itself hold line ends. */
  function Unlines(ps: seq<string>): string {
    if ps == [] then "" else ps[0] + ("\n" + Unlines(ps[1..]))
  }

  function AllLines(ps: seq<string>): seq<string> {
    if ps == [] then [] else Lines(ps[0]) + AllLines(ps[1..])
  }

  lemma {:induction false} UnlinesAppend(a: seq<string>, b: seq<string>)
    ensures Unlines(a + b) == Unlines(a) + Unlines(b)
    decreases |a|
  {
    if a == [] {
      assert a + b == b;
    } else {
      assert (a + b)[1..] == a[1..] + b;
      UnlinesAppend(a[1..], b);
      assert a[0] + ("\n" + (Unlines(a[1..]) + Unlines(b))) == (a[0] + ("\n" + Unlines(a[1..]))) + Unlines(b);
    }
  }

  lemma {:induction false} AllLinesAppend(a: seq<string>, b: seq<string>)
    ensures AllLines(a + b) == AllLines(a) + AllLines(b)
    decreases |a|
  {
    if a == [] {
      assert a + b == b;
    } else {
      assert (a + b)[1..] == a[1..] + b;
      AllLinesAppend(a[1..], b);
    }
  }

  lemma {:induction false} LinesUnlines(ps: seq<string>)
    ensures Lines(Unlines(ps)) == AllLines(ps) + [""]
  {
    if ps != [] {
      LinesUnlines(ps[1..]);
      LinesAppend(ps[0], Unlines(ps[1..]));
    }
  }

  datatype Block = Heading(text: string) | Code(lines: seq<string>) | Html(lines: seq<string>)

  /** A code fence: its mark, and how often it is repeated. */
  datatype Fence = Fence(mark: char, length: nat)

  /** The kinds of HTML blocks that end at a mark of their own. */
  datatype HtmlKind = RawText | Remark | Instruction | Doctype | CData

  datatype State = Prose | InCode(fence: Fence, lines: seq<string>) | InHtml(kind: HtmlKind, lines: seq<string>)

  datatype Reading = Reading(blocks: seq<Block>, state: State)

  /** How often c is repeated at the front of s. */
  function Repeats(c: char, s: string): (n: nat)
    ensures n <= |s|
  {
    if s == "" || s[0] != c then 0 else 1 + Repeats(c, s[1..])
  }

  predicate Blank(s: string) {
    forall i :: 0 <= i < |s| ==> s[i] == ' ' || s[i] == '\t'
  }

  /** A line without its indentation, which is up to three spaces; a deeper line starts no block. */
  function Unindented(line: string): (r: string)
    ensures |r| <= |line|
  {
    var n := Repeats(' ', line); if n <= 3 then line[n..] else ""
  }

  /** The fence that a line opens, if it opens one: the info string behind backquotes has none of them. */
  function Opens(line: string): (r: seq<Fence>)
    ensures |r| <= 1
  {
    var s := Unindented(line);
    if s == "" || s[0] !in {'`', '~'} then []
    else
      var n := Repeats(s[0], s);
      if n >= 3 && (s[0] == '`' ==> '`' !in s[n..]) then [Fence(s[0], n)] else []
  }

  /** Whether a line closes a fence: the same mark, at least as often, and nothing but blanks behind it. */
  predicate Closes(line: string, f: Fence) {
    var s := Unindented(line);
    var n := Repeats(f.mark, s);
    n >= 3 && n >= f.length && Blank(s[n..])
  }

  /** One to six number signs, then a blank or the end of the line. */
  predicate IsHeading(line: string) {
    var s := Unindented(line);
    var n := Repeats('#', s);
    1 <= n <= 6 && (n == |s| || s[n] == ' ' || s[n] == '\t')
  }

  function Lower(s: string): (r: string)
    ensures |r| == |s|
  {
    if s == "" then ""
    else [if 'A' <= s[0] <= 'Z' then s[0] - 'A' + 'a' else s[0]] + Lower(s[1..])
  }

  predicate Tag(s: string, tag: string) {
    "<" + tag <= s && (|s| == |tag| + 1 || s[|tag| + 1] in {' ', '\t', '>'})
  }

  /** The HTML block that a line starts, if it starts one. */
  function StartsHtml(line: string): (r: seq<HtmlKind>)
    ensures |r| <= 1
  {
    var s := Lower(Unindented(line));
    if "<!--" <= s then [Remark]
    else if "<?" <= s then [Instruction]
    else if "<![CDATA[" <= Unindented(line) then [CData]
    else if "<!" <= s && |s| > 2 && 'a' <= s[2] <= 'z' then [Doctype]
    else if Tag(s, "pre") || Tag(s, "script") || Tag(s, "style") || Tag(s, "textarea") then [RawText]
    else []
  }

  predicate Holds(s: string, mark: string) {
    exists i :: 0 <= i < |s| && mark <= s[i..]
  }

  /** Whether a line, which may be the first one, ends an HTML block. */
  predicate EndsHtml(line: string, kind: HtmlKind) {
    var s := Lower(line);
    match kind
    case RawText => Holds(s, "</pre>") || Holds(s, "</script>") || Holds(s, "</style>") || Holds(s, "</textarea>")
    case Remark => Holds(s, "-->")
    case Instruction => Holds(s, "?>")
    case Doctype => Holds(s, ">")
    case CData => Holds(s, "]]>")
  }

  function HtmlStep(line: string, blocks: seq<Block>, kind: HtmlKind, lines: seq<string>): Reading {
    if EndsHtml(line, kind) then Reading(blocks + [Html(lines + [line])], Prose)
    else Reading(blocks, InHtml(kind, lines + [line]))
  }

  function Step(line: string, r: Reading): Reading {
    match r.state
    case Prose =>
      if Opens(line) != [] then r.(state := InCode(Opens(line)[0], []))
      else if StartsHtml(line) != [] then HtmlStep(line, r.blocks, StartsHtml(line)[0], [])
      else if IsHeading(line) then r.(blocks := r.blocks + [Heading(line)])
      else r
    case InCode(f, lines) =>
      if Closes(line, f) then Reading(r.blocks + [Code(lines)], Prose)
      else r.(state := InCode(f, lines + [line]))
    case InHtml(kind, lines) => HtmlStep(line, r.blocks, kind, lines)
  }

  function Read(lines: seq<string>, r: Reading): Reading {
    if lines == [] then r else Read(lines[1..], Step(lines[0], r))
  }

  const START := Reading([], Prose)

  /** The reading of a text of terminated lines. */
  function ReadText(s: string): Reading {
    var ls := Lines(s); Read(ls[..|ls| - 1], START)
  }

  lemma ReadUnlines(ps: seq<string>)
    ensures ReadText(Unlines(ps)) == Read(AllLines(ps), START)
  {
    LinesUnlines(ps);
    assert (AllLines(ps) + [""])[..|AllLines(ps)|] == AllLines(ps);
  }

  lemma {:induction false} ReadAppend(a: seq<string>, b: seq<string>, r: Reading)
    ensures Read(a + b, r) == Read(b, Read(a, r))
    decreases |a|
  {
    if a == [] {
      assert a + b == b;
    } else {
      assert (a + b)[1..] == a[1..] + b;
      ReadAppend(a[1..], b, Step(a[0], r));
    }
  }

  lemma ReadCons(line: string, lines: seq<string>, r: Reading)
    ensures Read([line] + lines, r) == Read(lines, Step(line, r))
  {
    assert ([line] + lines)[1..] == lines;
  }

  lemma StepOnto(line: string, blocks: seq<Block>, state: State)
    ensures var one := Step(line, Reading([], state));
            Step(line, Reading(blocks, state)) == Reading(blocks + one.blocks, one.state)
  {
  }

  /** What was read before does not matter for what is read next. */
  lemma {:induction false} ReadOnto(lines: seq<string>, blocks: seq<Block>, state: State)
    ensures Read(lines, Reading(blocks, state))
         == Reading(blocks + Read(lines, Reading([], state)).blocks, Read(lines, Reading([], state)).state)
    decreases |lines|
  {
    if lines != [] {
      StepOnto(lines[0], blocks, state);
      var one := Step(lines[0], Reading([], state));
      ReadOnto(lines[1..], blocks + one.blocks, one.state);
      ReadOnto(lines[1..], one.blocks, one.state);
      Regroup(blocks, one.blocks, Read(lines[1..], Reading([], one.state)).blocks);
    }
  }

  /** Lines that bring a reader of prose back to prose, with what they hold. */
  predicate Adds(lines: seq<string>, blocks: seq<Block>) {
    Read(lines, START) == Reading(blocks, Prose)
  }

  /** The fence of docgen's own code blocks. */
  const DOCGEN := Fence('`', 3)

  predicate NoneCloses(lines: seq<string>, f: Fence) {
    forall i :: 0 <= i < |lines| ==> !Closes(lines[i], f)
  }

  /** Code that docgen can fence. */
  predicate CodeSafe(lines: seq<string>) {
    NoneCloses(lines, DOCGEN)
  }

  /** What a reader inside a block finds first: all lines up to the first that closes the block. */
  lemma {:induction false} CodeFound(lines: seq<string>, f: Fence, inside: seq<string>) returns (k: nat)
    ensures k <= |lines| && NoneCloses(lines[..k], f)
    ensures var r := Read(lines, Reading([], InCode(f, inside)));
            if k == |lines| then r == Reading([], InCode(f, inside + lines))
            else Closes(lines[k], f) && r.blocks != [] && r.blocks[0] == Code(inside + lines[..k])
    decreases |lines|
  {
    if lines == [] {
      k := 0;
      assert inside + lines == inside;
    } else if Closes(lines[0], f) {
      k := 0;
      assert inside + lines[..0] == inside;
      assert Step(lines[0], Reading([], InCode(f, inside))).blocks == [Code(inside)];
      ReadOnto(lines[1..], [Code(inside)], Prose);
    } else {
      var j := CodeFound(lines[1..], f, inside + [lines[0]]);
      k := j + 1;
      FirstLine(inside, lines, j);
      assert forall i :: 0 < i < k ==> lines[..k][i] == lines[1..][..j][i - 1];
    }
  }

  lemma FirstLine(inside: seq<string>, lines: seq<string>, j: nat)
    requires j < |lines|
    ensures lines[..j + 1] == [lines[0]] + lines[1..][..j]
    ensures inside + [lines[0]] + lines[1..] == inside + lines
    ensures inside + [lines[0]] + lines[1..][..j] == inside + lines[..j + 1]
  {
  }

  lemma {:induction false} RepeatsIs(c: char, marks: string, rest: string)
    requires forall i :: 0 <= i < |marks| ==> marks[i] == c
    requires rest == "" || rest[0] != c
    ensures Repeats(c, marks + rest) == |marks| && (marks + rest)[|marks|..] == rest
  {
    if marks == "" {
      assert marks + rest == rest;
    } else {
      assert (marks + rest)[1..] == marks[1..] + rest;
      RepeatsIs(c, marks[1..], rest);
    }
  }

  /** docgen's fences open and close what they are meant to. */
  lemma FenceLine()
    ensures Opens("```go") == [DOCGEN] && Closes("```", DOCGEN)
    ensures forall f :: !Closes("```go", f)
  {
    RepeatsIs('`', "```", "go");
    RepeatsIs('`', "```", "");
    assert "```" + "go" == "```go" && "```" + "" == "```";
    NotIndented("```go");
    NotIndented("```");
    forall f
      ensures !Closes("```go", f)
    {
      if f.mark == '`' {
        assert "go"[0] == 'g';
      }
    }
  }

  lemma NotIndented(line: string)
    requires line == "" || line[0] != ' '
    ensures Unindented(line) == line
  {
  }

  /** An empty line ends neither a code block nor an HTML block. */
  function Blanked(r: Reading): Reading {
    match r.state
    case Prose => r
    case InCode(f, lines) => r.(state := InCode(f, lines + [""]))
    case InHtml(kind, lines) => r.(state := InHtml(kind, lines + [""]))
  }

  lemma BlankLine(r: Reading)
    ensures Read([""], r) == Blanked(r)
  {
    assert [""][1..] == [];
    assert Read([""], r) == Read([], Step("", r));
  }

  lemma OpenFence(lines: seq<string>)
    ensures Read(["```go"] + lines, START) == Read(lines, Reading([], InCode(DOCGEN, [])))
  {
    FenceLine();
    ReadCons("```go", lines, START);
  }

  lemma CloseFence(lines: seq<string>)
    ensures Read(["```", ""], Reading([], InCode(DOCGEN, lines))) == Reading([Code(lines)], Prose)
  {
    FenceLine();
    assert ["```", ""] == ["```"] + [""];
    ReadCons("```", [""], Reading([], InCode(DOCGEN, lines)));
    BlankLine(Reading([Code(lines)], Prose));
  }

  /** From inside an HTML block, that block is what is found first. */
  lemma {:induction false} HtmlFound(lines: seq<string>, kind: HtmlKind, inside: seq<string>)
    ensures var r := Read(lines, Reading([], InHtml(kind, inside)));
            if r.blocks == [] then r.state.InHtml? else r.blocks[0].Html?
    decreases |lines|
  {
    if lines != [] {
      if EndsHtml(lines[0], kind) {
        assert Step(lines[0], Reading([], InHtml(kind, inside))).blocks == [Html(inside + [lines[0]])];
        ReadOnto(lines[1..], [Html(inside + [lines[0]])], Prose);
      } else {
        HtmlFound(lines[1..], kind, inside + [lines[0]]);
      }
    }
  }

  /** A fenced block of safe lines reads as one block of those lines. */
  lemma FencedAdds(lines: seq<string>)
    requires CodeSafe(lines)
    ensures Adds(["```go"] + (lines + ["```", ""]), [Code(lines)])
  {
    OpenFence(lines + ["```", ""]);
    var k := CodeFound(lines, DOCGEN, []);
    assert k == |lines| && [] + lines == lines;
    ReadAppend(lines, ["```", ""], Reading([], InCode(DOCGEN, [])));
    CloseFence(lines);
  }

  /** Code with a closing line in it reads as a shorter block. */
  lemma UnsafeFence(lines: seq<string>, more: seq<string>)
    requires !CodeSafe(lines)
    ensures var r := Read(["```go"] + (lines + more), START); r.blocks != [] && r.blocks[0] != Code(lines)
  {
    OpenFence(lines + more);
    var k := CodeFound(lines + more, DOCGEN, []);
    var j :| 0 <= j < |lines| && Closes(lines[j], DOCGEN);
    assert (lines + more)[j] == lines[j];
    assert forall i :: 0 <= i < k ==> (lines + more)[..k][i] == (lines + more)[i];
    assert |[] + (lines + more)[..k]| == k < |lines|;
  }

  /** From inside a block left open before it, a fenced block is not found. */
  lemma SwallowedFence(lines: seq<string>, more: seq<string>, f: Fence, inside: seq<string>)
    requires NoneCloses(inside, f)
    ensures var r := Read(["```go"] + (lines + more), Reading([], InCode(f, inside)));
            if r.blocks == [] then r.state.InCode? else r.blocks[0].Code? && r.blocks[0] != Code(lines)
  {
    FenceLine();
    var all := ["```go"] + (lines + more);
    var k := CodeFound(all, f, inside);
    if k < |all| {
      var found := inside + all[..k];
      assert NoneCloses(found, f);
      assert all[0] == "```go";
      if |found| == |lines| {
        assert all[k] == lines[k - 1];
        assert !NoneCloses(lines, f);
      }
    }
  }

  lemma NoHtml(line: string)
    requires Unindented(line) != "" && Unindented(line)[0] != '<'
    ensures StartsHtml(line) == []
  {
    assert Lower(Unindented(line))[0] != '<';
  }

  lemma HeadingAdds(h: string)
    requires IsHeading(h)
    ensures Adds([h, ""], [Heading(h)])
  {
    assert Unindented(h)[0] == '#';
    NoHtml(h);
    var r := Reading([Heading(h)], Prose);
    assert Step(h, START) == r;
    assert [h, ""][1..] == [""];
    BlankLine(r);
  }

  lemma TitleIsHeading(text: string, n: nat)
    requires 1 <= n <= 6 && n < |text| && text[n] == ' '
    requires forall i :: 0 <= i < n ==> text[i] == '#'
    ensures IsHeading(text)
  {
    RepeatsIs('#', text[..n], text[n..]);
    assert text == text[..n] + text[n..];
    NotIndented(text);
  }

  lemma ProseAdds(line: string)
    requires line != "" && line[0] == '*'
    ensures Adds([line], [])
  {
    NotIndented(line);
    ReadCons(line, [], START);
    NoHtml(line);
    assert Opens(line) == [] && !IsHeading(line);
  }
}
