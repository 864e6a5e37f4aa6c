/**
 Why no reader can rebuild every listing: the comment of a constant with a code block, or a comment
 with a heading of docgen's own form, can write what docgen writes. For each kind, two packages with
 one document and different listings.
 */
module Collisions {
  import opened Options
  import opened Sequences
  import opened Printer
  import opened Document
  import opened Catalogue

  /** A text that is copied as it is. */
  predicate Trimmed(s: string) {
    s != "" && !IsSpace(s[0]) && !IsSpace(s[|s| - 1])
  }

  lemma TrimmedJoin(x: string, y: string)
    requires Trimmed(x) && y != "" && !IsSpace(y[|y| - 1])
    ensures Trimmed(x + ("\n\n" + y)) && TrimSpace(x + ("\n\n" + y)) == x + ("\n\n" + y) && TrimSpace(x) == x
  {
  }

  /** What follows an empty line in a comment looks like a segment behind the comment. */
  lemma Mimic(x: string, y: string)
    requires Trimmed(x) && y != "" && !IsSpace(y[|y| - 1])
    ensures Text([Comment(x + ("\n\n" + y))]) == Text([Comment(x)]) + (y + "\n\n")
  {
    TrimmedJoin(x, y);
    SegmentText(Comment(x + ("\n\n" + y)));
    SegmentText(Comment(x));
    Assoc(x, "\n\n" + y, "\n\n");
    Assoc("\n\n", y, "\n\n");
    Assoc(x, "\n\n", y + "\n\n");
  }

  lemma TextSwap(a: seq<Segment>, m: seq<Segment>, n: seq<Segment>, b: seq<Segment>)
    requires Text(m) == Text(n)
    ensures Text(a + (m + b)) == Text(a + (n + b))
  {
    TextAppend(a, m + b);
    TextAppend(m, b);
    TextAppend(a, n + b);
    TextAppend(n, b);
  }

  /** A code block as it stands in a comment. */
  function FencedCode(code: string): string {
    "```go\n" + code + "\n```"
  }

  lemma FenceText(code: string)
    ensures FencedCode(code) + "\n\n" == Text([Fenced([code])])
    ensures FencedCode(code) != "" && !IsSpace(FencedCode(code)[|FencedCode(code)| - 1])
  {
    FencedText([code]);
    LineText(code);
    assert FencedCode(code)[|FencedCode(code)| - 1] == '`';
    assert "\n```" + "\n\n" == "\n" + "```\n\n";
    Assoc("```go\n" + code, "\n```", "\n\n");
    Assoc("```go\n", code, "\n" + "```\n\n");
    Assoc(code, "\n", "```\n\n");
  }

  /** One constant whose comment ends in a code block, or two constants. */
  lemma ValueTexts(doc: string, code: string, printed: Option<string>)
    requires Trimmed(doc)
    ensures Text(ValueSegments("Const", Value(doc + ("\n\n" + FencedCode(code)), printed)))
         == Text(ValueSegments("Const", Value(doc, Some(code))) + ValueSegments("Const", Value("", printed)))
  {
    var kindLine, last := [Label("**" + "Const" + ":**")], [CodeSegment(printed)];
    FenceText(code);
    Mimic(doc, FencedCode(code));
    var one, two, block := Comment(doc + ("\n\n" + FencedCode(code))), Comment(doc), CodeSegment(Some(code));
    TextAppend([two], [block]);
    TextSwap(kindLine, [one], [two] + [block], last);
    assert ValueSegments("Const", Value(one.doc, printed)) == kindLine + ([one] + last);
    assert ValueSegments("Const", Value(doc, Some(code))) + ValueSegments("Const", Value("", printed))
        == kindLine + ([two] + [block] + last);
  }

  lemma PackageSwap(p: Package, q: Package, name: string, path: string)
    requires Text(ValueSection(CONSTANTS, "Const", p.consts)) == Text(ValueSection(CONSTANTS, "Const", q.consts))
    requires p.doc == q.doc && p.vars == q.vars && p.types == q.types && p.funcs == q.funcs
    ensures PackageText(p, name, path) == PackageText(q, name, path)
  {
    var head := HeaderSegments(name, path) + Section(OVERVIEW, p.doc != "", DocSegments(p.doc));
    var rest := ValueSection(VARIABLES, "Var", p.vars) + (TypeSection(p.types) + FuncSection(p.funcs));
    TextSwap(head, ValueSection(CONSTANTS, "Const", p.consts), ValueSection(CONSTANTS, "Const", q.consts), rest);
  }

  lemma ConstantsSwap(before: seq<Value>, m: seq<Value>, n: seq<Value>, after: seq<Value>)
    requires m != [] && n != []
    requires Text(FlatMap(ValueSegmentsOf("Const"), m)) == Text(FlatMap(ValueSegmentsOf("Const"), n))
    ensures Text(ValueSection(CONSTANTS, "Const", before + (m + after)))
         == Text(ValueSection(CONSTANTS, "Const", before + (n + after)))
  {
    var f := ValueSegmentsOf("Const");
    var a, b, c, d := FlatMap(f, before), FlatMap(f, m), FlatMap(f, n), FlatMap(f, after);
    FlatMapAppend(f, before, m + after);
    FlatMapAppend(f, before, n + after);
    FlatMapAppend(f, m, after);
    FlatMapAppend(f, n, after);
    TextSwap(a, b, c, d);
    TextAppend([Title(CONSTANTS)], a + (b + d));
    TextAppend([Title(CONSTANTS)], a + (c + d));
  }

  /**
   Code blocks in comments: in any package, a constant whose comment ends in a code block can be
   taken for two constants, whatever the comment, the code and the neighbours.
   */
  lemma CodeBlocksCollide(p: Package, name: string, path: string, before: seq<Value>, after: seq<Value>,
                          doc: string, code: string, printed: Option<string>)
    requires Trimmed(doc)
    ensures var one := p.(consts := before + ([Value(doc + ("\n\n" + FencedCode(code)), printed)] + after));
            var two := p.(consts := before + ([Value(doc, Some(code)), Value("", printed)] + after));
            PackageText(one, name, path) == PackageText(two, name, path) && ListingOf(one, name) != ListingOf(two, name)
  {
    var v, v1, v2 := Value(doc + ("\n\n" + FencedCode(code)), printed), Value(doc, Some(code)), Value("", printed);
    ValueTexts(doc, code, printed);
    var f := ValueSegmentsOf("Const");
    OneValue("Const", v);
    OneValue("Const", v1);
    OneValue("Const", v2);
    FlatMapAppend(f, [v1], [v2]);
    assert [v1] + [v2] == [v1, v2];
    ConstantsSwap(before, [v], [v1, v2], after);
    var one, two := p.(consts := before + ([v] + after)), p.(consts := before + ([v1, v2] + after));
    PackageSwap(one, two, name, path);
    assert |ListingOf(one, name).consts| != |ListingOf(two, name).consts|;
  }

  const CONST_LABEL := "**Const:**"

  /** An overview that goes on like docgen does. */
  function LongOverview(doc: string, constDoc: string): string {
    doc + ("\n\n" + (CONSTANTS + "\n\n" + (CONST_LABEL + "\n\n" + constDoc)))
  }

  lemma LongOverviewText(doc: string, constDoc: string)
    requires Trimmed(doc) && Trimmed(constDoc)
    ensures LongOverview(doc, constDoc) != ""
    ensures Text([Comment(LongOverview(doc, constDoc))])
         == Text([Comment(doc), Title(CONSTANTS), Label(CONST_LABEL), Comment(constDoc)])
  {
    var y := CONSTANTS + "\n\n" + (CONST_LABEL + "\n\n" + constDoc);
    assert y[|y| - 1] == constDoc[|constDoc| - 1];
    Mimic(doc, y);
    Assoc(CONSTANTS + "\n\n", CONST_LABEL + "\n\n" + constDoc, "\n\n");
    Assoc(CONST_LABEL + "\n\n", constDoc, "\n\n");
    TrimmedJoin(constDoc, "x");
    SegmentText(Title(CONSTANTS));
    SegmentText(Label(CONST_LABEL));
    SegmentText(Comment(constDoc));
    TextAppend([Label(CONST_LABEL)], [Comment(constDoc)]);
    TextAppend([Title(CONSTANTS)], [Label(CONST_LABEL)] + [Comment(constDoc)]);
    TextAppend([Comment(doc)], [Title(CONSTANTS)] + ([Label(CONST_LABEL)] + [Comment(constDoc)]));
    assert [Comment(doc)] + ([Title(CONSTANTS)] + ([Label(CONST_LABEL)] + [Comment(constDoc)]))
        == [Comment(doc), Title(CONSTANTS), Label(CONST_LABEL), Comment(constDoc)];
  }

  lemma LongCommentText(constDoc: string)
    requires Trimmed(constDoc)
    ensures Text([Comment(constDoc + ("\n\n" + VARIABLES))]) == Text([Comment(constDoc), Title(VARIABLES)])
  {
    assert VARIABLES[|VARIABLES| - 1] == 's';
    Mimic(constDoc, VARIABLES);
    SegmentText(Title(VARIABLES));
    TextAppend([Comment(constDoc)], [Title(VARIABLES)]);
    assert [Comment(constDoc)] + [Title(VARIABLES)] == [Comment(constDoc), Title(VARIABLES)];
  }

  /** Where the two packages of the next lemma differ, their texts agree. */
  lemma MiddleTexts(doc: string, constDoc: string)
    requires Trimmed(doc) && Trimmed(constDoc)
    ensures Text([Comment(LongOverview(doc, constDoc)), Title(VARIABLES)])
         == Text([Comment(doc), Title(CONSTANTS), Label(CONST_LABEL), Comment(constDoc + ("\n\n" + VARIABLES))])
  {
    var one, long := Comment(LongOverview(doc, constDoc)), Comment(constDoc + ("\n\n" + VARIABLES));
    var front := [Comment(doc), Title(CONSTANTS), Label(CONST_LABEL)];
    LongOverviewText(doc, constDoc);
    LongCommentText(constDoc);
    TextAppend([one], [Title(VARIABLES)]);
    assert [one] + [Title(VARIABLES)] == [one, Title(VARIABLES)];
    TextAppend(front + [Comment(constDoc)], [Title(VARIABLES)]);
    TextAppend(front, [long]);
    TextAppend(front, [Comment(constDoc), Title(VARIABLES)]);
    assert front + [Comment(constDoc)] == [Comment(doc), Title(CONSTANTS), Label(CONST_LABEL), Comment(constDoc)];
    assert front + [Comment(constDoc), Title(VARIABLES)] == front + [Comment(constDoc)] + [Title(VARIABLES)];
    assert front + [long] == [Comment(doc), Title(CONSTANTS), Label(CONST_LABEL), long];
  }

  /**
   Headings of docgen's own form in comments: without a single code block in a comment, a constant
   can be taken for a variable, whatever the comments.
   */
  lemma HeadingsCollide(p: Package, name: string, path: string, doc: string, constDoc: string, printed: Option<string>)
    requires Trimmed(doc) && Trimmed(constDoc)
    ensures var one := p.(doc := LongOverview(doc, constDoc), consts := [], vars := [Value("", printed)]);
            var two := p.(doc := doc, consts := [Value(constDoc + ("\n\n" + VARIABLES), printed)], vars := []);
            PackageText(one, name, path) == PackageText(two, name, path) && ListingOf(one, name) != ListingOf(two, name)
  {
    var one := p.(doc := LongOverview(doc, constDoc), consts := [], vars := [Value("", printed)]);
    var two := p.(doc := doc, consts := [Value(constDoc + ("\n\n" + VARIABLES), printed)], vars := []);
    var front := HeaderSegments(name, path) + [Title(OVERVIEW)];
    var back := [CodeSegment(printed)] + Rest(p);
    var m := [Comment(one.doc), Title(VARIABLES)];
    var n := [Comment(doc), Title(CONSTANTS), Label(CONST_LABEL), Comment(constDoc + ("\n\n" + VARIABLES))];
    MiddleTexts(doc, constDoc);
    TextSwap(front, m, n, back);
    OneVariable(one, name, path, printed);
    OneConstant(two, name, path, constDoc + ("\n\n" + VARIABLES), printed);
  }

  function Rest(p: Package): seq<Segment> {
    TypeSection(p.types) + FuncSection(p.funcs)
  }

  lemma OneVariable(p: Package, name: string, path: string, printed: Option<string>)
    requires p.doc != "" && p.consts == [] && p.vars == [Value("", printed)]
    ensures PackageSegments(p, name, path)
         == HeaderSegments(name, path) + [Title(OVERVIEW)]
            + ([Comment(p.doc), Title(VARIABLES)] + ([CodeSegment(printed)] + Rest(p)))
  {
    VariableSections(p, printed);
    Shuffle(HeaderSegments(name, path), [Title(OVERVIEW)], [Comment(p.doc)], [Title(VARIABLES)],
            [CodeSegment(printed)] + Rest(p));
    assert [Comment(p.doc)] + [Title(VARIABLES)] == [Comment(p.doc), Title(VARIABLES)];
  }

  lemma VariableSections(p: Package, printed: Option<string>)
    requires p.consts == [] && p.vars == [Value("", printed)]
    ensures SectionSegments(p) == [Title(VARIABLES)] + ([CodeSegment(printed)] + Rest(p))
  {
    VariableSection(printed);
    VariableThen(printed, Rest(p));
    SeqNil([Title(VARIABLES)] + ([CodeSegment(printed)] + Rest(p)));
  }

  lemma VariableThen(printed: Option<string>, rest: seq<Segment>)
    ensures ([Title(VARIABLES)] + [CodeSegment(printed)]) + rest == [Title(VARIABLES)] + ([CodeSegment(printed)] + rest)
  {
  }

  lemma VariableSection(printed: Option<string>)
    ensures ValueSection(VARIABLES, "Var", [Value("", printed)]) == [Title(VARIABLES)] + [CodeSegment(printed)]
  {
    OneValue("Var", Value("", printed));
    SeqNil([CodeSegment(printed)]);
  }

  lemma OneConstant(p: Package, name: string, path: string, doc: string, printed: Option<string>)
    requires p.doc != "" && doc != "" && p.consts == [Value(doc, printed)] && p.vars == []
    ensures PackageSegments(p, name, path)
         == HeaderSegments(name, path) + [Title(OVERVIEW)]
            + ([Comment(p.doc), Title(CONSTANTS), Label(CONST_LABEL), Comment(doc)] + ([CodeSegment(printed)] + Rest(p)))
  {
    var front := [Title(CONSTANTS), Label(CONST_LABEL), Comment(doc)];
    ConstantSections(p, doc, printed);
    Shuffle(HeaderSegments(name, path), [Title(OVERVIEW)], [Comment(p.doc)], front, [CodeSegment(printed)] + Rest(p));
    assert [Comment(p.doc)] + front == [Comment(p.doc), Title(CONSTANTS), Label(CONST_LABEL), Comment(doc)];
  }

  lemma ConstantSections(p: Package, doc: string, printed: Option<string>)
    requires doc != "" && p.consts == [Value(doc, printed)] && p.vars == []
    ensures SectionSegments(p)
         == [Title(CONSTANTS), Label(CONST_LABEL), Comment(doc)] + ([CodeSegment(printed)] + Rest(p))
  {
    ConstantSection(p.consts[0]);
    SeqNil(Rest(p));
    Three(Title(CONSTANTS), Label(CONST_LABEL), Comment(doc), [CodeSegment(printed)], Rest(p));
  }

  lemma ConstantSection(v: Value)
    requires v.doc != ""
    ensures ValueSection(CONSTANTS, "Const", [v])
         == [Title(CONSTANTS)] + ([Label(CONST_LABEL), Comment(v.doc)] + [CodeSegment(v.printed)])
  {
    OneValue("Const", v);
    assert "**" + "Const" + ":**" == CONST_LABEL;
  }

  lemma Three<T>(x: T, y: T, z: T, a: seq<T>, b: seq<T>)
    ensures ([x] + ([y, z] + a)) + b == [x, y, z] + (a + b)
  {
  }

  lemma Shuffle<T>(a: seq<T>, b: seq<T>, c: seq<T>, d: seq<T>, e: seq<T>)
    ensures a + (b + c) + (d + e) == a + b + ((c + d) + e)
  {
  }

  lemma OneValue(kind: string, v: Value)
    ensures FlatMap(ValueSegmentsOf(kind), [v]) == ValueSegments(kind, v)
  {
    var f := ValueSegmentsOf(kind);
    FlatMapThen(f, [v], []);
    SeqNil(FlatMap(f, [v]));
    SeqNil(f(v));
  }
}
