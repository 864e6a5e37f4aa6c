/**
 The document emission of docgen.go: what generatePackageDocs and its helpers append to the output
 file for one package. The listings of go/doc and the texts of go/printer are inputs. Each method
 is proved against the pieces of text it puts on lines of their own.
 */
module Document {
  import opened Options
  import opened GoAst
  import opened Printer
  import opened Markdown
  import opened Sequences

  /** unicode.IsSpace */
  predicate IsSpace(c: char) {
    || '\t' <= c <= '\r' || c == ' ' || c == '\U{85}' || c == '\U{A0}' || c == '\U{1680}'
    || '\U{2000}' <= c <= '\U{200A}' || c == '\U{2028}' || c == '\U{2029}' || c == '\U{202F}'
    || c == '\U{205F}' || c == '\U{3000}'
  }

  predicate AllSpace(s: string) {
    forall i :: 0 <= i < |s| ==> IsSpace(s[i])
  }

  /** strings.TrimSpace */
  function TrimSpace(s: string): (r: string)
    ensures r != "" ==> !IsSpace(r[0]) && !IsSpace(r[|r| - 1])
    decreases |s|
  {
    if s == "" then s
    else if IsSpace(s[0]) then TrimSpace(s[1..])
    else if IsSpace(s[|s| - 1]) then TrimSpace(s[..|s| - 1])
    else s
  }

  /** Only white space is trimmed. */
  lemma {:induction false} TrimSpaceSplits(s: string) returns (front: string, back: string)
    ensures s == front + (TrimSpace(s) + back) && AllSpace(front) && AllSpace(back)
    decreases |s|
  {
    front, back := "", "";
    if s == "" {
    } else if IsSpace(s[0]) {
      front, back := TrimSpaceSplits(s[1..]);
      SplitFront(s, front, TrimSpace(s) + back);
      front := [s[0]] + front;
    } else if IsSpace(s[|s| - 1]) {
      front, back := TrimSpaceSplits(s[..|s| - 1]);
      SplitBack(s, front, TrimSpace(s), back);
      back := back + [s[|s| - 1]];
    } else {
      assert s == "" + (s + "");
    }
  }

  lemma SplitFront(s: string, f: string, rest: string)
    requires s != "" && s[1..] == f + rest && IsSpace(s[0]) && AllSpace(f)
    ensures s == ([s[0]] + f) + rest && AllSpace([s[0]] + f)
  {
  }

  lemma SplitBack(s: string, f: string, mid: string, b: string)
    requires s != "" && s[..|s| - 1] == f + (mid + b) && IsSpace(s[|s| - 1]) && AllSpace(b)
    ensures s == f + (mid + (b + [s[|s| - 1]])) && AllSpace(b + [s[|s| - 1]])
  {
    Assoc(mid, b, [s[|s| - 1]]);
    Assoc(f, mid + b, [s[|s| - 1]]);
    assert s == s[..|s| - 1] + [s[|s| - 1]];
  }

  /** The characters that are trimmed, and no others. */
  lemma TrimmedCharacters(c: char, s: string)
    ensures if c in "\t\n\U{B}\U{C}\r \U{85}\U{A0}\U{1680}\U{2000}\U{2001}\U{2002}\U{2003}\U{2004}\U{2005}\U{2006}"
                    + "\U{2007}\U{2008}\U{2009}\U{200A}\U{2028}\U{2029}\U{202F}\U{205F}\U{3000}"
            then TrimSpace([c] + s) == TrimSpace(s) == TrimSpace(s + [c])
            else TrimSpace([c]) == [c]
  {
    SpaceCharacters(c);
    if IsSpace(c) {
      assert ([c] + s)[1..] == s;
      TrimBack(s, c);
    }
  }

  lemma SpaceCharacters(c: char)
    ensures IsSpace(c) <==>
              c in "\t\n\U{B}\U{C}\r \U{85}\U{A0}\U{1680}\U{2000}\U{2001}\U{2002}\U{2003}\U{2004}\U{2005}\U{2006}"
                   + "\U{2007}\U{2008}\U{2009}\U{200A}\U{2028}\U{2029}\U{202F}\U{205F}\U{3000}"
  {
    var first := "\t\n\U{B}\U{C}\r \U{85}\U{A0}\U{1680}\U{2000}\U{2001}\U{2002}\U{2003}\U{2004}\U{2005}\U{2006}";
    var second := "\U{2007}\U{2008}\U{2009}\U{200A}\U{2028}\U{2029}\U{202F}\U{205F}\U{3000}";
    assert c in first + second <==> c in first || c in second;
  }

  lemma {:induction false} TrimBack(s: string, c: char)
    requires IsSpace(c)
    ensures TrimSpace(s + [c]) == TrimSpace(s)
  {
    if s == "" {
      assert s + [c] == [c] && [c][1..] == "";
    } else if IsSpace(s[0]) {
      assert (s + [c])[1..] == s[1..] + [c];
      TrimBack(s[1..], c);
    } else {
      assert (s + [c])[..|s|] == s;
    }
  }

  /** Visible ASCII characters at both ends stay, and with them the whole text. */
  lemma VisibleEndsStay(s: string)
    requires s != "" && '!' <= s[0] <= '~' && '!' <= s[|s| - 1] <= '~'
    ensures TrimSpace(s) == s
  {
  }

  /** TrimSpace is the only way to take white space off both ends until none is left there. */
  lemma {:induction false} TrimSpaceExactly(front: string, t: string, back: string)
    requires AllSpace(front) && AllSpace(back)
    requires t != "" ==> !IsSpace(t[0]) && !IsSpace(t[|t| - 1])
    ensures TrimSpace(front + (t + back)) == t
    decreases |front| + |back|
  {
    if front != "" {
      assert (front + (t + back))[1..] == front[1..] + (t + back);
      TrimSpaceExactly(front[1..], t, back);
    } else if back != "" {
      var c := back[|back| - 1];
      assert front + (t + back) == (front + (t + back[..|back| - 1])) + [c];
      TrimSpaceExactly(front, t, back[..|back| - 1]);
      TrimBack(front + (t + back[..|back| - 1]), c);
    } else {
      assert front + (t + back) == t;
    }
  }

  /** A constant or variable group: its comment and its printed text, if printing works. */
  datatype Value = Value(doc: string, printed: Option<string>)

  datatype Func = Func(name: string, doc: string, printed: Option<string>)

  /** The first spec of a type declaration. */
  datatype TypeSpec =
    | Struct(fields: FieldList)
    | Interface(methods: FieldList)
    | Defined(typ: Expr)
    | NotATypeSpec

  datatype Type = Type(name: string, doc: string, spec: TypeSpec, methods: seq<Func>)

  datatype Package = Package(doc: string, consts: seq<Value>, vars: seq<Value>, types: seq<Type>, funcs: seq<Func>)

  function Printed(p: Option<string>): string {
    if p.Some? then p.value else ""
  }

  function TagText(f: Field): string {
    if f.tag.Some? then " " + f.tag.value else ""
  }

  /** A field line without its line end: the item that astString makes of the field, indented and tagged. */
  function FieldPiece(f: Field): string {
    "\t" + Item(f) + TagText(f)
  }

  /** The parts a document is made of. */
  datatype Segment =
    | Title(text: string)            // a heading
    | Label(text: string)            // a line of prose
    | Comment(doc: string)           // a comment, copied
    | Fenced(pieces: seq<string>)    // a Go code block

  /** The pieces of text that a segment puts on lines of their own. */
  function Pieces(s: Segment): seq<string> {
    match s
    case Title(text) => [text, ""]
    case Label(text) => [text, ""]
    case Comment(doc) => [TrimSpace(doc), ""]
    case Fenced(ps) => ["```go"] + ps + ["```", ""]
  }

  function Text(ss: seq<Segment>): string {
    Unlines(FlatMap(Pieces, ss))
  }

  function FieldPieces(f: Field): seq<string> {
    [FieldPiece(f)]
  }

  function DocSegments(doc: string): seq<Segment> {
    if doc == "" then [] else [Comment(doc)]
  }

  function CodeSegment(printed: Option<string>): Segment {
    Fenced([Printed(printed)])
  }

  function ValueSegments(kind: string, v: Value): seq<Segment> {
    (if v.doc == "" then [] else [Label("**" + kind + ":**"), Comment(v.doc)]) + [CodeSegment(v.printed)]
  }

  function ValueSegmentsOf(kind: string): Value -> seq<Segment> {
    (v: Value) => ValueSegments(kind, v)
  }

  function FuncSegments(level: string, f: Func): seq<Segment> {
    [Title(level + " `" + f.name + "`")] + DocSegments(f.doc) + [CodeSegment(f.printed)]
  }

  function FuncSegmentsOf(level: string): Func -> seq<Segment> {
    (f: Func) => FuncSegments(level, f)
  }

  function ListFields(l: FieldList): seq<Field> {
    if l.List? then l.fields else []
  }

  /** The pieces of a type's definition, between its fences. */
  function DefinitionPieces(name: string, spec: TypeSpec): seq<string> {
    match spec
    case Struct(fs) => ["type " + name + " struct {"] + FlatMap(FieldPieces, ListFields(fs)) + ["}"]
    case Interface(ms) => ["type " + name + " interface {"] + FlatMap(FieldPieces, ListFields(ms)) + ["}"]
    case Defined(t) => ["type " + name + " " + AstString(t)]
    case NotATypeSpec => []
  }

  /** A section: its heading and its body, or nothing. */
  function Section(heading: string, present: bool, body: seq<Segment>): seq<Segment> {
    if present then [Title(heading)] + body else []
  }

  function MethodSegments(ms: seq<Func>): seq<Segment> {
    Section(METHODS, ms != [], FlatMap(FuncSegmentsOf("#####"), ms))
  }

  function TypeSegments(t: Type): seq<Segment> {
    [Title("### `" + t.name + "`")] + DocSegments(t.doc) + [Fenced(DefinitionPieces(t.name, t.spec))]
    + MethodSegments(t.methods)
  }

  const OVERVIEW := "## 📝 Overview"
  const CONSTANTS := "## 🔢 Constants"
  const VARIABLES := "## 🏷️ Variables"
  const TYPES := "## 🧩 Types"
  const METHODS := "#### Methods"
  const FUNCTIONS := "## 🚀 Functions"

  function HeaderSegments(name: string, path: string): seq<Segment> {
    [Title("# 📦 Package `" + name + "`"), Label("**Source Path:** `" + path + "`")]
  }

  function ValueSection(heading: string, kind: string, vs: seq<Value>): seq<Segment> {
    Section(heading, vs != [], FlatMap(ValueSegmentsOf(kind), vs))
  }

  function TypeSection(ts: seq<Type>): seq<Segment> {
    Section(TYPES, ts != [], FlatMap(TypeSegments, ts))
  }

  function FuncSection(fs: seq<Func>): seq<Segment> {
    Section(FUNCTIONS, fs != [], FlatMap(FuncSegmentsOf("###"), fs))
  }

  /** The sections, each there if and only if it has something to list. */
  function SectionSegments(p: Package): seq<Segment> {
    ValueSection(CONSTANTS, "Const", p.consts)
    + (ValueSection(VARIABLES, "Var", p.vars)
       + (TypeSection(p.types) + FuncSection(p.funcs)))
  }

  function PackageSegments(p: Package, name: string, path: string): seq<Segment> {
    HeaderSegments(name, path) + Section(OVERVIEW, p.doc != "", DocSegments(p.doc)) + SectionSegments(p)
  }

  /** The document of a package. */
  function PackageText(p: Package, name: string, path: string): string {
    Text(PackageSegments(p, name, path))
  }

  /** The output file: writes append, and are taken to succeed. */
  class OutFile {
    var content: string

    constructor ()
      ensures content == ""
    {
      content := "";
    }

    method WriteString(s: string)
      modifies this
      ensures content == old(content) + s
    {
      content := content + s;
    }
  }

  method WriteToFile(file: OutFile, content: string)
    modifies file
    ensures file.content == old(file.content) + content
  {
    file.WriteString(content);
  }

  lemma LineText(x: string)
    ensures Unlines([x]) == x + "\n"
    ensures Unlines([x, ""]) == x + "\n\n"
  {
    assert [x, ""][1..] == [""];
    assert Unlines([""]) == "\n";
    assert "\n\n" == "\n" + "\n";
  }

  lemma OneSegment(s: Segment)
    ensures Text([s]) == Unlines(Pieces(s))
  {
    FlatMapThen(Pieces, [s], []);
    SeqNil(Pieces(s));
    SeqNil(FlatMap(Pieces, [s]));
  }

  /** The text of a segment that is a paragraph. */
  lemma SegmentText(s: Segment)
    requires !s.Fenced?
    ensures Text([s]) == (if s.Comment? then TrimSpace(s.doc) else s.text) + "\n\n"
  {
    OneSegment(s);
    LineText(if s.Comment? then TrimSpace(s.doc) else s.text);
  }

  lemma UnlinesThree(a: seq<string>, b: seq<string>, c: seq<string>)
    ensures Unlines(a + b + c) == Unlines(a) + (Unlines(b) + Unlines(c))
  {
    UnlinesAppend(a + b, c);
    UnlinesAppend(a, b);
    Assoc(Unlines(a), Unlines(b), Unlines(c));
  }

  lemma FenceTexts()
    ensures Unlines(["```go"]) == "```go\n" && Unlines(["```", ""]) == "```\n\n"
  {
    LineText("```go");
    LineText("```");
  }

  lemma FencedText(ps: seq<string>)
    ensures Text([Fenced(ps)]) == "```go\n" + (Unlines(ps) + "```\n\n")
  {
    OneSegment(Fenced(ps));
    FenceTexts();
    UnlinesThree(["```go"], ps, ["```", ""]);
  }

  /** The writes around the pieces of a fenced block. */
  lemma FencedWrites(before: string, ps: seq<string>)
    ensures before + "```go\n" + Unlines(ps) + "```\n\n" == before + Text([Fenced(ps)])
  {
    FencedText(ps);
    Assoc(before, "```go\n", Unlines(ps));
    Assoc(before + "```go\n", Unlines(ps), "```\n\n");
    Assoc(before, "```go\n", Unlines(ps) + "```\n\n");
  }

  lemma TextAppend(a: seq<Segment>, b: seq<Segment>)
    ensures Text(a + b) == Text(a) + Text(b)
  {
    FlatMapAppend(Pieces, a, b);
    UnlinesAppend(FlatMap(Pieces, a), FlatMap(Pieces, b));
  }

  /** Two writes of whole segments are one write of both. */
  lemma Then(before: string, a: seq<Segment>, b: seq<Segment>)
    ensures before + Text(a) + Text(b) == before + Text(a + b)
  {
    TextAppend(a, b);
    Assoc(before, Text(a), Text(b));
  }

  lemma DocText(doc: string)
    ensures Text(DocSegments(doc)) == if doc == "" then "" else TrimSpace(doc) + "\n\n"
  {
    if doc != "" {
      SegmentText(Comment(doc));
    }
  }

  /** The three writes of a code block that go/printer fills, or fails to fill. */
  lemma CodeWrites(before: string, printed: Option<string>)
    ensures before + "```go\n" + Printed(printed) + "\n```\n\n" == before + Text([CodeSegment(printed)])
  {
    var p := Printed(printed);
    FencedWrites(before, [p]);
    LineText(p);
    assert "\n```\n\n" == "\n" + "```\n\n";
    Assoc(before + "```go\n", p, "\n");
    Assoc(before + "```go\n" + p, "\n", "```\n\n");
  }

  /** A heading, a comment and a code block are the segments of one function. */
  lemma FuncWrites(before: string, level: string, f: Func)
    ensures before + Text([Title(level + " `" + f.name + "`")]) + Text(DocSegments(f.doc)) + Text([CodeSegment(f.printed)])
         == before + Text(FuncSegments(level, f))
  {
    var head := [Title(level + " `" + f.name + "`")];
    Then(before, head, DocSegments(f.doc));
    Then(before, head + DocSegments(f.doc), [CodeSegment(f.printed)]);
  }

  method PrintField(file: OutFile, f: Field)
    modifies file
    ensures file.content == old(file.content) + Unlines(FieldPieces(f))
  {
    var names := CollectNames(f);
    var fieldStr := "\t";
    if |names| > 0 {
      fieldStr := fieldStr + (Join(names, ", ") + " ");
    }
    var typeStr := PrintNode(f.typ);
    fieldStr := fieldStr + typeStr;
    assert fieldStr == "\t" + Item(f);
    if f.tag.Some? {
      fieldStr := fieldStr + (" " + f.tag.value);
    }
    assert fieldStr == FieldPiece(f);
    fieldStr := fieldStr + "\n";
    LineText(FieldPiece(f));
    WriteToFile(file, fieldStr);
  }

  method PrintMethod(file: OutFile, m: Func)
    modifies file
    ensures file.content == old(file.content) + Text(FuncSegments("#####", m))
  {
    assert "##### `" == "#####" + " `";
    SegmentText(Title("##### `" + m.name + "`"));
    DocText(m.doc);
    WriteToFile(file, "##### `" + m.name + "`" + "\n\n");
    if m.doc != "" {
      WriteToFile(file, TrimSpace(m.doc) + "\n\n");
    }
    ghost var head := file.content;
    assert head == old(file.content) + Text([Title("##### `" + m.name + "`")]) + Text(DocSegments(m.doc));
    WriteToFile(file, "```go\n");
    if m.printed.Some? {
      WriteToFile(file, m.printed.value);
    }
    WriteToFile(file, "\n```\n\n");
    CodeWrites(head, m.printed);
    FuncWrites(old(file.content), "#####", m);
  }

  method PrintFunc(file: OutFile, f: Func)
    modifies file
    ensures file.content == old(file.content) + Text(FuncSegments("###", f))
  {
    assert "### `" == "###" + " `";
    SegmentText(Title("### `" + f.name + "`"));
    DocText(f.doc);
    WriteToFile(file, "### `" + f.name + "`" + "\n\n");
    if f.doc != "" {
      WriteToFile(file, TrimSpace(f.doc) + "\n\n");
    }
    ghost var head := file.content;
    assert head == old(file.content) + Text([Title("### `" + f.name + "`")]) + Text(DocSegments(f.doc));
    WriteToFile(file, "```go\n");
    if f.printed.Some? {
      WriteToFile(file, f.printed.value);
    }
    WriteToFile(file, "\n```\n\n");
    CodeWrites(head, f.printed);
    FuncWrites(old(file.content), "###", f);
  }

  method PrintDeclarations(file: OutFile, kind: string, doc: string, decl: Option<string>)
    modifies file
    ensures file.content == old(file.content) + Text(ValueSegments(kind, Value(doc, decl)))
    ensures doc != "" ==>
              file.content == old(file.content)
                + ("**" + kind + ":**\n\n" + TrimSpace(doc) + "\n\n```go\n" + (if decl.Some? then decl.value else "") + "\n```\n\n")
  {
    ghost var lead: seq<Segment> := [];
    if doc != "" {
      lead := [Label("**" + kind + ":**"), Comment(doc)];
      KindText("**" + kind + ":**", doc);
      WriteToFile(file, "**" + kind + ":**" + "\n\n" + TrimSpace(doc) + "\n\n");
    }
    ghost var head := file.content;
    assert head == old(file.content) + Text(lead);
    WriteToFile(file, "```go\n");
    if decl.Some? {
      WriteToFile(file, decl.value);
    }
    WriteToFile(file, "\n```\n\n");
    CodeWrites(head, decl);
    Then(old(file.content), lead, [CodeSegment(decl)]);
    ValueWritten(kind, Value(doc, decl));
  }

  /** A group of constants or variables, character by character. */
  lemma ValueWritten(kind: string, v: Value)
    ensures Text(ValueSegments(kind, v))
         == if v.doc == "" then "```go\n" + (if v.printed.Some? then v.printed.value else "") + "\n```\n\n"
            else "**" + kind + ":**\n\n" + TrimSpace(v.doc) + "\n\n```go\n" + (if v.printed.Some? then v.printed.value else "")
                 + "\n```\n\n"
  {
    var code := [CodeSegment(v.printed)];
    if v.doc == "" {
      CodeWrites("", v.printed);
      SeqNil(code);
      SeqNil(Text(code));
    } else {
      var lead := [Label("**" + kind + ":**"), Comment(v.doc)];
      TextAppend(lead, code);
      KindText("**" + kind + ":**", v.doc);
      CodeWrites(Text(lead), v.printed);
      KindStart(kind, TrimSpace(v.doc));
    }
  }

  lemma KindStart(kind: string, doc: string)
    ensures "**" + kind + ":**" + "\n\n" + doc + "\n\n" + "```go\n" == "**" + kind + ":**\n\n" + doc + "\n\n```go\n"
  {
    assert ":**\n\n" == ":**" + "\n\n" && "\n\n```go\n" == "\n\n" + "```go\n";
    Assoc("**" + kind, ":**", "\n\n");
    Assoc("**" + kind + ":**\n\n" + doc, "\n\n", "```go\n");
  }

  lemma KindText(kindLine: string, doc: string)
    ensures kindLine + "\n\n" + TrimSpace(doc) + "\n\n" == Text([Label(kindLine), Comment(doc)])
  {
    SegmentText(Label(kindLine));
    SegmentText(Comment(doc));
    TextAppend([Label(kindLine)], [Comment(doc)]);
    assert [Label(kindLine)] + [Comment(doc)] == [Label(kindLine), Comment(doc)];
    Assoc(kindLine + "\n\n", TrimSpace(doc), "\n\n");
  }

  /** The field loop of printType, over a list that may be nil. */
  method PrintFields(file: OutFile, list: FieldList)
    modifies file
    ensures file.content == old(file.content) + Unlines(FlatMap(FieldPieces, ListFields(list)))
  {
    if list.List? {
      for i := 0 to |list.fields|
        invariant file.content == old(file.content) + Unlines(FlatMap(FieldPieces, list.fields[..i]))
      {
        PrintField(file, list.fields[i]);
        FlatMapStep(FieldPieces, list.fields, i);
        UnlinesAppend(FlatMap(FieldPieces, list.fields[..i]), FieldPieces(list.fields[i]));
        Assoc(old(file.content), Unlines(FlatMap(FieldPieces, list.fields[..i])), Unlines(FieldPieces(list.fields[i])));
      }
      assert list.fields[..|list.fields|] == list.fields;
    }
  }

  lemma BlockWrites(before: string, head: string, inner: seq<string>)
    ensures before + (head + "\n") + Unlines(inner) + "}\n" == before + Unlines([head] + inner + ["}"])
  {
    LineText(head);
    LineText("}");
    UnlinesThree([head], inner, ["}"]);
    Assoc(before, head + "\n", Unlines(inner));
    Assoc(before + (head + "\n"), Unlines(inner), "}\n");
    Assoc(before, head + "\n", Unlines(inner) + "}\n");
  }

  /** The type switch of printType. */
  method PrintDefinition(file: OutFile, name: string, spec: TypeSpec)
    modifies file
    ensures file.content == old(file.content) + Unlines(DefinitionPieces(name, spec))
  {
    match spec
    case Struct(list) =>
      PrintBlock(file, "type " + name + " struct {", list);
    case Interface(list) =>
      PrintBlock(file, "type " + name + " interface {", list);
    case Defined(typ) =>
      var text := PrintNode(typ);
      LineText("type " + name + " " + text);
      WriteToFile(file, "type " + name + " " + text + "\n");
    case NotATypeSpec =>
  }

  method PrintBlock(file: OutFile, header: string, list: FieldList)
    modifies file
    ensures file.content == old(file.content) + Unlines([header] + FlatMap(FieldPieces, ListFields(list)) + ["}"])
  {
    BlockWrites(file.content, header, FlatMap(FieldPieces, ListFields(list)));
    WriteToFile(file, header + "\n");
    PrintFields(file, list);
    WriteToFile(file, "}\n");
  }

  /** The fenced part of printType. */
  method PrintFenced(file: OutFile, name: string, spec: TypeSpec)
    modifies file
    ensures file.content == old(file.content) + Text([Fenced(DefinitionPieces(name, spec))])
  {
    FencedWrites(file.content, DefinitionPieces(name, spec));
    WriteToFile(file, "```go\n");
    PrintDefinition(file, name, spec);
    WriteToFile(file, "```\n\n");
  }

  method PrintType(file: OutFile, t: Type)
    modifies file
    ensures file.content == old(file.content) + Text(TypeSegments(t))
  {
    ghost var before := file.content;
    SegmentText(Title("### `" + t.name + "`"));
    DocText(t.doc);
    WriteToFile(file, "### `" + t.name + "`" + "\n\n");
    if t.doc != "" {
      WriteToFile(file, TrimSpace(t.doc) + "\n\n");
    }
    ghost var start := file.content;
    assert start == before + Text([Title("### `" + t.name + "`")]) + Text(DocSegments(t.doc));

    PrintFenced(file, t.name, t.spec);
    PrintMethods(file, t.methods);
    TypeWrites(before, t);
  }

  lemma TypeWrites(before: string, t: Type)
    ensures before + Text([Title("### `" + t.name + "`")]) + Text(DocSegments(t.doc))
            + Text([Fenced(DefinitionPieces(t.name, t.spec))]) + Text(MethodSegments(t.methods))
         == before + Text(TypeSegments(t))
  {
    var head, body := [Title("### `" + t.name + "`")], Fenced(DefinitionPieces(t.name, t.spec));
    Then(before, head, DocSegments(t.doc));
    Then(before, head + DocSegments(t.doc), [body]);
    Then(before, head + DocSegments(t.doc) + [body], MethodSegments(t.methods));
  }

  /** The last part of printType. */
  method PrintMethods(file: OutFile, ms: seq<Func>)
    modifies file
    ensures file.content == old(file.content) + Text(MethodSegments(ms))
  {
    if |ms| > 0 {
      SegmentText(Title(METHODS));
      WriteToFile(file, METHODS + "\n\n");
      ghost var titled := file.content;
      for i := 0 to |ms|
        invariant file.content == titled + Text(FlatMap(FuncSegmentsOf("#####"), ms[..i]))
      {
        PrintMethod(file, ms[i]);
        FlatMapStep(FuncSegmentsOf("#####"), ms, i);
        Then(titled, FlatMap(FuncSegmentsOf("#####"), ms[..i]), FuncSegments("#####", ms[i]));
      }
      assert ms[..|ms|] == ms;
      Then(old(file.content), [Title(METHODS)], FlatMap(FuncSegmentsOf("#####"), ms));
    }
  }

  method PrintHeader(file: OutFile, name: string, path: string, doc: string)
    modifies file
    ensures file.content == old(file.content)
                            + Text(HeaderSegments(name, path) + Section(OVERVIEW, doc != "", DocSegments(doc)))
  {
    ghost var before := file.content;
    ghost var title, source := Title("# 📦 Package `" + name + "`"), Label("**Source Path:** `" + path + "`");
    SegmentText(title);
    SegmentText(source);
    WriteToFile(file, "# 📦 Package `" + name + "`" + "\n\n");
    WriteToFile(file, "**Source Path:** `" + path + "`" + "\n\n");
    Then(before, [title], [source]);
    assert [title] + [source] == HeaderSegments(name, path);
    if doc != "" {
      ghost var start := file.content;
      SegmentText(Title(OVERVIEW));
      DocText(doc);
      WriteToFile(file, OVERVIEW + "\n\n");
      WriteToFile(file, TrimSpace(doc) + "\n\n");
      Then(start, [Title(OVERVIEW)], DocSegments(doc));
    }
    Then(before, HeaderSegments(name, path), Section(OVERVIEW, doc != "", DocSegments(doc)));
  }

  method PrintValueSection(file: OutFile, heading: string, kind: string, vs: seq<Value>)
    modifies file
    ensures file.content == old(file.content) + Text(ValueSection(heading, kind, vs))
  {
    if |vs| > 0 {
      SegmentText(Title(heading));
      WriteToFile(file, heading + "\n\n");
      ghost var titled := file.content;
      for i := 0 to |vs|
        invariant file.content == titled + Text(FlatMap(ValueSegmentsOf(kind), vs[..i]))
      {
        PrintDeclarations(file, kind, vs[i].doc, vs[i].printed);
        FlatMapStep(ValueSegmentsOf(kind), vs, i);
        Then(titled, FlatMap(ValueSegmentsOf(kind), vs[..i]), ValueSegments(kind, vs[i]));
      }
      assert vs[..|vs|] == vs;
      Then(old(file.content), [Title(heading)], FlatMap(ValueSegmentsOf(kind), vs));
    }
  }

  method PrintTypeSection(file: OutFile, ts: seq<Type>)
    modifies file
    ensures file.content == old(file.content) + Text(TypeSection(ts))
  {
    if |ts| > 0 {
      SegmentText(Title(TYPES));
      WriteToFile(file, TYPES + "\n\n");
      ghost var titled := file.content;
      for i := 0 to |ts|
        invariant file.content == titled + Text(FlatMap(TypeSegments, ts[..i]))
      {
        PrintType(file, ts[i]);
        FlatMapStep(TypeSegments, ts, i);
        Then(titled, FlatMap(TypeSegments, ts[..i]), TypeSegments(ts[i]));
      }
      assert ts[..|ts|] == ts;
      Then(old(file.content), [Title(TYPES)], FlatMap(TypeSegments, ts));
    }
  }

  method PrintFuncSection(file: OutFile, fs: seq<Func>)
    modifies file
    ensures file.content == old(file.content) + Text(FuncSection(fs))
  {
    if |fs| > 0 {
      SegmentText(Title(FUNCTIONS));
      WriteToFile(file, FUNCTIONS + "\n\n");
      ghost var titled := file.content;
      for i := 0 to |fs|
        invariant file.content == titled + Text(FlatMap(FuncSegmentsOf("###"), fs[..i]))
      {
        PrintFunc(file, fs[i]);
        FlatMapStep(FuncSegmentsOf("###"), fs, i);
        Then(titled, FlatMap(FuncSegmentsOf("###"), fs[..i]), FuncSegments("###", fs[i]));
      }
      assert fs[..|fs|] == fs;
      Then(old(file.content), [Title(FUNCTIONS)], FlatMap(FuncSegmentsOf("###"), fs));
    }
  }

  /** What generatePackageDocs writes, section by section, once its file is there. */
  method WritePackage(file: OutFile, p: Package, name: string, path: string)
    modifies file
    ensures file.content == old(file.content) + PackageText(p, name, path)
  {
    ghost var before := file.content;
    PrintHeader(file, name, path, p.doc);
    PrintValueSection(file, CONSTANTS, "Const", p.consts);
    PrintValueSection(file, VARIABLES, "Var", p.vars);
    PrintTypeSection(file, p.types);
    PrintFuncSection(file, p.funcs);
    PackageWrites(before, p, name, path);
  }

  lemma PackageWrites(before: string, p: Package, name: string, path: string)
    ensures before + Text(HeaderSegments(name, path) + Section(OVERVIEW, p.doc != "", DocSegments(p.doc)))
            + Text(ValueSection(CONSTANTS, "Const", p.consts)) + Text(ValueSection(VARIABLES, "Var", p.vars))
            + Text(TypeSection(p.types)) + Text(FuncSection(p.funcs))
         == before + PackageText(p, name, path)
  {
    var a := HeaderSegments(name, path) + Section(OVERVIEW, p.doc != "", DocSegments(p.doc));
    var b, c := ValueSection(CONSTANTS, "Const", p.consts), ValueSection(VARIABLES, "Var", p.vars);
    var d, e := TypeSection(p.types), FuncSection(p.funcs);
    Then(before, a, b);
    Then(before, a + b, c);
    Then(before, a + b + c, d);
    Then(before, a + b + c + d, e);
    assert a + b + c + d + e == a + (b + (c + (d + e))) by {
      Assoc5(a, b, c, d, e);
    }
  }
}
