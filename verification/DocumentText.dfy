/**
 The document, character by character: headings, labels, fences and the order of the parts, written
 out as they stand in the file.
 */
module DocumentText {
  import opened Sequences
  import opened GoAst
  import opened Printer
  import opened Markdown
  import opened Document

  /** The things of a list are written one behind the other. */
  lemma ListWritten<A>(f: A -> seq<Segment>, a: seq<A>, b: seq<A>)
    ensures Text(FlatMap(f, [])) == ""
    ensures Text(FlatMap(f, a + b)) == Text(FlatMap(f, a)) + Text(FlatMap(f, b))
    ensures forall x :: Text(FlatMap(f, [x])) == Text(f(x))
  {
    FlatMapAppend(f, a, b);
    TextAppend(FlatMap(f, a), FlatMap(f, b));
    forall x
      ensures FlatMap(f, [x]) == f(x)
    {
      FlatMapThen(f, [x], []);
      SeqNil(FlatMap(f, [x]));
      SeqNil(f(x));
    }
  }

  /** A heading, a comment or none, and what go/printer writes, in a fence. */
  lemma EntryWritten(level: string, f: Func)
    ensures Text(FuncSegments(level, f))
         == level + " `" + f.name + "`" + "\n\n" + (if f.doc == "" then "" else TrimSpace(f.doc) + "\n\n")
            + "```go\n" + (if f.printed.Some? then f.printed.value else "") + "\n```\n\n"
  {
    var title, head := Title(level + " `" + f.name + "`"), [Title(level + " `" + f.name + "`")] + DocSegments(f.doc);
    SegmentText(title);
    DocText(f.doc);
    TextAppend([title], DocSegments(f.doc));
    TextAppend(head, [CodeSegment(f.printed)]);
    CodeWrites(Text(head), f.printed);
  }

  lemma TitleMarks(level: string, name: string)
    ensures "### `" + name + "`\n\n" == "###" + " `" + name + "`" + "\n\n"
    ensures "##### `" + name + "`\n\n" == "#####" + " `" + name + "`" + "\n\n"
  {
    assert "### `" == "###" + " `" && "##### `" == "#####" + " `" && "`\n\n" == "`" + "\n\n";
    Assoc("### `" + name, "`", "\n\n");
    Assoc("##### `" + name, "`", "\n\n");
  }

  lemma FuncWritten(f: Func)
    ensures Text(FuncSegments("###", f))
         == "### `" + f.name + "`\n\n" + (if f.doc == "" then "" else TrimSpace(f.doc) + "\n\n")
            + "```go\n" + (if f.printed.Some? then f.printed.value else "") + "\n```\n\n"
  {
    EntryWritten("###", f);
    TitleMarks("###", f.name);
  }

  lemma MethodWritten(m: Func)
    ensures Text(FuncSegments("#####", m))
         == "##### `" + m.name + "`\n\n" + (if m.doc == "" then "" else TrimSpace(m.doc) + "\n\n")
            + "```go\n" + (if m.printed.Some? then m.printed.value else "") + "\n```\n\n"
  {
    EntryWritten("#####", m);
    TitleMarks("#####", m.name);
  }

  lemma SectionWritten(heading: string, present: bool, body: seq<Segment>)
    ensures Text(Section(heading, present, body)) == if present then heading + "\n\n" + Text(body) else ""
  {
    if present {
      SegmentText(Title(heading));
      TextAppend([Title(heading)], body);
    }
  }

  lemma MethodsWritten(ms: seq<Func>)
    ensures Text(MethodSegments(ms)) == if ms == [] then "" else "#### Methods\n\n" + Text(FlatMap(FuncSegmentsOf("#####"), ms))
  {
    SectionWritten(METHODS, ms != [], FlatMap(FuncSegmentsOf("#####"), ms));
    assert METHODS + "\n\n" == "#### Methods\n\n";
  }

  /** A field line: a tab, the names, the type and the tag. */
  lemma FieldWritten(f: Field)
    ensures Unlines(FieldPieces(f))
         == "\t" + (if f.names == [] then "" else Join(f.names, ", ") + " ") + AstString(f.typ)
            + (if f.tag.Some? then " " + f.tag.value else "") + "\n"
  {
    LineText(FieldPiece(f));
    var lead := if f.names == [] then "" else Join(f.names, ", ") + " ";
    assert Item(f) == lead + AstString(f.typ);
    Assoc("\t", lead, AstString(f.typ));
    SeqNil("\t" + Item(f));
  }

  lemma BlockWritten(head: string, fs: seq<Field>)
    ensures Unlines([head] + FlatMap(FieldPieces, fs) + ["}"]) == head + "\n" + Unlines(FlatMap(FieldPieces, fs)) + "}\n"
  {
    LineText(head);
    LineText("}");
    UnlinesThree([head], FlatMap(FieldPieces, fs), ["}"]);
    Assoc(head + "\n", Unlines(FlatMap(FieldPieces, fs)), "}\n");
  }

  /** The definition of a type, for every kind of spec and a nil list too. */
  lemma DefinitionWritten(name: string, spec: TypeSpec)
    ensures Unlines(DefinitionPieces(name, spec))
         == match spec
            case Struct(fs) =>
              "type " + name + " struct {\n" + Unlines(FlatMap(FieldPieces, if fs.List? then fs.fields else [])) + "}\n"
            case Interface(ms) =>
              "type " + name + " interface {\n" + Unlines(FlatMap(FieldPieces, if ms.List? then ms.fields else [])) + "}\n"
            case Defined(t) => "type " + name + " " + AstString(t) + "\n"
            case NotATypeSpec => ""
  {
    match spec
    case Struct(fs) =>
      BlockWritten("type " + name + " struct {", ListFields(fs));
      assert " struct {\n" == " struct {" + "\n";
      Assoc("type " + name, " struct {", "\n");
    case Interface(ms) =>
      BlockWritten("type " + name + " interface {", ListFields(ms));
      assert " interface {\n" == " interface {" + "\n";
      Assoc("type " + name, " interface {", "\n");
    case Defined(t) =>
      LineText("type " + name + " " + AstString(t));
    case NotATypeSpec =>
  }

  lemma TypeWritten(t: Type)
    ensures Text(TypeSegments(t))
         == "### `" + t.name + "`\n\n" + (if t.doc == "" then "" else TrimSpace(t.doc) + "\n\n")
            + "```go\n" + Unlines(DefinitionPieces(t.name, t.spec)) + "```\n\n" + Text(MethodSegments(t.methods))
  {
    var title, code := Title("### `" + t.name + "`"), Fenced(DefinitionPieces(t.name, t.spec));
    var head := [title] + DocSegments(t.doc);
    SegmentText(title);
    DocText(t.doc);
    TextAppend([title], DocSegments(t.doc));
    TextAppend(head, [code]);
    TextAppend(head + [code], MethodSegments(t.methods));
    FencedWrites(Text(head), code.pieces);
    assert "`\n\n" == "`" + "\n\n";
    Assoc("### `" + t.name, "`", "\n\n");
  }

  lemma HeaderWritten(name: string, path: string)
    ensures Text(HeaderSegments(name, path)) == "# 📦 Package `" + name + "`\n\n" + ("**Source Path:** `" + path + "`\n\n")
  {
    var title, source := Title("# 📦 Package `" + name + "`"), Label("**Source Path:** `" + path + "`");
    SegmentText(title);
    SegmentText(source);
    TextAppend([title], [source]);
    assert [title] + [source] == [title, source];
    assert "`\n\n" == "`" + "\n\n";
    Assoc("# 📦 Package `" + name, "`", "\n\n");
    Assoc("**Source Path:** `" + path, "`", "\n\n");
  }

  lemma OverviewWritten(doc: string)
    ensures Text(Section(OVERVIEW, doc != "", DocSegments(doc)))
         == if doc == "" then "" else "## 📝 Overview\n\n" + (TrimSpace(doc) + "\n\n")
  {
    SectionWritten(OVERVIEW, doc != "", DocSegments(doc));
    DocText(doc);
    assert OVERVIEW + "\n\n" == "## 📝 Overview\n\n";
  }

  /** The four sections, each under its own heading, and there only if it has something to list. */
  lemma SectionsWritten(p: Package)
    ensures Text(ValueSection(CONSTANTS, "Const", p.consts))
         == if p.consts == [] then "" else "## 🔢 Constants\n\n" + Text(FlatMap(ValueSegmentsOf("Const"), p.consts))
    ensures Text(ValueSection(VARIABLES, "Var", p.vars))
         == if p.vars == [] then "" else "## 🏷️ Variables\n\n" + Text(FlatMap(ValueSegmentsOf("Var"), p.vars))
    ensures Text(TypeSection(p.types)) == if p.types == [] then "" else "## 🧩 Types\n\n" + Text(FlatMap(TypeSegments, p.types))
    ensures Text(FuncSection(p.funcs))
         == if p.funcs == [] then "" else "## 🚀 Functions\n\n" + Text(FlatMap(FuncSegmentsOf("###"), p.funcs))
  {
    SectionWritten(CONSTANTS, p.consts != [], FlatMap(ValueSegmentsOf("Const"), p.consts));
    SectionWritten(VARIABLES, p.vars != [], FlatMap(ValueSegmentsOf("Var"), p.vars));
    SectionWritten(TYPES, p.types != [], FlatMap(TypeSegments, p.types));
    SectionWritten(FUNCTIONS, p.funcs != [], FlatMap(FuncSegmentsOf("###"), p.funcs));
    assert CONSTANTS + "\n\n" == "## 🔢 Constants\n\n";
    assert VARIABLES + "\n\n" == "## 🏷️ Variables\n\n";
    assert TYPES + "\n\n" == "## 🧩 Types\n\n";
    assert FUNCTIONS + "\n\n" == "## 🚀 Functions\n\n";
  }

  /** The whole document. */
  lemma PackageWritten(p: Package, name: string, path: string)
    ensures PackageText(p, name, path)
         == ("# 📦 Package `" + name + "`\n\n" + ("**Source Path:** `" + path + "`\n\n"))
            + (if p.doc == "" then "" else "## 📝 Overview\n\n" + (TrimSpace(p.doc) + "\n\n"))
            + (if p.consts == [] then "" else "## 🔢 Constants\n\n" + Text(FlatMap(ValueSegmentsOf("Const"), p.consts)))
            + (if p.vars == [] then "" else "## 🏷️ Variables\n\n" + Text(FlatMap(ValueSegmentsOf("Var"), p.vars)))
            + (if p.types == [] then "" else "## 🧩 Types\n\n" + Text(FlatMap(TypeSegments, p.types)))
            + (if p.funcs == [] then "" else "## 🚀 Functions\n\n" + Text(FlatMap(FuncSegmentsOf("###"), p.funcs)))
  {
    var over := Section(OVERVIEW, p.doc != "", DocSegments(p.doc));
    HeaderWritten(name, path);
    OverviewWritten(p.doc);
    SectionsWritten(p);
    TextAppend(HeaderSegments(name, path), over);
    PackageWrites("", p, name, path);
    SeqNil(PackageText(p, name, path));
    SeqNil(Text(HeaderSegments(name, path) + over));
  }

  /** A group with a comment, behind its label. */
  lemma LabelledText(kind: string, start: string, v: Value)
    requires v.doc != "" && start == "**" + kind + ":**\n\n"
    ensures Text(ValueSegments(kind, v))
         == start + (TrimSpace(v.doc) + "\n\n```go\n" + (if v.printed.Some? then v.printed.value else "") + "\n```\n\n")
  {
    ValueWritten(kind, v);
    LabelThen(start, TrimSpace(v.doc), "\n\n```go\n", if v.printed.Some? then v.printed.value else "", "\n```\n\n");
  }

  lemma LabelledGroup(v: Value) returns (body: string)
    requires v.doc != ""
    ensures body == TrimSpace(v.doc) + "\n\n```go\n" + (if v.printed.Some? then v.printed.value else "") + "\n```\n\n"
    ensures Text(ValueSegments("Const", v)) == "**Const:**\n\n" + body
    ensures Text(ValueSegments("Var", v)) == "**Var:**\n\n" + body
  {
    body := TrimSpace(v.doc) + "\n\n```go\n" + (if v.printed.Some? then v.printed.value else "") + "\n```\n\n";
    assert "**Const:**\n\n" == "**" + "Const" + ":**\n\n";
    LabelledText("Const", "**Const:**\n\n", v);
    assert "**Var:**\n\n" == "**" + "Var" + ":**\n\n";
    LabelledText("Var", "**Var:**\n\n", v);
  }

  lemma LabelThen(l: string, a: string, b: string, c: string, d: string)
    ensures l + a + b + c + d == l + (a + b + c + d)
  {
    Assoc(l, a, b);
    Assoc(l, a + b, c);
    Assoc(l, a + b + c, d);
  }

  /**
   A group that is a variable and no longer a constant: everything around it stays as it is, its
   label changes from one kind to the other, and the heading of the variables moves in front of it.
   */
  lemma MovedGroup(p: Package, cs: seq<Value>, v: Value, vs: seq<Value>, name: string, path: string)
    returns (front: string, body: string, back: string)
    requires v.doc != ""
    ensures PackageText(p.(consts := cs + [v], vars := vs), name, path)
         == front + ("## 🔢 Constants\n\n" + (Text(FlatMap(ValueSegmentsOf("Const"), cs)) + ("**Const:**\n\n" + body)))
            + (if vs == [] then "" else "## 🏷️ Variables\n\n" + Text(FlatMap(ValueSegmentsOf("Var"), vs))) + back
    ensures PackageText(p.(consts := cs, vars := [v] + vs), name, path)
         == front + (if cs == [] then "" else "## 🔢 Constants\n\n" + Text(FlatMap(ValueSegmentsOf("Const"), cs)))
            + ("## 🏷️ Variables\n\n" + ("**Var:**\n\n" + body + Text(FlatMap(ValueSegmentsOf("Var"), vs)))) + back
  {
    var one, other := p.(consts := cs + [v], vars := vs), p.(consts := cs, vars := [v] + vs);
    body := LabelledGroup(v);
    front, back := PackageAround(one, name, path);
    var front', back' := PackageAround(other, name, path);
    ListWritten(ValueSegmentsOf("Const"), cs, [v]);
    ListWritten(ValueSegmentsOf("Var"), [v], vs);
  }

  /** The values of a package, and what stands before and behind them. */
  lemma PackageAround(p: Package, name: string, path: string) returns (front: string, back: string)
    ensures front == "# 📦 Package `" + name + "`\n\n" + ("**Source Path:** `" + path + "`\n\n")
                     + (if p.doc == "" then "" else "## 📝 Overview\n\n" + (TrimSpace(p.doc) + "\n\n"))
    ensures back == (if p.types == [] then "" else "## 🧩 Types\n\n" + Text(FlatMap(TypeSegments, p.types)))
                    + (if p.funcs == [] then "" else "## 🚀 Functions\n\n" + Text(FlatMap(FuncSegmentsOf("###"), p.funcs)))
    ensures PackageText(p, name, path)
         == front + (if p.consts == [] then "" else "## 🔢 Constants\n\n" + Text(FlatMap(ValueSegmentsOf("Const"), p.consts)))
            + (if p.vars == [] then "" else "## 🏷️ Variables\n\n" + Text(FlatMap(ValueSegmentsOf("Var"), p.vars))) + back
  {
    front := "# 📦 Package `" + name + "`\n\n" + ("**Source Path:** `" + path + "`\n\n")
             + (if p.doc == "" then "" else "## 📝 Overview\n\n" + (TrimSpace(p.doc) + "\n\n"));
    var types := if p.types == [] then "" else "## 🧩 Types\n\n" + Text(FlatMap(TypeSegments, p.types));
    var funcs := if p.funcs == [] then "" else "## 🚀 Functions\n\n" + Text(FlatMap(FuncSegmentsOf("###"), p.funcs));
    back := types + funcs;
    PackageWritten(p, name, path);
    Assoc(front + (if p.consts == [] then "" else "## 🔢 Constants\n\n" + Text(FlatMap(ValueSegmentsOf("Const"), p.consts)))
          + (if p.vars == [] then "" else "## 🏷️ Variables\n\n" + Text(FlatMap(ValueSegmentsOf("Var"), p.vars))), types, funcs);
  }
}
