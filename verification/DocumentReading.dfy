/**
 When the document of a package reads as docgen means it: the layout of all documents, and the
 condition of the segments brought down to names, comments, code and the source path.
 */
module DocumentReading {
  import opened Options
  import opened OneLineTypes
  import opened Markdown
  import opened Sequences
  import opened Document
  import opened SegmentReading

  /** Segments that can stand anywhere in a document. */
  predicate Part(ss: seq<Segment>) {
    Laid(ss) && Closed(ss)
  }

  lemma PartAppend(a: seq<Segment>, b: seq<Segment>)
    requires Part(a) && Part(b)
    ensures Part(a + b)
  {
    LaidAppend(a, b);
  }

  lemma {:induction false} EachPart<A>(f: A -> seq<Segment>, xs: seq<A>)
    requires forall x :: x in xs ==> Part(f(x))
    ensures Part(FlatMap(f, xs))
    decreases |xs|
  {
    if xs != [] {
      EachPart(f, xs[1..]);
      assert xs[0] in xs;
      PartAppend(f(xs[0]), FlatMap(f, xs[1..]));
    }
  }

  lemma OnePart(s: Segment)
    requires s.Title? ==> IsHeading(s.text)
    ensures Laid([s]) && (!MayStayOpen(s) ==> Part([s]))
  {
    LaidOne(s);
  }

  lemma DocLaid(doc: string)
    ensures Laid(DocSegments(doc))
  {
    OnePart(Comment(doc));
  }

  /** A comment, or none, and the code behind it. */
  lemma DocPart(doc: string, code: Segment)
    requires code.Fenced?
    ensures Part(DocSegments(doc) + [code])
  {
    DocLaid(doc);
    OnePart(code);
    LaidAppend(DocSegments(doc), [code]);
  }

  lemma KindIsCalm(kind: string)
    requires OneLine(kind)
    ensures Calm(Label("**" + kind + ":**"))
  {
    assert ("**" + kind + ":**")[0] == '*';
  }

  lemma ValuePart(kind: string, v: Value)
    requires OneLine(kind)
    ensures Part(ValueSegments(kind, v))
  {
    var kindLine, code := Label("**" + kind + ":**"), CodeSegment(v.printed);
    DocPart(v.doc, code);
    if v.doc == "" {
      SeqNil([code]);
    } else {
      KindIsCalm(kind);
      OnePart(kindLine);
      PartAppend([kindLine], [Comment(v.doc)] + [code]);
      assert [kindLine] + ([Comment(v.doc)] + [code]) == [kindLine, Comment(v.doc)] + [code];
    }
  }

  /** A heading, a comment or none, and code. */
  lemma HeadedPart(h: string, doc: string, code: Segment)
    requires IsHeading(h) && code.Fenced?
    ensures Part([Title(h)] + DocSegments(doc) + [code])
  {
    OnePart(Title(h));
    DocPart(doc, code);
    PartAppend([Title(h)], DocSegments(doc) + [code]);
    assert [Title(h)] + (DocSegments(doc) + [code]) == [Title(h)] + DocSegments(doc) + [code];
  }

  lemma SectionPart(h: string, present: bool, body: seq<Segment>)
    requires IsHeading(h) && Part(body)
    ensures Part(Section(h, present, body))
  {
    OnePart(Title(h));
    PartAppend([Title(h)], body);
  }

  lemma FuncPart(level: string, f: Func)
    requires level in {"###", "#####"}
    ensures Part(FuncSegments(level, f))
  {
    TitleIsHeading(level + " `" + f.name + "`", |level|);
    HeadedPart(level + " `" + f.name + "`", f.doc, CodeSegment(f.printed));
  }

  lemma FuncsPart(h: string, level: string, fs: seq<Func>)
    requires level in {"###", "#####"} && IsHeading(h)
    ensures Part(Section(h, fs != [], FlatMap(FuncSegmentsOf(level), fs)))
  {
    forall f | f in fs
      ensures Part(FuncSegmentsOf(level)(f))
    {
      FuncPart(level, f);
    }
    EachPart(FuncSegmentsOf(level), fs);
    SectionPart(h, fs != [], FlatMap(FuncSegmentsOf(level), fs));
  }

  lemma MethodsPart(ms: seq<Func>)
    ensures Part(MethodSegments(ms))
  {
    TitleIsHeading(METHODS, 4);
    FuncsPart(METHODS, "#####", ms);
  }

  lemma TypeHeadPart(t: Type)
    ensures Part([Title("### `" + t.name + "`")] + DocSegments(t.doc) + [Fenced(DefinitionPieces(t.name, t.spec))])
  {
    TitleIsHeading("### `" + t.name + "`", 3);
    HeadedPart("### `" + t.name + "`", t.doc, Fenced(DefinitionPieces(t.name, t.spec)));
  }

  lemma TypePart(t: Type)
    ensures Part(TypeSegments(t))
  {
    MethodsPart(t.methods);
    TypeHeadPart(t);
    PartAppend([Title("### `" + t.name + "`")] + DocSegments(t.doc) + [Fenced(DefinitionPieces(t.name, t.spec))],
               MethodSegments(t.methods));
  }

  lemma ValuesPart(h: string, kind: string, vs: seq<Value>)
    requires OneLine(kind) && IsHeading(h)
    ensures Part(ValueSection(h, kind, vs))
    ensures ValueSection(h, kind, vs) != [] ==> ValueSection(h, kind, vs)[0].Title?
  {
    forall v | v in vs
      ensures Part(ValueSegmentsOf(kind)(v))
    {
      ValuePart(kind, v);
    }
    EachPart(ValueSegmentsOf(kind), vs);
    SectionPart(h, vs != [], FlatMap(ValueSegmentsOf(kind), vs));
  }

  lemma AllTypesPart(ts: seq<Type>)
    ensures Part(FlatMap(TypeSegments, ts))
  {
    forall t | t in ts
      ensures Part(TypeSegments(t))
    {
      TypePart(t);
    }
    EachPart(TypeSegments, ts);
  }

  lemma TypesTitle()
    ensures IsHeading(TYPES)
  {
    assert TYPES[0] == '#' && TYPES[1] == '#' && TYPES[2] == ' ';
    TitleIsHeading(TYPES, 2);
  }

  lemma TypesPart(ts: seq<Type>)
    ensures Part(TypeSection(ts))
  {
    AllTypesPart(ts);
    TypesTitle();
    SectionPart(TYPES, ts != [], FlatMap(TypeSegments, ts));
  }

  /** Parts that start with a heading, if they are there at all. */
  predicate SectionLike(ss: seq<Segment>) {
    Part(ss) && (ss != [] ==> ss[0].Title?)
  }

  lemma SectionLikeAppend(a: seq<Segment>, b: seq<Segment>)
    requires SectionLike(a) && SectionLike(b)
    ensures SectionLike(a + b)
  {
    PartAppend(a, b);
  }

  lemma ConstantsPart(vs: seq<Value>)
    ensures SectionLike(ValueSection(CONSTANTS, "Const", vs))
  {
    TitleIsHeading(CONSTANTS, 2);
    ValuesPart(CONSTANTS, "Const", vs);
  }

  lemma VariablesPart(vs: seq<Value>)
    ensures SectionLike(ValueSection(VARIABLES, "Var", vs))
  {
    TitleIsHeading(VARIABLES, 2);
    ValuesPart(VARIABLES, "Var", vs);
  }

  lemma FunctionsPart(fs: seq<Func>)
    ensures SectionLike(FuncSection(fs))
  {
    TitleIsHeading(FUNCTIONS, 2);
    FuncsPart(FUNCTIONS, "###", fs);
  }

  lemma SectionsPart(p: Package)
    ensures SectionLike(SectionSegments(p))
  {
    ConstantsPart(p.consts);
    VariablesPart(p.vars);
    TypesPart(p.types);
    FunctionsPart(p.funcs);
    var b, c, d := ValueSection(VARIABLES, "Var", p.vars), TypeSection(p.types), FuncSection(p.funcs);
    SectionLikeAppend(c, d);
    SectionLikeAppend(b, c + d);
    SectionLikeAppend(ValueSection(CONSTANTS, "Const", p.consts), b + (c + d));
  }

  function SourceLine(path: string): Segment {
    Label("**Source Path:** `" + path + "`")
  }

  lemma HeaderLaid(name: string, path: string)
    ensures Laid(HeaderSegments(name, path))
  {
    var t := Title("# 📦 Package `" + name + "`");
    TitleIsHeading(t.text, 1);
    OnePart(t);
    OnePart(SourceLine(path));
    LaidAppend([t], [SourceLine(path)]);
    assert [t] + [SourceLine(path)] == HeaderSegments(name, path);
  }

  lemma OverviewLaid(doc: string)
    ensures Laid(Section(OVERVIEW, doc != "", DocSegments(doc)))
  {
    TitleIsHeading(OVERVIEW, 2);
    OnePart(Title(OVERVIEW));
    DocLaid(doc);
    LaidAppend([Title(OVERVIEW)], DocSegments(doc));
  }

  lemma PackageLaid(p: Package, name: string, path: string)
    ensures Laid(PackageSegments(p, name, path))
  {
    var over := Section(OVERVIEW, p.doc != "", DocSegments(p.doc));
    HeaderLaid(name, path);
    OverviewLaid(p.doc);
    LaidAppend(HeaderSegments(name, path), over);
    SectionsPart(p);
    LaidAppend(HeaderSegments(name, path) + over, SectionSegments(p));
  }

  function PackageBlocks(p: Package, name: string, path: string): seq<Block> {
    FlatMap(Blocks, PackageSegments(p, name, path))
  }

  predicate SafeDoc(doc: string) {
    doc == "" || Safe(Comment(doc))
  }

  /** A path closes the fences it opens; only a path with line ends can open any. */
  predicate SafePath(path: string) {
    Safe(SourceLine(path))
  }

  lemma OneLinePath(path: string)
    requires OneLine(path)
    ensures SafePath(path) && Blocks(SourceLine(path)) == []
  {
    assert SourceLine(path).text[0] == '*';
    CalmIsSafe(SourceLine(path));
  }

  predicate SafeCode(printed: Option<string>) {
    CodeSafe(Lines(Printed(printed)))
  }

  predicate SafeValue(v: Value) {
    SafeDoc(v.doc) && SafeCode(v.printed)
  }

  predicate SafeFunc(f: Func) {
    OneLine(f.name) && SafeDoc(f.doc) && SafeCode(f.printed)
  }

  predicate SafeValues(vs: seq<Value>) {
    forall v :: v in vs ==> SafeValue(v)
  }

  predicate SafeFuncs(fs: seq<Func>) {
    forall f :: f in fs ==> SafeFunc(f)
  }

  predicate SafeType(t: Type) {
    && OneLine(t.name) && SafeDoc(t.doc)
    && CodeSafe(AllLines(DefinitionPieces(t.name, t.spec)))
    && SafeFuncs(t.methods)
  }

  predicate SafeTypes(ts: seq<Type>) {
    forall t :: t in ts ==> SafeType(t)
  }

  /** The condition on the parts of a package, as a caller can check it. */
  predicate SafePackage(p: Package, name: string, path: string) {
    && OneLine(name) && SafePath(path) && SafeDoc(p.doc)
    && SafeValues(p.consts) && SafeValues(p.vars) && SafeTypes(p.types) && SafeFuncs(p.funcs)
  }

  lemma {:induction false} AllSafeAppend(a: seq<Segment>, b: seq<Segment>)
    ensures AllSafe(a + b) <==> AllSafe(a) && AllSafe(b)
    decreases |a|
  {
    if a == [] {
      assert a + b == b;
    } else {
      assert (a + b)[1..] == a[1..] + b;
      AllSafeAppend(a[1..], b);
    }
  }

  lemma AllSafeRight(a: seq<Segment>, b: seq<Segment>, c: seq<Segment>, d: seq<Segment>)
    ensures AllSafe(a + (b + (c + d))) <==> AllSafe(a) && AllSafe(b) && AllSafe(c) && AllSafe(d)
  {
    AllSafeAppend(c, d);
    AllSafeAppend(b, c + d);
    AllSafeAppend(a, b + (c + d));
  }

  lemma AllSafeLeft(a: seq<Segment>, b: seq<Segment>, c: seq<Segment>, d: seq<Segment>)
    ensures AllSafe(a + b + c + d) <==> AllSafe(a) && AllSafe(b) && AllSafe(c) && AllSafe(d)
  {
    AllSafeAppend(a, b);
    AllSafeAppend(a + b, c);
    AllSafeAppend(a + b + c, d);
  }

  lemma {:induction false} EachAllSafe<A>(f: A -> seq<Segment>, xs: seq<A>)
    ensures AllSafe(FlatMap(f, xs)) <==> forall x :: x in xs ==> AllSafe(f(x))
    decreases |xs|
  {
    if xs != [] {
      EachAllSafe(f, xs[1..]);
      AllSafeAppend(f(xs[0]), FlatMap(f, xs[1..]));
      assert xs == [xs[0]] + xs[1..];
    }
  }

  lemma OneSafe(s: Segment)
    ensures AllSafe([s]) <==> Safe(s)
  {
  }

  lemma TitleSafe(before: string, name: string)
    requires OneLine(before)
    ensures Safe(Title(before + name + "`")) <==> OneLine(name)
  {
    var text := before + name + "`";
    if OneLine(text) {
      assert forall i :: 0 <= i < |name| ==> text[|before| + i] == name[i];
    }
  }

  lemma DocSafe(doc: string)
    ensures AllSafe(DocSegments(doc)) <==> SafeDoc(doc)
  {
  }

  lemma CodeSegmentSafe(printed: Option<string>)
    ensures AllSafe([CodeSegment(printed)]) <==> SafeCode(printed)
  {
    OneSafe(CodeSegment(printed));
    PairLines(Printed(printed));
  }

  lemma ValueSafe(kind: string, v: Value)
    requires OneLine(kind)
    ensures AllSafe(ValueSegments(kind, v)) <==> SafeValue(v)
  {
    var kindLine := Label("**" + kind + ":**");
    var lead := if v.doc == "" then [] else [kindLine, Comment(v.doc)];
    AllSafeAppend(lead, [CodeSegment(v.printed)]);
    CodeSegmentSafe(v.printed);
    if v.doc != "" {
      assert lead == [kindLine] + [Comment(v.doc)];
      AllSafeAppend([kindLine], [Comment(v.doc)]);
      KindIsCalm(kind);
      CalmIsSafe(kindLine);
      OneSafe(kindLine);
      OneSafe(Comment(v.doc));
    }
  }

  lemma FuncSafe(level: string, f: Func)
    requires OneLine(level)
    ensures AllSafe(FuncSegments(level, f)) <==> SafeFunc(f)
  {
    var h := Title(level + " `" + f.name + "`");
    TitleSafe(level + " `", f.name);
    OneSafe(h);
    DocSafe(f.doc);
    CodeSegmentSafe(f.printed);
    AllSafeAppend([h], DocSegments(f.doc));
    AllSafeAppend([h] + DocSegments(f.doc), [CodeSegment(f.printed)]);
  }

  lemma SectionSafe(h: string, present: bool, body: seq<Segment>)
    requires OneLine(h) && (!present ==> body == [])
    ensures AllSafe(Section(h, present, body)) <==> AllSafe(body)
  {
  }

  lemma FuncsSafe(h: string, level: string, fs: seq<Func>)
    requires OneLine(h) && OneLine(level)
    ensures AllSafe(Section(h, fs != [], FlatMap(FuncSegmentsOf(level), fs))) <==> SafeFuncs(fs)
  {
    forall f | f in fs
      ensures AllSafe(FuncSegmentsOf(level)(f)) <==> SafeFunc(f)
    {
      FuncSafe(level, f);
    }
    EachAllSafe(FuncSegmentsOf(level), fs);
    SectionSafe(h, fs != [], FlatMap(FuncSegmentsOf(level), fs));
  }

  lemma FuncSectionsSafe(fs: seq<Func>)
    ensures AllSafe(MethodSegments(fs)) <==> SafeFuncs(fs)
    ensures AllSafe(FuncSection(fs)) <==> SafeFuncs(fs)
  {
    FuncsSafe(METHODS, "#####", fs);
    FuncsSafe(FUNCTIONS, "###", fs);
  }

  lemma HeadingsAreLines()
    ensures OneLine(CONSTANTS) && OneLine(VARIABLES)
  {
  }

  lemma ValuesSafe(h: string, kind: string, vs: seq<Value>)
    requires OneLine(h) && OneLine(kind)
    ensures AllSafe(ValueSection(h, kind, vs)) <==> SafeValues(vs)
  {
    forall v | v in vs
      ensures AllSafe(ValueSegmentsOf(kind)(v)) <==> SafeValue(v)
    {
      ValueSafe(kind, v);
    }
    EachAllSafe(ValueSegmentsOf(kind), vs);
    SectionSafe(h, vs != [], FlatMap(ValueSegmentsOf(kind), vs));
  }

  lemma TypeSplit(t: Type)
    ensures AllSafe(TypeSegments(t)) <==>
              && AllSafe([Title("### `" + t.name + "`")]) && AllSafe(DocSegments(t.doc))
              && AllSafe([Fenced(DefinitionPieces(t.name, t.spec))]) && AllSafe(MethodSegments(t.methods))
  {
    AllSafeLeft([Title("### `" + t.name + "`")], DocSegments(t.doc), [Fenced(DefinitionPieces(t.name, t.spec))],
                MethodSegments(t.methods));
  }

  lemma TypeSafe(t: Type)
    ensures AllSafe(TypeSegments(t)) <==> SafeType(t)
  {
    TypeSplit(t);
    TypeHeadSafe(t);
    OneSafe(Fenced(DefinitionPieces(t.name, t.spec)));
    DocSafe(t.doc);
    FuncSectionsSafe(t.methods);
  }

  lemma TypeHeadSafe(t: Type)
    ensures AllSafe([Title("### `" + t.name + "`")]) <==> OneLine(t.name)
  {
    TitleSafe("### `", t.name);
    OneSafe(Title("### `" + t.name + "`"));
  }

  lemma TypesSafe(ts: seq<Type>)
    ensures AllSafe(TypeSection(ts)) <==> SafeTypes(ts)
  {
    forall t | t in ts
      ensures AllSafe(TypeSegments(t)) <==> SafeType(t)
    {
      TypeSafe(t);
    }
    EachAllSafe(TypeSegments, ts);
    SectionSafe(TYPES, ts != [], FlatMap(TypeSegments, ts));
  }

  lemma HeaderSafe(name: string, path: string)
    ensures AllSafe(HeaderSegments(name, path)) <==> OneLine(name) && SafePath(path)
  {
    var t := Title("# 📦 Package `" + name + "`");
    TitleSafe("# 📦 Package `", name);
    AllSafeAppend([t], [SourceLine(path)]);
    OneSafe(t);
    OneSafe(SourceLine(path));
    assert HeaderSegments(name, path) == [t] + [SourceLine(path)];
  }

  lemma SectionsSplit(p: Package)
    ensures AllSafe(SectionSegments(p)) <==>
              && AllSafe(ValueSection(CONSTANTS, "Const", p.consts)) && AllSafe(ValueSection(VARIABLES, "Var", p.vars))
              && AllSafe(TypeSection(p.types)) && AllSafe(FuncSection(p.funcs))
  {
    AllSafeRight(ValueSection(CONSTANTS, "Const", p.consts), ValueSection(VARIABLES, "Var", p.vars),
                 TypeSection(p.types), FuncSection(p.funcs));
  }

  lemma SectionsSafe(p: Package)
    ensures AllSafe(SectionSegments(p)) <==>
              SafeValues(p.consts) && SafeValues(p.vars) && SafeTypes(p.types) && SafeFuncs(p.funcs)
  {
    HeadingsAreLines();
    SectionsSplit(p);
    ValuesSafe(CONSTANTS, "Const", p.consts);
    ValuesSafe(VARIABLES, "Var", p.vars);
    TypesSafe(p.types);
    FuncSectionsSafe(p.funcs);
  }

  lemma PackageSafe(p: Package, name: string, path: string)
    ensures AllSafe(PackageSegments(p, name, path)) <==> SafePackage(p, name, path)
  {
    var over := Section(OVERVIEW, p.doc != "", DocSegments(p.doc));
    HeaderSafe(name, path);
    DocSafe(p.doc);
    SectionSafe(OVERVIEW, p.doc != "", DocSegments(p.doc));
    SectionsSafe(p);
    AllSafeAppend(HeaderSegments(name, path), over);
    AllSafeAppend(HeaderSegments(name, path) + over, SectionSegments(p));
  }

  /**
   The document of a package reads as docgen means it, and ends outside every fence, exactly when
   its names are single lines, its comments and its source path close the fences they open, and its
   code has no line that closes docgen's; whether or not the printing of any declaration failed.
   */
  lemma {:induction false} DocumentReadsExactly(p: Package, name: string, path: string)
    ensures ReadText(PackageText(p, name, path)) == Reading(PackageBlocks(p, name, path), Prose)
       <==> SafePackage(p, name, path)
  {
    PackageLaid(p, name, path);
    PackageSafe(p, name, path);
    ReadsExactly(PackageSegments(p, name, path));
    ReadUnlines(FlatMap(Pieces, PackageSegments(p, name, path)));
  }
}
