/**
 The way back from a document to the package it lists: a reader of blocks that rebuilds the lists
 of constants, variables, types with their methods, and functions, and what it rebuilds when the
 comments have code blocks but no headings like docgen's.
 */
module Catalogue {
  import opened Options
  import opened Sequences
  import opened OneLineTypes
  import opened Markdown
  import opened Document
  import opened SegmentReading
  import opened DocumentReading

  datatype FuncEntry = FuncEntry(name: string, code: seq<string>)

  datatype TypeEntry = TypeEntry(name: string, definition: seq<string>, methods: seq<FuncEntry>)

  datatype Listing = Listing(name: string, consts: seq<seq<string>>, vars: seq<seq<string>>,
                             types: seq<TypeEntry>, funcs: seq<FuncEntry>)

  function Codes(v: Value): seq<string> {
    Lines(Printed(v.printed))
  }

  function EntryOf(f: Func): FuncEntry {
    FuncEntry(f.name, Lines(Printed(f.printed)))
  }

  function TypeEntryOf(t: Type): TypeEntry {
    TypeEntry(t.name, AllLines(DefinitionPieces(t.name, t.spec)), Each(EntryOf, t.methods))
  }

  /** Everything the document is to show of a package, in the package's order. */
  function ListingOf(p: Package, name: string): Listing {
    Listing(name, Each(Codes, p.consts), Each(Codes, p.vars), Each(TypeEntryOf, p.types), Each(EntryOf, p.funcs))
  }

  const PACKAGE := "# 📦 Package"

  /** The name in a heading of the form: level `name` */
  function NameIn(level: string, b: Block): Option<string> {
    var n := |level| + 2;
    if b.Heading? && level + " `" <= b.text && n < |b.text| && b.text[|b.text| - 1] == '`'
    then Some(b.text[n..|b.text| - 1]) else None
  }

  /** The place of a section among the sections; all other blocks come last. */
  function Rank(b: Block): nat {
    if b == Heading(OVERVIEW) then 0
    else if b == Heading(CONSTANTS) then 1
    else if b == Heading(VARIABLES) then 2
    else if b == Heading(TYPES) then 3
    else if b == Heading(FUNCTIONS) then 4
    else 5
  }

  predicate IsSection(b: Block) {
    Rank(b) < 5
  }

  /** The headings inside a section: of a type, a function or a method, and above the methods. */
  predicate IsMinor(b: Block) {
    NameIn("###", b).Some? || NameIn("#####", b).Some? || b == Heading(METHODS)
  }

  /** A block that can only come from a copied text. */
  predicate Foreign(b: Block) {
    !b.Code? && !IsSection(b) && !IsMinor(b)
  }

  /** A document's blocks without its foreign ones. */
  function Own(bs: seq<Block>): (r: seq<Block>)
    ensures |r| <= |bs|
    ensures forall b :: b in r ==> !Foreign(b)
  {
    if bs == [] then [] else (if Foreign(bs[0]) then [] else [bs[0]]) + Own(bs[1..])
  }

  /** What the reader of listings sees of some segments. */
  function BlocksOf(ss: seq<Segment>): seq<Block> {
    Own(FlatMap(Blocks, ss))
  }

  predicate AllCode(bs: seq<Block>) {
    forall b :: b in bs ==> b.Code?
  }

  predicate StartsWithCode(bs: seq<Block>) {
    bs != [] && bs[0].Code?
  }

  predicate AtTitle(level: string, bs: seq<Block>) {
    bs != [] && NameIn(level, bs[0]).Some?
  }

  function TakeCodes(bs: seq<Block>): (r: (seq<seq<string>>, seq<Block>))
    ensures |r.0| + |r.1| == |bs| && !StartsWithCode(r.1)
  {
    if !StartsWithCode(bs) then ([], bs)
    else var (codes, rest) := TakeCodes(bs[1..]); ([bs[0].lines] + codes, rest)
  }

  /** Of the code behind a title, the last block is its own; what stands before is the comment's. */
  function TakeFuncs(level: string, bs: seq<Block>): (r: (seq<FuncEntry>, seq<Block>))
    ensures |r.1| <= |bs| && (r.0 == [] ==> r.1 == bs)
    decreases |bs|
  {
    if !AtTitle(level, bs) || !StartsWithCode(bs[1..]) then ([], bs)
    else
      var (codes, next) := TakeCodes(bs[1..]);
      var (es, rest) := TakeFuncs(level, next);
      ([FuncEntry(NameIn(level, bs[0]).value, codes[|codes| - 1])] + es, rest)
  }

  function TakeMethods(bs: seq<Block>): (r: (seq<FuncEntry>, seq<Block>))
    ensures |r.1| <= |bs|
  {
    if bs == [] || bs[0] != Heading(METHODS) || TakeFuncs("#####", bs[1..]).0 == [] then ([], bs)
    else TakeFuncs("#####", bs[1..])
  }

  function TakeTypes(bs: seq<Block>): (r: (seq<TypeEntry>, seq<Block>))
    ensures |r.1| <= |bs|
    decreases |bs|
  {
    if !AtTitle("###", bs) || !StartsWithCode(bs[1..]) then ([], bs)
    else
      var (codes, k) := TakeCodes(bs[1..]);
      var (ms, next) := TakeMethods(k);
      var (es, rest) := TakeTypes(next);
      ([TypeEntry(NameIn("###", bs[0]).value, codes[|codes| - 1], ms)] + es, rest)
  }

  /** Behind the heading, if it is there. */
  function Skip(h: string, bs: seq<Block>): (r: seq<Block>)
    ensures |r| <= |bs|
  {
    if bs != [] && bs[0] == Heading(h) then bs[1..] else bs
  }

  /** Behind the overview: whatever code stands before the sections is a comment's. */
  function AfterOverview(bs: seq<Block>): (r: seq<Block>)
    ensures !StartsWithCode(r)
  {
    TakeCodes(Skip(OVERVIEW, TakeCodes(bs).1)).1
  }

  function ReadSections(name: string, bs: seq<Block>): Option<Listing> {
    var (consts, b1) := TakeCodes(Skip(CONSTANTS, bs));
    var (vars, b2) := TakeCodes(Skip(VARIABLES, b1));
    var (types, b3) := TakeTypes(Skip(TYPES, b2));
    var (funcs, b4) := TakeFuncs("###", Skip(FUNCTIONS, b3));
    if b4 == [] then Some(Listing(name, consts, vars, types, funcs)) else None
  }

  function ReadListing(bs: seq<Block>): Option<Listing> {
    if bs == [] then None else
    var name :- NameIn(PACKAGE, bs[0]);
    ReadSections(name, AfterOverview(Own(bs[1..])))
  }

  /** The headings like docgen's, and the code blocks, that a comment brings into the document. */
  function Brought(doc: string): seq<Block> {
    BlocksOf(DocSegments(doc))
  }

  /** A comment without headings like docgen's; code blocks and other headings it may have. */
  predicate CalmDoc(doc: string) {
    AllCode(Brought(doc))
  }

  /** A comment without code blocks either. */
  predicate PlainDoc(doc: string) {
    Brought(doc) == []
  }

  predicate CalmFuncs(fs: seq<Func>) {
    forall f :: f in fs ==> CalmDoc(f.doc)
  }

  predicate CalmTypes(ts: seq<Type>) {
    forall t :: t in ts ==> CalmDoc(t.doc) && CalmFuncs(t.methods)
  }

  predicate CalmValues(vs: seq<Value>) {
    forall v :: v in vs ==> CalmDoc(v.doc)
  }

  predicate PlainValues(vs: seq<Value>) {
    forall v :: v in vs ==> PlainDoc(v.doc)
  }

  function OverviewSection(doc: string): seq<Segment> {
    Section(OVERVIEW, doc != "", DocSegments(doc))
  }

  /** What stands between the title and the sections. */
  function Front(doc: string, path: string): seq<Block> {
    BlocksOf([SourceLine(path)] + OverviewSection(doc))
  }

  /** Section headings without code, in the order of the sections, from one rank up to another. */
  predicate Idle(bs: seq<Block>, low: nat, limit: nat) {
    bs == [] || (low <= Rank(bs[0]) < limit && Idle(bs[1..], Rank(bs[0]) + 1, limit))
  }

  /** The rank of the first section that a package has. */
  function FirstRank(p: Package): (r: nat)
    ensures 1 <= r <= 5
  {
    if p.consts != [] then 1
    else if p.vars != [] then 2
    else if p.types != [] then 3
    else if p.funcs != [] then 4
    else 5
  }

  /** Behind the overview, path and package comment bring at most headings of sections that the package skips. */
  predicate FrontOk(p: Package, path: string) {
    Idle(AfterOverview(Front(p.doc, path)), 1, FirstRank(p))
  }

  predicate CalmPackage(p: Package, path: string) {
    FrontOk(p, path) && CalmValues(p.consts) && CalmValues(p.vars) && CalmTypes(p.types) && CalmFuncs(p.funcs)
  }

  /** Exactly what it takes to rebuild the listing. */
  predicate Recoverable(p: Package, path: string) {
    CalmPackage(p, path) && PlainValues(p.consts) && PlainValues(p.vars)
  }

  lemma TitleOf(level: string, name: string)
    ensures NameIn(level, Heading(level + " `" + name + "`")) == Some(name)
  {
    var text := level + " `" + name + "`";
    assert text == (level + " `") + (name + "`");
    assert level + " `" <= text;
    assert text[|level| + 2..|text| - 1] == name;
  }

  lemma {:induction false} OwnAppend(a: seq<Block>, b: seq<Block>)
    ensures Own(a + b) == Own(a) + Own(b)
    decreases |a|
  {
    if a == [] {
      assert a + b == b;
    } else {
      assert (a + b)[1..] == a[1..] + b;
      OwnAppend(a[1..], b);
      Regroup(if Foreign(a[0]) then [] else [a[0]], Own(a[1..]), Own(b));
    }
  }

  lemma OwnOne(b: Block)
    requires !Foreign(b)
    ensures Own([b]) == [b]
  {
    assert [b][1..] == [];
  }

  lemma SectionTitles()
    ensures Rank(Heading(OVERVIEW)) == 0 && Rank(Heading(CONSTANTS)) == 1 && Rank(Heading(VARIABLES)) == 2
    ensures Rank(Heading(TYPES)) == 3 && Rank(Heading(FUNCTIONS)) == 4
  {
    assert OVERVIEW[5] == 'O' && CONSTANTS[5] == 'C' && TYPES[5] == 'T' && FUNCTIONS[5] == 'F';
    assert VARIABLES[3] != OVERVIEW[3] && VARIABLES[3] != CONSTANTS[3] && VARIABLES[3] != TYPES[3]
        && VARIABLES[3] != FUNCTIONS[3];
  }

  lemma BlocksJoin(a: seq<Segment>, b: seq<Segment>)
    ensures BlocksOf(a + b) == BlocksOf(a) + BlocksOf(b)
  {
    FlatMapAppend(Blocks, a, b);
    OwnAppend(FlatMap(Blocks, a), FlatMap(Blocks, b));
  }

  lemma BlocksAppend(a: seq<Segment>, b: seq<Segment>, rest: seq<Block>)
    ensures BlocksOf(a + b) + rest == BlocksOf(a) + (BlocksOf(b) + rest)
  {
    BlocksJoin(a, b);
    Regroup(BlocksOf(a), BlocksOf(b), rest);
  }

  lemma BlocksOfOne(s: Segment)
    ensures BlocksOf([s]) == Own(Blocks(s))
  {
    FlatMapThen(Blocks, [s], []);
    SeqNil(FlatMap(Blocks, [s]));
    SeqNil(Blocks(s));
  }

  lemma TitleShape(h: string)
    requires !Foreign(Heading(h))
    ensures BlocksOf([Title(h)]) == [Heading(h)]
  {
    BlocksOfOne(Title(h));
    OwnOne(Heading(h));
  }

  /** The blocks of a list of things, from the first thing on. */
  lemma EachThen<A>(f: A -> seq<Segment>, xs: seq<A>, rest: seq<Block>)
    ensures BlocksOf(FlatMap(f, xs)) + rest
         == if xs == [] then rest else BlocksOf(f(xs[0])) + (BlocksOf(FlatMap(f, xs[1..])) + rest)
  {
    if xs == [] {
      SeqNil(rest);
    } else {
      BlocksAppend(f(xs[0]), FlatMap(f, xs[1..]), rest);
    }
  }

  lemma CodeShape(ps: seq<string>)
    ensures BlocksOf([Fenced(ps)]) == [Code(AllLines(ps))]
  {
    BlocksOfOne(Fenced(ps));
    OwnOne(Code(AllLines(ps)));
  }

  lemma PrintedShape(printed: Option<string>)
    ensures BlocksOf([CodeSegment(printed)]) == [Code(Lines(Printed(printed)))]
  {
    CodeShape([Printed(printed)]);
    PairLines(Printed(printed));
  }

  lemma KindShape(kind: string)
    requires OneLine(kind)
    ensures BlocksOf([Label("**" + kind + ":**")]) == []
  {
    KindIsCalm(kind);
    CalmIsSafe(Label("**" + kind + ":**"));
    BlocksOfOne(Label("**" + kind + ":**"));
  }

  lemma ValueShape(kind: string, v: Value)
    requires OneLine(kind)
    ensures BlocksOf(ValueSegments(kind, v)) == Brought(v.doc) + [Code(Codes(v))]
  {
    var code := [CodeSegment(v.printed)];
    PrintedShape(v.printed);
    if v.doc == "" {
      SeqNil(code);
      SeqNil([Code(Codes(v))]);
    } else {
      var lead := [Label("**" + kind + ":**"), Comment(v.doc)];
      assert lead == [Label("**" + kind + ":**")] + DocSegments(v.doc);
      BlocksJoin([Label("**" + kind + ":**")], DocSegments(v.doc));
      KindShape(kind);
      SeqNil(Brought(v.doc));
      BlocksJoin(lead, code);
    }
  }

  lemma LevelShape(level: string, name: string)
    requires level in {"###", "#####"}
    ensures IsMinor(Heading(level + " `" + name + "`")) && !IsSection(Heading(level + " `" + name + "`"))
  {
    TitleOf(level, name);
    MinorIsNoSection(Heading(level + " `" + name + "`"));
  }

  lemma MinorIsNoSection(b: Block)
    requires IsMinor(b)
    ensures Rank(b) == 5
  {
    assert b.text[2] == '#';
  }

  /** A title, a comment and code. */
  lemma EntryShape(h: string, doc: string, code: Segment)
    requires IsMinor(Heading(h)) && code.Fenced?
    ensures BlocksOf([Title(h)] + DocSegments(doc) + [code]) == [Heading(h)] + (Brought(doc) + [Code(AllLines(code.pieces))])
  {
    BlocksJoin([Title(h)] + DocSegments(doc), [code]);
    BlocksJoin([Title(h)], DocSegments(doc));
    TitleShape(h);
    CodeShape(code.pieces);
    Regroup([Heading(h)], Brought(doc), [Code(AllLines(code.pieces))]);
  }

  lemma FuncShape(level: string, f: Func)
    requires level in {"###", "#####"}
    ensures BlocksOf(FuncSegments(level, f))
         == [Heading(level + " `" + f.name + "`")] + (Brought(f.doc) + [Code(EntryOf(f).code)])
  {
    LevelShape(level, f.name);
    EntryShape(level + " `" + f.name + "`", f.doc, CodeSegment(f.printed));
    PairLines(Printed(f.printed));
  }

  lemma TypeShape(t: Type)
    ensures BlocksOf(TypeSegments(t))
         == [Heading("###" + " `" + t.name + "`")] + (Brought(t.doc) + [Code(TypeEntryOf(t).definition)])
            + BlocksOf(MethodSegments(t.methods))
  {
    var h := "### `" + t.name + "`";
    assert "### `" == "###" + " `";
    LevelShape("###", t.name);
    EntryShape(h, t.doc, Fenced(DefinitionPieces(t.name, t.spec)));
    BlocksJoin([Title(h)] + DocSegments(t.doc) + [Fenced(DefinitionPieces(t.name, t.spec))], MethodSegments(t.methods));
  }

  /** A section from its blocks on, present or not. */
  lemma SectionThen(h: string, present: bool, body: seq<Segment>, rest: seq<Block>)
    requires !Foreign(Heading(h))
    requires !present ==> body == []
    ensures BlocksOf(Section(h, present, body)) + rest
         == if present then [Heading(h)] + (BlocksOf(body) + rest) else rest
    ensures !present ==> BlocksOf(body) == []
  {
    if present {
      BlocksAppend([Title(h)], body, rest);
      TitleShape(h);
    } else {
      SeqNil(rest);
    }
  }

  lemma SkipSection(h: string, present: bool, body: seq<Segment>, rest: seq<Block>)
    requires (rest != [] ==> rest[0] != Heading(h)) && !Foreign(Heading(h))
    requires !present ==> body == []
    ensures Skip(h, BlocksOf(Section(h, present, body)) + rest) == BlocksOf(body) + rest
  {
    SectionThen(h, present, body, rest);
    if present {
      ConsTail(Heading(h), BlocksOf(body) + rest);
    } else {
      SeqNil(rest);
    }
  }

  /** Code in front of something else is taken as it is. */
  lemma {:induction false} TakeAll(a: seq<Block>, rest: seq<Block>)
    requires AllCode(a) && !StartsWithCode(rest)
    ensures TakeCodes(a + rest) == (TakeCodes(a).0, rest)
    decreases |a|
  {
    if a == [] {
      SeqNil(rest);
    } else {
      assert a[0] in a && (a + rest)[1..] == a[1..] + rest;
      TakeAll(a[1..], rest);
    }
  }

  lemma {:induction false} TakeBoth(a: seq<Block>, b: seq<Block>)
    requires AllCode(a)
    ensures TakeCodes(a + b).0 == TakeCodes(a).0 + TakeCodes(b).0
    ensures |TakeCodes(a).0| == |a|
    decreases |a|
  {
    if a == [] {
      SeqNil(b);
    } else {
      assert a[0] in a && (a + b)[1..] == a[1..] + b;
      TakeBoth(a[1..], b);
      Regroup([a[0].lines], TakeCodes(a[1..]).0, TakeCodes(b).0);
    }
  }

  /** The code blocks that a constant or variable brings, its own last. */
  function ValueCodes(v: Value): seq<seq<string>> {
    TakeCodes(Brought(v.doc)).0 + [Codes(v)]
  }

  lemma {:induction false} ValuesAreCode(kind: string, vs: seq<Value>)
    requires CalmValues(vs) && OneLine(kind)
    ensures var bs := BlocksOf(FlatMap(ValueSegmentsOf(kind), vs)); AllCode(bs) && TakeCodes(bs).0 == FlatMap(ValueCodes, vs)
    decreases |vs|
  {
    if vs != [] {
      ValuesAreCode(kind, vs[1..]);
      assert vs[0] in vs;
      BlocksJoin(ValueSegments(kind, vs[0]), FlatMap(ValueSegmentsOf(kind), vs[1..]));
      ValueShape(kind, vs[0]);
      ValueTakes(vs[0]);
      TakeBoth(Brought(vs[0].doc) + [Code(Codes(vs[0]))], BlocksOf(FlatMap(ValueSegmentsOf(kind), vs[1..])));
    }
  }

  lemma ValueTakes(v: Value)
    requires CalmDoc(v.doc)
    ensures var bs := Brought(v.doc) + [Code(Codes(v))]; AllCode(bs) && TakeCodes(bs).0 == ValueCodes(v)
  {
    TakeBoth(Brought(v.doc), [Code(Codes(v))]);
    assert TakeCodes([Code(Codes(v))][1..]) == ([], []);
  }

  /** No code is left over exactly when no comment brings any. */
  lemma {:induction false} CodesExactly(vs: seq<Value>)
    requires CalmValues(vs)
    ensures |FlatMap(ValueCodes, vs)| >= |vs|
    ensures FlatMap(ValueCodes, vs) == Each(Codes, vs) <==> PlainValues(vs)
    decreases |vs|
  {
    if vs != [] {
      var v, rest := vs[0], vs[1..];
      assert v in vs;
      CodesExactly(rest);
      TakeBoth(Brought(v.doc), []);
      OneCodeLeft(TakeCodes(Brought(v.doc)).0, Codes(v), FlatMap(ValueCodes, rest), Each(Codes, rest));
      PlainFirst(vs);
    }
  }

  lemma PlainFirst(vs: seq<Value>)
    requires vs != []
    ensures PlainValues(vs) <==> PlainDoc(vs[0].doc) && PlainValues(vs[1..])
  {
    assert vs == [vs[0]] + vs[1..];
  }

  lemma OneCodeLeft<T>(a: seq<T>, c: T, x: seq<T>, y: seq<T>)
    requires |x| >= |y|
    ensures (a + [c]) + x == [c] + y <==> a == [] && x == y
  {
    if a == [] {
      ConsTail(c, x);
      ConsTail(c, y);
      SeqNil([c]);
    } else {
      assert |(a + [c]) + x| > |[c] + y|;
    }
  }

  /** The last code behind a title is the entry's own. */
  lemma LastIsOwn(brought: seq<Block>, lines: seq<string>, next: seq<Block>)
    requires AllCode(brought) && !StartsWithCode(next)
    ensures var all := brought + [Code(lines)] + next;
            var (codes, k) := TakeCodes(all);
            StartsWithCode(all) && k == next && codes != [] && codes[|codes| - 1] == lines
  {
    TakeAll(brought + [Code(lines)], next);
    TakeBoth(brought, [Code(lines)]);
    assert TakeCodes([Code(lines)][1..]) == ([], []);
  }

  lemma TakeFuncsStep(level: string, f: Func, next: seq<Block>)
    requires CalmDoc(f.doc) && !StartsWithCode(next)
    ensures var all := [Heading(level + " `" + f.name + "`")] + (Brought(f.doc) + [Code(EntryOf(f).code)]) + next;
            var (es, rest) := TakeFuncs(level, next);
            TakeFuncs(level, all) == ([EntryOf(f)] + es, rest)
  {
    TitleOf(level, f.name);
    LastIsOwn(Brought(f.doc), EntryOf(f).code, next);
    TitleThen(Heading(level + " `" + f.name + "`"), Brought(f.doc) + [Code(EntryOf(f).code)], next);
  }

  lemma TitleThen(b: Block, own: seq<Block>, next: seq<Block>)
    ensures var all := [b] + own + next; all != [] && all[0] == b && all[1..] == own + next
  {
  }

  lemma {:induction false} TakeFuncsOk(level: string, fs: seq<Func>, rest: seq<Block>)
    requires CalmFuncs(fs) && level in {"###", "#####"}
    requires !AtTitle(level, rest) && !StartsWithCode(rest)
    ensures var all := BlocksOf(FlatMap(FuncSegmentsOf(level), fs)) + rest;
            TakeFuncs(level, all) == (Each(EntryOf, fs), rest) && !StartsWithCode(all)
    decreases |fs|
  {
    EachThen(FuncSegmentsOf(level), fs, rest);
    if fs != [] {
      TakeFuncsOk(level, fs[1..], rest);
      assert fs[0] in fs;
      FuncShape(level, fs[0]);
      TakeFuncsStep(level, fs[0], BlocksOf(FlatMap(FuncSegmentsOf(level), fs[1..])) + rest);
    }
  }

  /** What may follow the types: nothing, or a heading of a higher level. */
  predicate EndsTypes(bs: seq<Block>) {
    bs == [] || bs[0] == Heading(FUNCTIONS)
  }

  lemma LevelsDiffer(bs: seq<Block>)
    requires EndsTypes(bs) || AtTitle("###", bs)
    ensures !AtTitle("#####", bs)
    ensures bs != [] ==> bs[0] != Heading(METHODS)
    ensures EndsTypes(bs) ==> !AtTitle("###", bs)
  {
    LevelTexts();
    assert "###" + " `" == "### `" && "#####" + " `" == "##### `";
    if AtTitle("###", bs) {
      LevelText(bs[0].text);
    }
  }

  lemma LevelText(text: string)
    requires "### `" <= text
    ensures text != METHODS && !("##### `" <= text)
  {
    assert text[3] == "### `"[3] == ' ';
    assert METHODS[3] == '#' && "##### `"[3] == '#';
  }

  lemma LevelTexts()
    ensures FUNCTIONS != METHODS && !("### `" <= FUNCTIONS) && !("##### `" <= FUNCTIONS)
  {
    assert FUNCTIONS[2] == ' ' && METHODS[2] == '#' && "### `"[2] == '#' && "##### `"[2] == '#';
  }

  lemma {:induction false} TakeMethodsOk(ms: seq<Func>, rest: seq<Block>)
    requires CalmFuncs(ms) && (EndsTypes(rest) || AtTitle("###", rest))
    ensures var all := BlocksOf(MethodSegments(ms)) + rest;
            TakeMethods(all) == (Each(EntryOf, ms), rest) && !StartsWithCode(all)
  {
    LevelsDiffer(rest);
    var body := FlatMap(FuncSegmentsOf("#####"), ms);
    TakeFuncsOk("#####", ms, rest);
    SectionThen(METHODS, ms != [], body, rest);
    if ms != [] {
      ConsTail(Heading(METHODS), BlocksOf(body) + rest);
    }
  }

  lemma {:induction false} TakeTypesOk(ts: seq<Type>, rest: seq<Block>)
    requires CalmTypes(ts) && EndsTypes(rest)
    ensures var all := BlocksOf(FlatMap(TypeSegments, ts)) + rest;
            TakeTypes(all) == (Each(TypeEntryOf, ts), rest) && (EndsTypes(all) || AtTitle("###", all))
    decreases |ts|
  {
    EachThen(TypeSegments, ts, rest);
    if ts == [] {
      LevelsDiffer(rest);
    } else {
      assert ts[0] in ts;
      TakeTypesOk(ts[1..], rest);
      TypeShape(ts[0]);
      TakeTypesStep(ts[0], BlocksOf(FlatMap(TypeSegments, ts[1..])) + rest);
    }
  }

  lemma TakeTypesStep(t: Type, next: seq<Block>)
    requires CalmDoc(t.doc) && CalmFuncs(t.methods) && (EndsTypes(next) || AtTitle("###", next))
    ensures var all := [Heading("###" + " `" + t.name + "`")] + (Brought(t.doc) + [Code(TypeEntryOf(t).definition)])
                       + BlocksOf(MethodSegments(t.methods)) + next;
            var (es, rest) := TakeTypes(next);
            TakeTypes(all) == ([TypeEntryOf(t)] + es, rest) && AtTitle("###", all)
  {
    var h, ms := Heading("###" + " `" + t.name + "`"), BlocksOf(MethodSegments(t.methods));
    TitleOf("###", t.name);
    TakeMethodsOk(t.methods, next);
    Regroup([h] + (Brought(t.doc) + [Code(TypeEntryOf(t).definition)]), ms, next);
    TakeOneType(h, Brought(t.doc), TypeEntryOf(t).definition, ms + next);
  }

  lemma TakeOneType(h: Block, brought: seq<Block>, definition: seq<string>, methods: seq<Block>)
    requires NameIn("###", h).Some? && AllCode(brought) && !StartsWithCode(methods)
    ensures var all := [h] + (brought + [Code(definition)]) + methods;
            var (ms, next) := TakeMethods(methods);
            var (es, rest) := TakeTypes(next);
            AtTitle("###", all) && TakeTypes(all) == ([TypeEntry(NameIn("###", h).value, definition, ms)] + es, rest)
  {
    LastIsOwn(brought, definition, methods);
    TitleThen(h, brought + [Code(definition)], methods);
  }

  /** The blocks from each section on. */
  function Tail4(p: Package): seq<Block> {
    BlocksOf(FuncSection(p.funcs))
  }

  function Tail3(p: Package): seq<Block> {
    BlocksOf(TypeSection(p.types)) + Tail4(p)
  }

  function Tail2(p: Package): seq<Block> {
    BlocksOf(ValueSection(VARIABLES, "Var", p.vars)) + Tail3(p)
  }

  function Tail1(p: Package): seq<Block> {
    BlocksOf(ValueSection(CONSTANTS, "Const", p.consts)) + Tail2(p)
  }

  /** A tail is empty, or starts with a section of this rank or a later one. */
  predicate From(bs: seq<Block>, rank: nat) {
    bs == [] || rank <= Rank(bs[0]) < 5
  }

  lemma SectionFrom(h: string, present: bool, body: seq<Segment>, rest: seq<Block>)
    requires IsSection(Heading(h)) && (!present ==> body == []) && From(rest, Rank(Heading(h)) + 1)
    ensures var all := BlocksOf(Section(h, present, body)) + rest;
            && From(all, Rank(Heading(h)))
            && (if present then all != [] && Rank(all[0]) == Rank(Heading(h)) else all == rest)
  {
    SectionThen(h, present, body, rest);
  }

  lemma Tail4From(p: Package)
    ensures From(Tail4(p), 4) && (if p.funcs == [] then Tail4(p) == [] else Tail4(p) != [] && Rank(Tail4(p)[0]) == 4)
  {
    SectionTitles();
    SectionFrom(FUNCTIONS, p.funcs != [], FlatMap(FuncSegmentsOf("###"), p.funcs), []);
    SeqNil(Tail4(p));
  }

  lemma Tail3From(p: Package)
    ensures From(Tail3(p), 3) && (if p.types == [] then Tail3(p) == Tail4(p) else Tail3(p) != [] && Rank(Tail3(p)[0]) == 3)
  {
    SectionTitles();
    Tail4From(p);
    SectionFrom(TYPES, p.types != [], FlatMap(TypeSegments, p.types), Tail4(p));
  }

  lemma Tail2From(p: Package)
    ensures From(Tail2(p), 2) && (if p.vars == [] then Tail2(p) == Tail3(p) else Tail2(p) != [] && Rank(Tail2(p)[0]) == 2)
  {
    SectionTitles();
    Tail3From(p);
    SectionFrom(VARIABLES, p.vars != [], FlatMap(ValueSegmentsOf("Var"), p.vars), Tail3(p));
  }

  lemma Tail1From(p: Package)
    ensures From(Tail1(p), 1) && (if p.consts == [] then Tail1(p) == Tail2(p) else Tail1(p) != [] && Rank(Tail1(p)[0]) == 1)
  {
    SectionTitles();
    Tail2From(p);
    SectionFrom(CONSTANTS, p.consts != [], FlatMap(ValueSegmentsOf("Const"), p.consts), Tail2(p));
  }

  lemma TailHeads(p: Package)
    ensures From(Tail4(p), 4) && From(Tail3(p), 3) && From(Tail2(p), 2)
    ensures if Tail1(p) == [] then FirstRank(p) == 5 else Rank(Tail1(p)[0]) == FirstRank(p) < 5
  {
    Tail4From(p);
    Tail3From(p);
    Tail2From(p);
    Tail1From(p);
  }

  lemma TailsAreSections(p: Package)
    ensures BlocksOf(SectionSegments(p)) == Tail1(p)
  {
    var c, d, e := ValueSection(VARIABLES, "Var", p.vars), TypeSection(p.types), FuncSection(p.funcs);
    BlocksJoin(d, e);
    BlocksJoin(c, d + e);
    BlocksJoin(ValueSection(CONSTANTS, "Const", p.consts), c + (d + e));
  }

  /** The document's blocks: the title, what stands before the sections, and the sections. */
  lemma PackageShape(p: Package, name: string, path: string)
    ensures var bs := PackageBlocks(p, name, path);
            bs != [] && NameIn(PACKAGE, bs[0]) == Some(name) && Own(bs[1..]) == Front(p.doc, path) + Tail1(p)
  {
    var t, over, sections := Title(PACKAGE + " `" + name + "`"), OverviewSection(p.doc), SectionSegments(p);
    HeaderShape(name, path);
    Assoc4([t], [SourceLine(path)], over, sections);
    BlocksCons(t, [SourceLine(path)] + (over + sections));
    ConsTail(Heading(t.text), FlatMap(Blocks, [SourceLine(path)] + (over + sections)));
    TitleOf(PACKAGE, name);
    BlocksJoin([SourceLine(path)], over + sections);
    BlocksJoin(over, sections);
    BlocksJoin([SourceLine(path)], over);
    Regroup(BlocksOf([SourceLine(path)]), BlocksOf(over), BlocksOf(sections));
    TailsAreSections(p);
  }

  lemma HeaderShape(name: string, path: string)
    ensures HeaderSegments(name, path) == [Title(PACKAGE + " `" + name + "`")] + [SourceLine(path)]
  {
    assert PACKAGE + " `" == "# 📦 Package `";
  }

  lemma {:induction false} TakeFront(a: seq<Block>, b: seq<Block>)
    requires !StartsWithCode(b)
    ensures TakeCodes(a + b).1 == TakeCodes(a).1 + b
    decreases |a|
  {
    if a == [] {
      SeqNil(b);
    } else {
      assert (a + b)[1..] == a[1..] + b;
      if a[0].Code? {
        TakeFront(a[1..], b);
      }
    }
  }

  /** The sections are still there behind the overview. */
  lemma BehindOverview(front: seq<Block>, sections: seq<Block>)
    requires From(sections, 1)
    ensures AfterOverview(front + sections) == AfterOverview(front) + sections
  {
    SectionTitles();
    var f := TakeCodes(front).1;
    TakeFront(front, sections);
    SkipFront(OVERVIEW, f, sections);
    TakeFront(Skip(OVERVIEW, f), sections);
  }

  lemma SkipFront(h: string, a: seq<Block>, b: seq<Block>)
    requires a != [] || b == [] || b[0] != Heading(h)
    ensures Skip(h, a + b) == Skip(h, a) + b
  {
    if a == [] {
      SeqNil(b);
    } else {
      assert (a + b)[1..] == a[1..] + b;
    }
  }

  /** What is left of idle headings once the section of a rank is read. */
  function Past(idle: seq<Block>, rank: nat): seq<Block> {
    if idle != [] && Rank(idle[0]) == rank then idle[1..] else idle
  }

  lemma IdleStep(h: string, idle: seq<Block>, limit: nat, rest: seq<Block>)
    requires IsSection(Heading(h)) && idle != [] && Idle(idle, Rank(Heading(h)), limit) && limit <= 5 && From(rest, 0)
    ensures var all := Past(idle, Rank(Heading(h))) + rest;
            Skip(h, idle + rest) == all && !StartsWithCode(all) && !AtTitle("###", all)
    ensures Idle(Past(idle, Rank(Heading(h))), Rank(Heading(h)) + 1, limit)
  {
    SectionTitles();
    SkipFront(h, idle, rest);
    var left := Past(idle, Rank(Heading(h)));
    SectionsAreNoTitles(left + rest);
  }

  lemma SectionsAreNoTitles(bs: seq<Block>)
    requires From(bs, 0)
    ensures !StartsWithCode(bs) && !AtTitle("###", bs)
  {
    if bs != [] && IsMinor(bs[0]) {
      MinorIsNoSection(bs[0]);
    }
  }

  lemma CodesSection(h: string, kind: string, vs: seq<Value>, rest: seq<Block>)
    requires CalmValues(vs) && OneLine(kind) && IsSection(Heading(h)) && From(rest, Rank(Heading(h)) + 1)
    ensures TakeCodes(Skip(h, BlocksOf(ValueSection(h, kind, vs)) + rest)) == (FlatMap(ValueCodes, vs), rest)
  {
    SectionsAreNoTitles(rest);
    SkipSection(h, vs != [], FlatMap(ValueSegmentsOf(kind), vs), rest);
    ValuesAreCode(kind, vs);
    TakeAll(BlocksOf(FlatMap(ValueSegmentsOf(kind), vs)), rest);
  }

  lemma NoSection(h: string, body: seq<Segment>, rest: seq<Block>)
    ensures BlocksOf(Section(h, false, body)) + rest == rest
  {
    SeqNil(rest);
  }

  lemma NothingIdle(rest: seq<Block>, rank: nat)
    ensures [] + rest == rest && Past([], rank) + rest == rest
  {
  }

  /** A section of values behind idle headings, which are there only if the section is not. */
  lemma ReadValues(h: string, kind: string, vs: seq<Value>, rest: seq<Block>, idle: seq<Block>, limit: nat)
    requires CalmValues(vs) && OneLine(kind) && IsSection(Heading(h)) && From(rest, Rank(Heading(h)) + 1)
    requires Idle(idle, Rank(Heading(h)), limit) && limit <= 5 && (idle == [] || vs == [])
    ensures TakeCodes(Skip(h, idle + (BlocksOf(ValueSection(h, kind, vs)) + rest)))
         == (FlatMap(ValueCodes, vs), Past(idle, Rank(Heading(h))) + rest)
    ensures Idle(Past(idle, Rank(Heading(h))), Rank(Heading(h)) + 1, limit)
  {
    if idle == [] {
      NothingIdle(BlocksOf(ValueSection(h, kind, vs)) + rest, 0);
      NothingIdle(rest, Rank(Heading(h)));
      CodesSection(h, kind, vs, rest);
    } else {
      NoSection(h, FlatMap(ValueSegmentsOf(kind), vs), rest);
      IdleStep(h, idle, limit, rest);
    }
  }

  lemma ReadConstants(p: Package, idle: seq<Block>)
    requires CalmValues(p.consts) && Idle(idle, 1, FirstRank(p))
    ensures TakeCodes(Skip(CONSTANTS, idle + Tail1(p))) == (FlatMap(ValueCodes, p.consts), Past(idle, 1) + Tail2(p))
    ensures Idle(Past(idle, 1), 2, FirstRank(p))
  {
    SectionTitles();
    TailHeads(p);
    ReadValues(CONSTANTS, "Const", p.consts, Tail2(p), idle, FirstRank(p));
  }

  lemma ReadVariables(p: Package, idle: seq<Block>)
    requires CalmValues(p.vars) && Idle(idle, 2, FirstRank(p))
    ensures TakeCodes(Skip(VARIABLES, idle + Tail2(p))) == (FlatMap(ValueCodes, p.vars), Past(idle, 2) + Tail3(p))
    ensures Idle(Past(idle, 2), 3, FirstRank(p))
  {
    SectionTitles();
    TailHeads(p);
    ReadValues(VARIABLES, "Var", p.vars, Tail3(p), idle, FirstRank(p));
  }

  lemma TypesAfter(ts: seq<Type>, rest: seq<Block>, idle: seq<Block>, limit: nat)
    requires CalmTypes(ts) && From(rest, 4)
    requires Idle(idle, 3, limit) && limit <= 5 && (idle == [] || ts == [])
    ensures TakeTypes(Skip(TYPES, idle + (BlocksOf(TypeSection(ts)) + rest))) == (Each(TypeEntryOf, ts), Past(idle, 3) + rest)
    ensures Idle(Past(idle, 3), 4, limit)
  {
    SectionTitles();
    if idle == [] {
      NothingIdle(BlocksOf(TypeSection(ts)) + rest, 0);
      NothingIdle(rest, 3);
      SkipSection(TYPES, ts != [], FlatMap(TypeSegments, ts), rest);
      TakeTypesOk(ts, rest);
    } else {
      NoSection(TYPES, FlatMap(TypeSegments, ts), rest);
      IdleStep(TYPES, idle, limit, rest);
    }
  }

  lemma ReadTypes(p: Package, idle: seq<Block>)
    requires CalmTypes(p.types) && Idle(idle, 3, FirstRank(p))
    ensures TakeTypes(Skip(TYPES, idle + Tail3(p))) == (Each(TypeEntryOf, p.types), Past(idle, 3) + Tail4(p))
    ensures Idle(Past(idle, 3), 4, FirstRank(p))
  {
    TailHeads(p);
    TypesAfter(p.types, Tail4(p), idle, FirstRank(p));
  }

  lemma FuncsAfter(fs: seq<Func>, idle: seq<Block>, limit: nat)
    requires CalmFuncs(fs)
    requires Idle(idle, 4, limit) && limit <= 5 && (idle == [] || fs == [])
    ensures TakeFuncs("###", Skip(FUNCTIONS, idle + BlocksOf(FuncSection(fs)))) == (Each(EntryOf, fs), [])
  {
    SectionTitles();
    SeqNil(BlocksOf(FuncSection(fs)));
    if idle == [] {
      SkipSection(FUNCTIONS, fs != [], FlatMap(FuncSegmentsOf("###"), fs), []);
      TakeFuncsOk("###", fs, []);
      SeqNil(BlocksOf(FlatMap(FuncSegmentsOf("###"), fs)));
    } else {
      NoSection(FUNCTIONS, FlatMap(FuncSegmentsOf("###"), fs), []);
      IdleStep(FUNCTIONS, idle, limit, []);
    }
  }

  lemma ReadFuncs(p: Package, idle: seq<Block>)
    requires CalmFuncs(p.funcs) && Idle(idle, 4, FirstRank(p))
    ensures TakeFuncs("###", Skip(FUNCTIONS, idle + Tail4(p))) == (Each(EntryOf, p.funcs), [])
  {
    FuncsAfter(p.funcs, idle, FirstRank(p));
  }

  /** All that the blocks of a calm package list: code in the comments of values counts as values. */
  function CalmListing(p: Package, name: string): Listing {
    ListingOf(p, name).(consts := FlatMap(ValueCodes, p.consts), vars := FlatMap(ValueCodes, p.vars))
  }

  lemma ReadsCalmly(p: Package, name: string, path: string)
    requires CalmPackage(p, path)
    ensures ReadListing(PackageBlocks(p, name, path)) == Some(CalmListing(p, name))
  {
    var idle := AfterOverview(Front(p.doc, path));
    PackageShape(p, name, path);
    TailHeads(p);
    BehindOverview(Front(p.doc, path), Tail1(p));
    ReadConstants(p, idle);
    ReadVariables(p, Past(idle, 1));
    ReadTypes(p, Past(Past(idle, 1), 2));
    ReadFuncs(p, Past(Past(Past(idle, 1), 2), 3));
  }

  /** A path of one line and a comment without headings like docgen's, as most packages have them. */
  lemma UsualFront(p: Package, path: string)
    requires OneLine(path) && CalmDoc(p.doc)
    ensures FrontOk(p, path)
  {
    OneLinePath(path);
    BlocksOfOne(SourceLine(path));
    BlocksJoin([SourceLine(path)], OverviewSection(p.doc));
    SectionThen(OVERVIEW, p.doc != "", DocSegments(p.doc), []);
    SeqNil(BlocksOf(OverviewSection(p.doc)));
    SeqNil(Brought(p.doc));
    SectionTitles();
    TakeAll(Brought(p.doc), []);
    if p.doc != "" {
      ConsTail(Heading(OVERVIEW), Brought(p.doc));
    }
  }
}
