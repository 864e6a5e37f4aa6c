/**
 The lines of a struct or interface block, and the way back from them to the fields.
 */
module FieldBlocks {
  import opened Options
  import opened Sequences
  import opened GoAst
  import opened Printer
  import opened Entries
  import opened Literals
  import opened Decoder
  import opened OneLineTypes
  import opened Markdown
  import opened Document
  import opened SegmentReading
  import opened DocumentReading
  import Catalogue
  import Recovery

  /** A tag is a string literal; a raw one may go over several lines. */
  predicate TagOk(tag: Option<string>) {
    tag.Some? ==> TakeLiteral(tag.value) == Some((tag.value, ""))
  }

  predicate PlainField(f: Field) {
    PrintableField(f) && TagOk(f.tag)
  }

  predicate PlainFields(fs: seq<Field>) {
    forall f :: f in fs ==> PlainField(f)
  }

  /** A field off the front of a text of field lines. */
  function DecodeField(s: string): (r: Option<(Field, string)>)
    ensures r.Some? ==> |r.value.1| < |s|
  {
    if s == "" || s[0] != '\t' then None else
    var (es, k) :- DecodeEntries(s[1..]);
    var fs := Group(es);
    if |fs| != 1 || k == "" then None
    else if k[0] == '\n' then Some((fs[0], k[1..]))
    else if k[0] == ' ' then
      var (tag, k') :- TakeLiteral(k[1..]);
      if k' != "" && k'[0] == '\n' then Some((fs[0].(tag := Some(tag)), k'[1..])) else None
    else None
  }

  function DecodeFields(s: string): Option<seq<Field>>
    decreases |s|
  {
    if s == "" then Some([]) else
    var (f, k) :- DecodeField(s);
    var fs :- DecodeFields(k);
    Some([f] + fs)
  }

  /** The fields between the header line and the closing brace. */
  function DecodeDefinition(lines: seq<string>): Option<seq<Field>> {
    if |lines| >= 2 && lines[|lines| - 1] == "}" then DecodeFields(Unlines(lines[1..|lines| - 1])) else None
  }

  function CanonField(f: Field): Field {
    Field(f.names, Canon(f.typ), f.tag)
  }

  lemma OneEntryList(names: seq<string>, t: Expr)
    ensures Group(FlattenNames(names, t)) == [Field(names, t, None)]
  {
    SeqNil(FlattenNames(names, t));
    if names == [] {
      assert FlattenNames(names, t)[1..] == [];
    } else {
      GroupNames(names, t, []);
    }
  }

  /** A field line reads back as the field: its names, its canonical type and its tag. */
  lemma DecodeFieldLine(f: Field, k: string)
    requires PlainField(f)
    ensures DecodeField(FieldPiece(f) + ("\n" + k)) == Some((CanonField(f), k))
  {
    var rest := TagText(f) + ("\n" + k);
    FieldLineText(f, k);
    Cut("\t", Item(f) + rest);
    TagStops(f, k);
    DecodeFieldOk(f, rest, [], rest);
    SeqNil(FlattenNames(f.names, Canon(f.typ)));
    OneEntryList(f.names, Canon(f.typ));
    if f.tag.Some? {
      Assoc(" ", f.tag.value, "\n" + k);
      Cut(" ", f.tag.value + ("\n" + k));
      TakeLiteralThen(f.tag.value, "\n" + k);
    } else {
      assert rest == "\n" + k;
    }
    Cut("\n", k);
  }

  lemma FieldLineText(f: Field, k: string)
    ensures FieldPiece(f) + ("\n" + k) == "\t" + (Item(f) + (TagText(f) + ("\n" + k)))
  {
    Assoc("\t" + Item(f), TagText(f), "\n" + k);
    Assoc("\t", Item(f), TagText(f) + ("\n" + k));
  }

  /** What stands behind a field's type stops the reader of types. */
  lemma TagStops(f: Field, k: string)
    requires TagOk(f.tag)
    ensures var rest := TagText(f) + ("\n" + k); Stops(rest) && !(", " <= rest) && rest != ""
  {
    var rest := TagText(f) + ("\n" + k);
    if f.tag.Some? {
      assert rest[0] == ' ' && rest[1] == f.tag.value[0];
      assert AtTag(rest);
    } else {
      assert rest[0] == '\n';
    }
  }

  /** The lines of all fields read back as the fields. */
  lemma {:induction false} DecodeAllFields(fs: seq<Field>)
    requires PlainFields(fs)
    ensures DecodeFields(Unlines(FlatMap(FieldPieces, fs))) == Some(Each(CanonField, fs))
    decreases |fs|
  {
    if fs != [] {
      DecodeAllFields(fs[1..]);
      assert fs[0] in fs;
      var rest := FlatMap(FieldPieces, fs[1..]);
      ConsTail(FieldPiece(fs[0]), rest);
      assert FlatMap(FieldPieces, fs) == [FieldPiece(fs[0])] + rest;
      DecodeFieldLine(fs[0], Unlines(rest));
    }
  }

  /** Three backquotes in a row, as a fence needs. */
  predicate HasTriple(s: string) {
    exists i :: 0 <= i < |s| - 2 && s[i] == '`' && s[i + 1] == '`' && s[i + 2] == '`'
  }

  lemma ClosingHasTriple(line: string)
    requires Closes(line, DOCGEN)
    ensures HasTriple(line) && (line[0] == ' ' || line[0] == '`')
  {
    var n := Repeats(' ', line);
    var s := line[n..];
    RepeatedMarks('`', s);
    assert s[0] == '`' && s[1] == '`' && s[2] == '`';
    assert line[n] == '`' && line[n + 1] == '`' && line[n + 2] == '`';
    RepeatedMarks(' ', line);
  }

  lemma {:induction false} RepeatedMarks(c: char, s: string)
    ensures forall i :: 0 <= i < Repeats(c, s) ==> s[i] == c
  {
    if s != "" && s[0] == c {
      RepeatedMarks(c, s[1..]);
    }
  }

  /** The lines of a text are parts of it. */
  lemma {:induction false} LinesHaveNoTriple(s: string)
    requires !HasTriple(s)
    ensures Lines(s)[0] <= s
    ensures forall l :: l in Lines(s) ==> !HasTriple(l)
  {
    if s != "" {
      var t, r := s[1..], Lines(s[1..]);
      assert s == [s[0]] + t;
      TripleWithin(t, s, 1);
      LinesHaveNoTriple(t);
      if s[0] != '\n' {
        TripleWithin([s[0]] + r[0], s, 0);
        assert forall l :: l in Lines(s) ==> l == [s[0]] + r[0] || l in r;
      }
    }
  }

  lemma TripleWithin(part: string, s: string, i: nat)
    requires i + |part| <= |s| && part == s[i..i + |part|]
    ensures HasTriple(part) ==> HasTriple(s)
  {
    if HasTriple(part) {
      var j :| 0 <= j < |part| - 2 && part[j] == '`' && part[j + 1] == '`' && part[j + 2] == '`';
      assert s[i + j] == '`' && s[i + j + 1] == '`' && s[i + j + 2] == '`';
    }
  }

  lemma {:induction false} RawHasOneQuote(s: string)
    requires TakeRaw(s) == Some((s, ""))
    ensures forall i :: 0 <= i < |s| - 1 ==> s[i] != '`'
  {
    if s[0] != '`' {
      var (a, b) := TakeRaw(s[1..]).value;
      assert s[1..] == a && b == "";
      RawHasOneQuote(s[1..]);
    }
  }

  lemma {:induction false} QuotedIsOneLine(s: string)
    requires TakeQuoted(s).Some?
    ensures OneLine(TakeQuoted(s).value.0)
    decreases |s|
  {
    if s[0] == '\\' {
      QuotedIsOneLine(s[2..]);
    } else if s[0] != '"' {
      QuotedIsOneLine(s[1..]);
    }
  }

  /** A field line, even one whose raw tag goes over several lines, has no line that closes the fence. */
  lemma FieldPieceIsSafe(f: Field)
    requires PlainField(f)
    ensures CodeSafe(Lines(FieldPiece(f)))
  {
    ItemIsOneLine(f);
    var head := "\t" + Item(f);
    OneLineAppend("\t", Item(f));
    TabbedLines(head, TagText(f));
    if f.tag.Some? && f.tag.value[0] == '`' {
      RawHasOneQuote(f.tag.value[1..]);
      LinesHaveNoTriple(TagText(f));
    } else {
      if f.tag.Some? {
        QuotedIsOneLine(f.tag.value[1..]);
        assert f.tag.value == [f.tag.value[0]] + f.tag.value[1..];
        OneLineAppend([f.tag.value[0]], f.tag.value[1..]);
        OneLineAppend(" ", f.tag.value);
      }
      OneLineLines(TagText(f));
    }
    var ls := Lines(FieldPiece(f));
    forall i | 0 <= i < |ls|
      ensures !Closes(ls[i], DOCGEN)
    {
      if Closes(ls[i], DOCGEN) {
        ClosingHasTriple(ls[i]);
      }
    }
  }

  /** Behind a first line that starts with a tab come the lines of the tag. */
  lemma {:induction false} TabbedLines(head: string, tail: string)
    requires OneLine(head)
    ensures Lines(head + tail) == [head + Lines(tail)[0]] + Lines(tail)[1..]
    decreases |head|
  {
    if head == "" {
      assert head + tail == tail && head + Lines(tail)[0] == Lines(tail)[0];
    } else {
      TabbedLines(head[1..], tail);
      assert head + tail == [head[0]] + (head[1..] + tail);
      LinesStep(head[0], head[1..] + tail);
      assert head == [head[0]] + head[1..];
      Assoc([head[0]], head[1..], Lines(tail)[0]);
      ConsTail(head[1..] + Lines(tail)[0], Lines(tail)[1..]);
    }
  }

  lemma {:induction false} FieldLinesAreSafe(fs: seq<Field>)
    requires PlainFields(fs)
    ensures CodeSafe(AllLines(FlatMap(FieldPieces, fs)))
    decreases |fs|
  {
    if fs != [] {
      FieldLinesAreSafe(fs[1..]);
      assert fs[0] in fs;
      FieldPieceIsSafe(fs[0]);
      var rest := FlatMap(FieldPieces, fs[1..]);
      assert FlatMap(FieldPieces, fs) == [FieldPiece(fs[0])] + rest;
      ConsTail(FieldPiece(fs[0]), rest);
      CodeSafeAppend(Lines(FieldPiece(fs[0])), AllLines(rest));
    }
  }

  lemma CodeSafeAppend(a: seq<string>, b: seq<string>)
    requires CodeSafe(a) && CodeSafe(b)
    ensures CodeSafe(a + b)
  {
  }

  /** The fields of a struct or interface block. */
  function SpecFields(spec: TypeSpec): seq<Field> {
    match spec
    case Struct(fs) => ListFields(fs)
    case Interface(ms) => ListFields(ms)
    case _ => []
  }

  predicate IsBlock(spec: TypeSpec) {
    spec.Struct? || spec.Interface?
  }

  function Header(name: string, spec: TypeSpec): string {
    if spec.Struct? then "type " + name + " struct {" else "type " + name + " interface {"
  }

  lemma HeaderOk(name: string, spec: TypeSpec)
    requires OneLine(name)
    ensures Lines(Header(name, spec)) == [Header(name, spec)] && CodeSafe([Header(name, spec)])
  {
    var h := Header(name, spec);
    OneLineAppend("type ", name);
    OneLineAppend("type " + name, if spec.Struct? then " struct {" else " interface {");
    OneLineLines(h);
    assert h[0] == 't';
    LetterClosesNothing(h);
  }

  lemma LetterClosesNothing(line: string)
    requires line != "" && line[0] != ' ' && line[0] != '`'
    ensures !Closes(line, DOCGEN)
  {
    if Closes(line, DOCGEN) {
      ClosingHasTriple(line);
    }
  }

  lemma BlockLines(head: string, inner: seq<string>)
    requires Lines(head) == [head]
    ensures AllLines([head] + inner + ["}"]) == [head] + AllLines(inner) + ["}"]
  {
    OneLineLines("}");
    PairLines(head);
    PairLines("}");
    AllLinesAppend([head] + inner, ["}"]);
    AllLinesAppend([head], inner);
  }

  /** Joining the lines of some pieces again gives the text of the pieces. */
  lemma {:induction false} UnlinesAllLines(ps: seq<string>)
    ensures Unlines(AllLines(ps)) == Unlines(ps)
  {
    if ps != [] {
      UnlinesAllLines(ps[1..]);
      UnlinesAppend(Lines(ps[0]), AllLines(ps[1..]));
      UnlinesLines(ps[0]);
      Assoc(ps[0], "\n", Unlines(ps[1..]));
    }
  }

  lemma {:induction false} UnlinesLines(s: string)
    ensures Unlines(Lines(s)) == s + "\n"
  {
    if s == "" {
      assert Unlines([""]) == "\n";
    } else {
      var r := Lines(s[1..]);
      UnlinesLines(s[1..]);
      assert s == [s[0]] + s[1..];
      if s[0] == '\n' {
        assert ([""] + r)[1..] == r;
      } else {
        var first := [s[0]] + r[0];
        assert ([first] + r[1..])[1..] == r[1..];
        Assoc([s[0]], r[0], "\n" + Unlines(r[1..]));
        Assoc([s[0]], s[1..], "\n");
      }
    }
  }

  /** A block of plain fields can stand in a fence, and reads back as its field list. */
  lemma DefinitionOk(name: string, spec: TypeSpec)
    requires IsBlock(spec) && OneLine(name) && PlainFields(SpecFields(spec))
    ensures CodeSafe(AllLines(DefinitionPieces(name, spec)))
    ensures DecodeDefinition(AllLines(DefinitionPieces(name, spec))) == Some(Each(CanonField, SpecFields(spec)))
  {
    var head, inner := Header(name, spec), FlatMap(FieldPieces, SpecFields(spec));
    assert DefinitionPieces(name, spec) == [head] + inner + ["}"];
    HeaderOk(name, spec);
    BlockLines(head, inner);
    FieldLinesAreSafe(SpecFields(spec));
    LetterClosesNothing("}");
    CodeSafeAppend([head], AllLines(inner));
    CodeSafeAppend([head] + AllLines(inner), ["}"]);
    InnerLines(head, AllLines(inner));
    UnlinesAllLines(inner);
    DecodeAllFields(SpecFields(spec));
  }

  lemma InnerLines(head: string, inner: seq<string>)
    ensures var lines := [head] + inner + ["}"];
            |lines| >= 2 && lines[|lines| - 1] == "}" && lines[1..|lines| - 1] == inner
  {
  }

  /**
   From the document alone one gets back, for each struct and interface of the package, its fields:
   the groups of names, the canonical types and the tags, in order.
   */
  lemma {:induction false} DocumentGivesFields(p: Package, name: string, path: string, i: nat)
    requires SafePackage(p, name, path) && Catalogue.CalmPackage(p, path)
    requires i < |p.types| && IsBlock(p.types[i].spec) && PlainFields(SpecFields(p.types[i].spec))
    ensures var r := Catalogue.ReadListing(ReadText(PackageText(p, name, path)).blocks);
            && r.Some? && i < |r.value.types|
            && r.value.types[i].name == p.types[i].name
            && DecodeDefinition(r.value.types[i].definition) == Some(Each(CanonField, SpecFields(p.types[i].spec)))
  {
    Recovery.DocumentListsCalmly(p, name, path);
    EachAt(Catalogue.TypeEntryOf, p.types, i);
    assert p.types[i] in p.types;
    DefinitionOk(p.types[i].name, p.types[i].spec);
  }
}
