/**
 What Go reads in a type definition that docgen writes: the declarations of the Go Programming
 Language Specification, sections "Type declarations", "Struct types" and "Interface types", one
 field or interface element a line, with the types of the module GoGrammar. A line end stands for
 the semicolon that Go puts there.
 */
module GoDeclarations {
  import opened Options
  import opened Sequences
  import opened GoAst
  import opened Printer
  import opened Literals
  import opened Decoder
  import opened GoGrammar
  import opened GoReading
  import opened DocumentReading
  import opened FieldBlocks
  import Catalogue
  import Recovery
  import opened Markdown
  import opened Document

  /** A declaration as its source has it; docgen looks at the name and the spec. */
  datatype Declaration = Declaration(name: string, alias: bool, spec: TypeSpec)

  /** IdentifierList */
  function GoNames(ts: seq<Token>): (r: Option<(seq<string>, seq<Token>)>)
    ensures r.Some? ==> |r.value.1| < |ts| && r.value.0 != []
  {
    if ts == [] || !ts[0].Id? then None
    else if At(ts[1..], Symbol(',')) then
      var (ns, k) :- GoNames(ts[2..]);
      Some(([ts[0].name] + ns, k))
    else Some(([ts[0].name], ts[1..]))
  }

  /** An embedded field is a type name or a pointer to one. */
  predicate Embeddable(t: Expr) {
    var x := if t.Star? then t.x else t;
    x.Ident? || x.Selector?
  }

  /** A type as it stands in the source: nothing in it is lost or misread. */
  predicate AsWritten(t: Expr) {
    GoShape(t) && ChanClear(t) && Erase(t) == t
  }

  predicate NamesFirst(ts: seq<Token>) {
    ts != [] && ts[0].Id? && (At(ts[1..], Symbol(',')) || StartsType(ts[1..]))
  }

  function GoTag(ts: seq<Token>): (r: (Option<string>, seq<Token>))
    ensures |r.1| <= |ts|
  {
    if ts != [] && ts[0].Literal? then (Some(ts[0].text), ts[1..]) else (None, ts)
  }

  /** FieldDecl = (IdentifierList Type | EmbeddedField) [ Tag ] */
  function GoFieldDecl(ts: seq<Token>): (r: Option<(Field, seq<Token>)>)
    ensures r.Some? ==> |r.value.1| < |ts| && !At(ts, Symbol('}')) && ElementOk(r.value.0, true)
  {
    var (names, k) :- if NamesFirst(ts) then GoNames(ts) else Some(([], ts));
    var (t, k') :- GoType(k);
    var (tag, k'') := GoTag(k');
    SpelledIs(t);
    if (names == [] && !Embeddable(t)) || !At(k'', NEWLINE) then None else Some((Field(names, t, tag), k''[1..]))
  }

  /** InterfaceElem = MethodElem | TypeElem, where MethodElem = MethodName Signature */
  function GoInterfaceElem(ts: seq<Token>): (r: Option<(Field, seq<Token>)>)
    ensures r.Some? ==> |r.value.1| < |ts| && !At(ts, Symbol('}'))
    ensures r.Some? && r.value.0.names == [] ==> ElementOk(r.value.0, false)
  {
    if ts != [] && ts[0].Id? && At(ts[1..], Symbol('(')) then
      var (params, k) :- GoParams(ts[1..], true);
      var (results, k') :- GoResult(k);
      if !At(k', NEWLINE) then None
      else Some((Field([ts[0].name], FuncType(List(params), results), None), k'[1..]))
    else
      var (t, k) :- GoType(ts);
      SpelledIs(t);
      if !At(k, NEWLINE) then None else Some((Field([], t, None), k[1..]))
  }

  function GoElement(ts: seq<Token>, struct: bool): (r: Option<(Field, seq<Token>)>)
    ensures r.Some? ==> |r.value.1| < |ts| && !At(ts, Symbol('}'))
    ensures r.Some? && (struct || r.value.0.names == []) ==> ElementOk(r.value.0, struct)
  {
    if struct then GoFieldDecl(ts) else GoInterfaceElem(ts)
  }

  /** The lines down to the closing brace. */
  function GoElements(ts: seq<Token>, struct: bool): Option<seq<Field>>
    decreases |ts|
  {
    if ts == [Symbol('}'), NEWLINE] then Some([]) else
    var (f, k) :- GoElement(ts, struct);
    var fs :- GoElements(k, struct);
    Some([f] + fs)
  }

  function GoBlock(ts: seq<Token>, struct: bool): Option<FieldList> {
    if |ts| < 2 || ts[0] != Symbol('{') || ts[1] != NEWLINE then None else
    var fs :- GoElements(ts[2..], struct);
    Some(List(fs))
  }

  function GoSpec(ts: seq<Token>): Option<TypeSpec> {
    if At(ts, Keyword("struct")) then
      var fs :- GoBlock(ts[1..], true);
      Some(Struct(fs))
    else if At(ts, Keyword("interface")) then
      var fs :- GoBlock(ts[1..], false);
      Some(Interface(fs))
    else
      var (t, k) :- GoType(ts);
      if k == [NEWLINE] then Some(Defined(t)) else None
  }

  /** TypeSpec = identifier [ "=" ] Type, behind the word type. */
  function GoDeclaration(ts: seq<Token>): Option<Declaration> {
    if |ts| < 2 || ts[0] != Keyword("type") || !ts[1].Id? then None else
    var alias := At(ts[2..], Symbol('='));
    var spec :- GoSpec(if alias then ts[3..] else ts[2..]);
    Some(Declaration(ts[1].name, alias, spec))
  }

  /** The fields of a struct, and the elements of an interface, that the text keeps. */
  predicate ElementOk(f: Field, struct: bool) {
    && AsWritten(f.typ)
    && if struct then f.names == [] ==> Embeddable(f.typ) else f.names == [] && f.tag == None
  }

  predicate ElementsOk(fs: seq<Field>, struct: bool) {
    forall f :: f in fs ==> ElementOk(f, struct)
  }

  predicate DeclarationOk(d: Declaration) {
    && !d.alias
    && match d.spec
       case Struct(fs) => fs.List? && ElementsOk(fs.fields, true)
       case Interface(ms) => ms.List? && ElementsOk(ms.fields, false)
       case Defined(t) => AsWritten(t)
       case NotATypeSpec => false
  }

  predicate PlainSpec(spec: TypeSpec) {
    match spec
    case Struct(fs) => PlainFields(ListFields(fs))
    case Interface(ms) => PlainFields(ListFields(ms))
    case Defined(t) => Printable(t)
    case NotATypeSpec => true
  }

  /** The first token of a type. */
  lemma TypeStarts(t: Expr, k: string)
    requires Printable(t) && GoStops(k)
    ensures StartsParamType(Lex(AstString(t) + k))
  {
    TextThenIs(t, k);
    LexStop(k);
    match t
    case Ident(name) => LexWord(name, k);
    case Star(x) => LexSymbol("*", AstString(x) + k);
    case Array(_, x) => LexBrackets(AstString(x) + k);
    case Selector(q, sel) => LexWord(q.name, "." + (sel + k));
    case MapType(key, value) => LexTypeWord("map", "[" + (AstString(key) + ("]" + (AstString(value) + k))));
    case FuncType(ps, rs) =>
      FuncRest(ps, rs, k);
      LexTypeWord("func", OptionalText("", ps) + (OptionalText(" ", rs) + k));
    case ChanType(d, x) => ChanStarts(d, AstString(x) + k);
    case Ellipsis(x) => LexDots(AstString(x) + k);
    case _ =>
  }

  lemma ChanStarts(d: Dir, r: string)
    ensures StartsType(Lex(match d case Recv => "<-chan " + r
                                   case Send => "chan" + ("<- " + r)
                                   case Both => "chan" + (" " + r)))
  {
    match d
    case Recv => LexChanRecv(r);
    case Send => LexChanSend(r);
    case Both => LexChanBoth(r);
  }

  /** A type of the source in front of what may follow it. */
  lemma TypeReads(t: Expr, k: string)
    requires Printable(t) && AsWritten(t) && GoStops(k)
    ensures GoType(Lex(AstString(t) + k)) == Some((t, Lex(k)))
  {
    ReadTypeOk(t, k);
    GoMeaningIsErase(t);
  }

  /** What stands behind the type in a field line. */
  lemma TagReads(f: Field, k: string)
    requires TagOk(f.tag)
    ensures var rest := TagText(f) + ("\n" + k);
            GoStops(rest) && GoTag(Lex(rest)) == (f.tag, [NEWLINE] + Lex(k)) && !At(Lex(rest), Symbol(','))
            && (f.tag.Some? ==> !At(Lex(rest), NEWLINE))
  {
    var rest := TagText(f) + ("\n" + k);
    Cut("\n", k);
    LexStop("\n" + k);
    if f.tag.Some? {
      var tail := f.tag.value + ("\n" + k);
      Assoc(" ", f.tag.value, "\n" + k);
      TakeLiteralThen(f.tag.value, "\n" + k);
      Cut(" ", tail);
      assert rest == " " + tail && rest[1] == tail[0];
      assert StopsAtTag(rest);
      LexStop(rest);
      assert ([Literal(f.tag.value)] + Lex("\n" + k))[1..] == Lex("\n" + k);
    } else {
      assert rest == "\n" + k;
    }
  }

  lemma LineTokens(f: Field, k: string)
    ensures Lex(FieldPiece(f) + ("\n" + k)) == Lex(Item(f) + (TagText(f) + ("\n" + k)))
  {
    FieldLineText(f, k);
    Cut("\t", Item(f) + (TagText(f) + ("\n" + k)));
  }

  lemma {:induction false} NamesRead(names: seq<string>, r: string)
    requires names != [] && forall n :: n in names ==> IsIdent(n)
    requires StartsType(Lex(r))
    ensures var ts := Lex(Join(names, ", ") + (" " + r)); NamesFirst(ts) && GoNames(ts) == Some((names, Lex(r)))
    decreases |names|
  {
    var n, tail := names[0], names[1..];
    assert n in names && names == [n] + tail;
    JoinCons(names, ", ", " " + r);
    if tail == [] {
      assert names == [n];
      LexSpace(r);
      LexWord(n, " " + r);
      NameThenType(n, Lex(r));
    } else {
      NamesRead(tail, r);
      LexNameComma(n, Join(tail, ", ") + (" " + r));
      NameThenComma(n, Lex(Join(tail, ", ") + (" " + r)), tail, Lex(r));
    }
  }

  lemma LexNameComma(n: string, s: string)
    requires IsIdent(n)
    ensures Lex(n + (", " + s)) == [Id(n)] + ([Symbol(',')] + Lex(s))
  {
    LexWord(n, ", " + s);
    LexComma(s);
  }

  lemma LexComma(s: string)
    ensures Lex(", " + s) == [Symbol(',')] + Lex(s)
  {
    assert ", " + s == "," + (" " + s);
    LexSymbol(",", " " + s);
    LexSpace(s);
  }

  lemma NameThenType(n: Identifier, ts: seq<Token>)
    requires StartsType(ts)
    ensures var all := [Id(n)] + ts; NamesFirst(all) && GoNames(all) == Some(([n], ts))
  {
    assert ([Id(n)] + ts)[1..] == ts;
  }

  lemma NameThenComma(n: Identifier, ts: seq<Token>, names: seq<string>, k: seq<Token>)
    requires GoNames(ts) == Some((names, k))
    ensures var all := [Id(n)] + ([Symbol(',')] + ts); NamesFirst(all) && GoNames(all) == Some(([n] + names, k))
  {
    var all := [Id(n)] + ([Symbol(',')] + ts);
    assert all[0] == Id(n) && all[1] == Symbol(',') && all[2..] == ts;
  }

  /** A type is not taken for names in front of a type. */
  lemma NoNames(ts: seq<Token>, t: Expr, k: seq<Token>)
    requires GoType(ts) == Some((t, k)) && !StartsType(k) && !At(k, Symbol(',')) && !At(k, Symbol('('))
    ensures !NamesFirst(ts) && !(ts[0].Id? && At(ts[1..], Symbol('(')))
  {
  }

  lemma FieldReads(f: Field, k: string)
    requires PlainField(f) && ElementOk(f, true)
    ensures GoFieldDecl(Lex(FieldPiece(f) + ("\n" + k))) == Some((f, Lex(k)))
  {
    var rest := TagText(f) + ("\n" + k);
    LineTokens(f, k);
    TagReads(f, k);
    LexStop(rest);
    TypeReads(f.typ, rest);
    assert ([NEWLINE] + Lex(k))[1..] == Lex(k);
    if f.names == [] {
      NoNames(Lex(AstString(f.typ) + rest), f.typ, Lex(rest));
    } else {
      NamesRead(f.names, AstString(f.typ) + rest);
      Assoc(Join(f.names, ", ") + " ", AstString(f.typ), rest);
      Assoc(Join(f.names, ", "), " ", AstString(f.typ) + rest);
    }
  }

  lemma EmbeddedReads(f: Field, k: string)
    requires PlainField(f) && ElementOk(f, false)
    ensures GoInterfaceElem(Lex(FieldPiece(f) + ("\n" + k))) == Some((f, Lex(k)))
  {
    var rest := TagText(f) + ("\n" + k);
    LineTokens(f, k);
    TagReads(f, k);
    LexStop(rest);
    TypeReads(f.typ, rest);
    NoNames(Lex(AstString(f.typ) + rest), f.typ, Lex(rest));
    assert ([NEWLINE] + Lex(k))[1..] == Lex(k);
  }

  /** A method is printed as a name and a func type, which is no interface element. */
  lemma MethodsAreLost(f: Field, k: string)
    requires PlainField(f) && f.names != []
    ensures GoInterfaceElem(Lex(FieldPiece(f) + ("\n" + k))) == None
  {
    var n, rest := f.names[0], TagText(f) + ("\n" + k);
    assert n in f.names;
    LineTokens(f, k);
    TagReads(f, k);
    if |f.names| == 1 {
      LastNameThen(f, rest);
      LexSpace(AstString(f.typ) + rest);
      LexWord(n, " " + (AstString(f.typ) + rest));
      TypeStarts(f.typ, rest);
      NameThenNothing(n, Lex(AstString(f.typ) + rest));
    } else {
      var s := Item(f.(names := f.names[1..])) + rest;
      ItemTailThen(f, rest);
      LexNameComma(n, s);
      NameThenNothing(n, [Symbol(',')] + Lex(s));
    }
  }

  lemma NameThenNothing(n: Identifier, ts: seq<Token>)
    requires StartsParamType(ts) || At(ts, Symbol(','))
    ensures GoInterfaceElem([Id(n)] + ts) == None
  {
    assert ([Id(n)] + ts)[1..] == ts;
  }

  /** One line of a block reads back if and only if its element is in order. */
  lemma ElementReads(f: Field, struct: bool, k: string)
    requires PlainField(f)
    ensures var r := GoElement(Lex(FieldPiece(f) + ("\n" + k)), struct);
            if ElementOk(f, struct) then r == Some((f, Lex(k))) else r.None? || r.value.0 != f
  {
    if struct {
      if ElementOk(f, struct) {
        FieldReads(f, k);
      }
    } else if ElementOk(f, struct) {
      EmbeddedReads(f, k);
    } else if f.names != [] {
      MethodsAreLost(f, k);
    }
  }

  lemma {:induction false} ElementsRead(fs: seq<Field>, struct: bool)
    requires PlainFields(fs)
    ensures GoElements(Lex(Unlines(FlatMap(FieldPieces, fs)) + "}\n"), struct) == Some(fs) <==> ElementsOk(fs, struct)
    decreases |fs|
  {
    if fs == [] {
      LexClose();
    } else {
      var f, k := fs[0], Unlines(FlatMap(FieldPieces, fs[1..])) + "}\n";
      assert f in fs;
      BlockText(fs);
      ElementReads(f, struct, k);
      ElementsRead(fs[1..], struct);
      FirstElement(Lex(FieldPiece(f) + ("\n" + k)), struct, fs, Lex(k));
    }
  }

  lemma FirstElement(ts: seq<Token>, struct: bool, fs: seq<Field>, k: seq<Token>)
    requires fs != []
    ensures var r := GoElement(ts, struct);
            && (r == Some((fs[0], k)) ==> (GoElements(ts, struct) == Some(fs) <==> GoElements(k, struct) == Some(fs[1..])))
            && (r.None? || r.value.0 != fs[0] ==> GoElements(ts, struct) != Some(fs))
  {
    assert fs == [fs[0]] + fs[1..];
    if GoElement(ts, struct).Some? {
      var (f, k') := GoElement(ts, struct).value;
      if GoElements(k', struct).Some? {
        ConsTail(f, GoElements(k', struct).value);
      }
    }
  }

  lemma BlockText(fs: seq<Field>)
    requires fs != []
    ensures Unlines(FlatMap(FieldPieces, fs)) + "}\n"
         == FieldPiece(fs[0]) + ("\n" + (Unlines(FlatMap(FieldPieces, fs[1..])) + "}\n"))
  {
    var rest := FlatMap(FieldPieces, fs[1..]);
    ConsTail(FieldPiece(fs[0]), rest);
    assert FlatMap(FieldPieces, fs) == [FieldPiece(fs[0])] + rest;
    Assoc(FieldPiece(fs[0]), "\n" + Unlines(rest), "}\n");
    Assoc("\n", Unlines(rest), "}\n");
  }

  lemma LexClose()
    ensures Lex("") == [] && Lex("\n") == [NEWLINE] && Lex("}\n") == [Symbol('}'), NEWLINE]
    ensures "" + "}\n" == "}\n"
  {
    assert "\n"[1..] == "" && "}\n"[1..] == "\n";
  }

  lemma {:induction false} OneOfAt(words: seq<string>, i: nat)
    requires i < |words|
    ensures OneOf(words[i], words)
    decreases i
  {
    if i > 0 {
      OneOfAt(words[1..], i - 1);
    }
  }

  lemma LexKeyword(w: string, i: nat, k: string)
    requires KeywordAt(w, i)
    requires k == "" || !IsIdentChar(k[0])
    ensures Lex(w + k) == [Keyword(w)] + Lex(k)
  {
    OneOfAt(KEYWORDS, i);
    LexWord(w, k);
  }

  /** A keyword, and where it stands in the list. */
  predicate KeywordAt(w: string, i: nat) {
    i < |KEYWORDS| && w == KEYWORDS[i] && w != "" && IsLetter(w[0]) && AllIdentChars(w)
  }

  lemma DeclarationWords()
    ensures KeywordAt("type", 3) && KeywordAt("struct", 4) && KeywordAt("interface", 5)
  {
  }

  /** The words in front of a type's definition. */
  lemma LexTypeName(name: string, r: string)
    requires IsIdent(name)
    ensures Lex("type" + (" " + (name + (" " + r)))) == [Keyword("type")] + ([Id(name)] + Lex(r))
  {
    LexSpacedName(name, r);
    DeclarationWords();
    LexKeyword("type", 3, " " + (name + (" " + r)));
  }

  lemma LexSpacedName(name: string, r: string)
    requires IsIdent(name)
    ensures Lex(" " + (name + (" " + r))) == [Id(name)] + Lex(r)
  {
    LexSpace(r);
    LexWord(name, " " + r);
    LexSpace(name + (" " + r));
  }

  lemma LexOpen(w: string, r: string)
    requires w == "struct" || w == "interface"
    ensures Lex(w + (" {" + ("\n" + r))) == [Keyword(w)] + ([Symbol('{'), NEWLINE] + Lex(r))
  {
    assert " {" == " " + "{";
    Assoc(" ", "{", "\n" + r);
    LexBrace(r);
    LexSpace("{" + ("\n" + r));
    DeclarationWords();
    LexKeyword(w, if w == "struct" then 4 else 5, " " + ("{" + ("\n" + r)));
  }

  lemma LexBrace(r: string)
    ensures Lex("{" + ("\n" + r)) == [Symbol('{'), NEWLINE] + Lex(r)
  {
    LexSymbol("\n", r);
    LexSymbol("{", "\n" + r);
    TokensRegroup(Symbol('{'), NEWLINE, Lex(r));
  }

  lemma TokensRegroup(a: Token, b: Token, ts: seq<Token>)
    ensures [a] + ([b] + ts) == [a, b] + ts
  {
  }

  function BlockSpec(fs: seq<Field>, struct: bool): TypeSpec {
    if struct then Struct(List(fs)) else Interface(List(fs))
  }

  function BlockWord(struct: bool): string {
    if struct then "struct" else "interface"
  }

  lemma SpecTokens(name: Identifier, ts: seq<Token>)
    requires !At(ts, Symbol('='))
    ensures GoDeclaration([Keyword("type")] + ([Id(name)] + ts))
         == if GoSpec(ts).Some? then Some(Declaration(name, false, GoSpec(ts).value)) else None
  {
    var all := [Keyword("type")] + ([Id(name)] + ts);
    assert all[0] == Keyword("type") && all[1] == Id(name) && all[2..] == ts;
  }

  lemma BlockTokens(name: Identifier, struct: bool, ts: seq<Token>)
    ensures var es := GoElements(ts, struct);
            GoDeclaration([Keyword("type")] + ([Id(name)] + ([Keyword(BlockWord(struct))] + ([Symbol('{'), NEWLINE] + ts))))
            == if es.Some? then Some(Declaration(name, false, BlockSpec(es.value, struct))) else None
  {
    var block := [Symbol('{'), NEWLINE] + ts;
    var spec := [Keyword(BlockWord(struct))] + block;
    assert block[2..] == ts && block[0] == Symbol('{') && block[1] == NEWLINE;
    assert spec[1..] == block;
    SpecTokens(name, spec);
  }

  lemma DefinedTokens(name: Identifier, ts: seq<Token>)
    requires StartsParamType(ts)
    ensures var r := GoType(ts);
            GoDeclaration([Keyword("type")] + ([Id(name)] + ts))
            == if r.Some? && r.value.1 == [NEWLINE] then Some(Declaration(name, false, Defined(r.value.0))) else None
  {
    SpecTokens(name, ts);
  }

  lemma BlockDefinition(name: string, fs: seq<Field>, struct: bool)
    ensures Unlines(DefinitionPieces(name, BlockSpec(fs, struct)))
         == "type" + (" " + (name + (" " + (BlockWord(struct) + (" {" + ("\n" + (Unlines(FlatMap(FieldPieces, fs)) + "}\n")))))))
  {
    var head, inner := Header(name, BlockSpec(fs, struct)), FlatMap(FieldPieces, fs);
    var tail := Unlines(inner) + "}\n";
    UnlinesThree([head], inner, ["}"]);
    LineText(head);
    LineText("}");
    Assoc(head, "\n", tail);
    HeaderIs(name, struct);
    HeaderThen(name, BlockWord(struct), "\n" + tail);
  }

  lemma HeaderIs(name: string, struct: bool)
    ensures Header(name, BlockSpec([], struct)) == "type" + (" " + (name + (" " + (BlockWord(struct) + " {"))))
  {
    var w := BlockWord(struct);
    Assoc("type ", name, " " + (w + " {"));
    assert "type " == "type" + " ";
    Assoc("type", " ", name + (" " + (w + " {")));
    assert " " + (w + " {") == if struct then " struct {" else " interface {";
  }

  lemma HeaderThen(name: string, w: string, k: string)
    ensures "type" + (" " + (name + (" " + (w + " {")))) + k == "type" + (" " + (name + (" " + (w + (" {" + k)))))
  {
    Assoc(w, " {", k);
    Assoc(" ", w + " {", k);
    Assoc(name, " " + (w + " {"), k);
    Assoc(" ", name + (" " + (w + " {")), k);
    Assoc("type", " " + (name + (" " + (w + " {"))), k);
  }

  lemma BlockReads(name: string, fs: seq<Field>, struct: bool)
    requires IsIdent(name) && PlainFields(fs)
    ensures var r := GoDeclaration(Lex(Unlines(DefinitionPieces(name, BlockSpec(fs, struct)))));
            r == Some(Declaration(name, false, BlockSpec(fs, struct))) <==> ElementsOk(fs, struct)
    ensures var r := GoDeclaration(Lex(Unlines(DefinitionPieces(name, BlockSpec(fs, struct)))));
            r.Some? ==> !r.value.alias
  {
    var tail := Unlines(FlatMap(FieldPieces, fs)) + "}\n";
    BlockDefinition(name, fs, struct);
    LexOpen(BlockWord(struct), tail);
    LexTypeName(name, BlockWord(struct) + (" {" + ("\n" + tail)));
    BlockTokens(name, struct, Lex(tail));
    ElementsRead(fs, struct);
  }

  lemma DefinedReads(name: string, t: Expr)
    requires IsIdent(name) && Printable(t)
    ensures var r := GoDeclaration(Lex(Unlines(DefinitionPieces(name, Defined(t)))));
            && (r == Some(Declaration(name, false, Defined(t))) <==> AsWritten(t))
            && (r.Some? ==> !r.value.alias)
  {
    var text := AstString(t) + "\n";
    DefinedText(name, AstString(t));
    LexTypeName(name, text);
    TypeStarts(t, "\n");
    DefinedTokens(name, Lex(text));
    TypeReadsExactly(t);
  }

  lemma TypeReadsExactly(t: Expr)
    requires Printable(t)
    ensures GoType(Lex(AstString(t) + "\n")) == Some((t, [NEWLINE])) <==> AsWritten(t)
  {
    LexClose();
    SpelledIs(t);
    if AsWritten(t) {
      TypeReads(t, "\n");
    }
  }

  lemma DefinedText(name: string, text: string)
    ensures Unlines(["type " + name + " " + text]) == "type" + (" " + (name + (" " + (text + "\n"))))
  {
    LineText("type " + name + " " + text);
  }

  /**
   Exactly when a definition in the document is the declaration it was made from: it is no alias,
   the types in it are as written, embedded fields are type names, and interfaces have no methods
   of their own.
   */
  lemma DefinitionReadsExactly(d: Declaration)
    requires IsIdent(d.name) && PlainSpec(d.spec)
    ensures GoDeclaration(Lex(Unlines(DefinitionPieces(d.name, d.spec)))) == Some(d) <==> DeclarationOk(d)
  {
    match d.spec
    case Struct(fs) =>
      BlockReads(d.name, ListFields(fs), true);
    case Interface(ms) =>
      BlockReads(d.name, ListFields(ms), false);
    case Defined(t) =>
      DefinedReads(d.name, t);
    case NotATypeSpec =>
      assert Unlines([]) == "" && Lex("") == [];
  }

  /** The same of the document: Go reads a declaration out of the lines listed for its type. */
  lemma DocumentGivesDeclarations(p: Package, name: string, path: string, i: nat, alias: bool)
    requires SafePackage(p, name, path) && Catalogue.CalmPackage(p, path)
    requires i < |p.types| && IsIdent(p.types[i].name) && PlainSpec(p.types[i].spec)
    ensures var r := Catalogue.ReadListing(ReadText(PackageText(p, name, path)).blocks);
            var d := Declaration(p.types[i].name, alias, p.types[i].spec);
            && r.Some? && i < |r.value.types|
            && (GoDeclaration(Lex(Unlines(r.value.types[i].definition))) == Some(d) <==> DeclarationOk(d))
  {
    Recovery.DocumentListsCalmly(p, name, path);
    EachAt(Catalogue.TypeEntryOf, p.types, i);
    UnlinesAllLines(DefinitionPieces(p.types[i].name, p.types[i].spec));
    DefinitionReadsExactly(Declaration(p.types[i].name, alias, p.types[i].spec));
  }
}
