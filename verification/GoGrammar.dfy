/**
 Go's own reading of a type: the tokens of the Go Programming Language Specification, section
 "Tokens", and the grammar of the sections "Array types" to "Channel types" for the types that
 astString spells out. Parenthesised, generic, struct, interface and fixed-length array types
 are not part of this fragment.
 */
module GoGrammar {
  import opened Options
  import opened GoAst
  import opened Entries
  import opened Literals
  import opened Decoder

  datatype Token = Id(name: Identifier) | Keyword(word: string) | Arrow | Dots | Literal(text: string) | Symbol(c: char)

  function WordToken(w: string): Token
    requires w != "" && IsLetter(w[0]) && AllIdentChars(w)
  {
    if OneOf(w, KEYWORDS) then Keyword(w) else Id(w)
  }

  /** Blanks only separate tokens; line ends are kept, as they may stand for semicolons. */
  function Lex(s: string): seq<Token>
    decreases |s|
  {
    if s == "" then []
    else if s[0] in {' ', '\t', '\r'} then Lex(s[1..])
    else if IsLetter(s[0]) then [WordToken(s[..Word(s)])] + Lex(s[Word(s)..])
    else if "..." <= s then [Dots] + Lex(s[3..])
    else if "<-" <= s then [Arrow] + Lex(s[2..])
    else if TakeLiteral(s).Some? then
      var (text, k) := TakeLiteral(s).value;
      [Literal(text)] + Lex(k)
    else [Symbol(s[0])] + Lex(s[1..])
  }

  const NEWLINE := Symbol('\n')
  const SEMICOLON := Symbol(';')

  /** The tokens behind which a line end counts. */
  predicate EndsLine(t: Token) {
    match t
    case Id(_) => true
    case Literal(_) => true
    case Keyword(w) => w == "break" || w == "continue" || w == "fallthrough" || w == "return"
    case Symbol(c) => c == ')' || c == ']' || c == '}'
    case _ => false
  }

  /** The rule of section "Semicolons": a line end that counts is a semicolon, and any other is white space. */
  function Semicolons(ts: seq<Token>, counts: bool): seq<Token> {
    if ts == [] then []
    else if ts[0] != NEWLINE then [ts[0]] + Semicolons(ts[1..], EndsLine(ts[0]))
    else (if counts then [SEMICOLON] else []) + Semicolons(ts[1..], false)
  }

  function Tokens(s: string): seq<Token> {
    Semicolons(Lex(s), false)
  }

  /** The trees that the grammar can express, channels aside. */
  predicate GoShape(t: Expr)
    decreases t, 0
  {
    match t
    case Star(x) => GoShape(x)
    case Array(_, elt) => GoShape(elt)
    case Selector(q, _) => GoShape(q)
    case MapType(k, v) => GoShape(k) && GoShape(v)
    case FuncType(ps, rs) =>
      && ps.List?
      && Uniform(ps.fields) && DotsOk(ps.fields, true) && GoShapeFields(ps.fields)
      && (rs.List? ==> Uniform(rs.fields) && DotsOk(rs.fields, false) && GoShapeFields(rs.fields))
    case ChanType(_, v) => GoShape(v)
    case Ellipsis(_) => false
    case _ => true
  }

  /** Only the final incoming parameter may have "..." in front of its type. */
  predicate DotsOk(fs: seq<Field>, incoming: bool) {
    forall i :: 0 <= i < |fs| && fs[i].typ.Ellipsis? ==> incoming && i == |fs| - 1 && |fs[i].names| <= 1
  }

  /** "..." stands in front of the type of a parameter, and nowhere else. */
  predicate GoShapeParam(t: Expr)
    decreases t, 1
  {
    if t.Ellipsis? then GoShape(t.base) else GoShape(t)
  }

  predicate GoShapeFields(fs: seq<Field>)
    decreases fs, 2
  {
    fs == [] || (GoShapeParam(fs[0].typ) && GoShapeFields(fs[1..]))
  }

  predicate IsRecv(t: Expr) {
    t.ChanType? && t.dir == Recv
  }

  /** No bidirectional channel has a receive-only channel as its element. */
  predicate ChanClear(t: Expr)
    decreases t, 0
  {
    match t
    case Star(x) => ChanClear(x)
    case Array(_, elt) => ChanClear(elt)
    case Selector(q, _) => ChanClear(q)
    case MapType(k, v) => ChanClear(k) && ChanClear(v)
    case FuncType(ps, rs) =>
      && (ps.List? ==> ChanClearFields(ps.fields))
      && (rs.List? ==> ChanClearFields(rs.fields))
    case ChanType(d, v) => ChanClear(v) && !(d == Both && IsRecv(v))
    case Ellipsis(e) => ChanClear(e)
    case _ => true
  }

  predicate ChanClearFields(fs: seq<Field>)
    decreases fs, 1
  {
    fs == [] || (ChanClear(fs[0].typ) && ChanClearFields(fs[1..]))
  }

  /** A tree as a reader of text makes it: printable, without lengths and tags. */
  predicate Spelled(t: Expr)
    decreases t, 0
  {
    match t
    case NilNode => false
    case Ident(name) => IsIdent(name)
    case Star(x) => Spelled(x)
    case Array(len, elt) => len == NilNode && Spelled(elt)
    case Selector(q, sel) => q.Ident? && IsIdent(q.name) && IsIdent(sel)
    case MapType(k, v) => Spelled(k) && Spelled(v)
    case FuncType(ps, rs) => (ps.List? ==> SpelledFields(ps.fields)) && (rs.List? ==> SpelledFields(rs.fields))
    case ChanType(_, v) => Spelled(v)
    case Ellipsis(e) => Spelled(e)
    case Other(_, _) => false
  }

  predicate SpelledFields(fs: seq<Field>)
    decreases fs, 1
  {
    fs == [] || (SpelledField(fs[0]) && SpelledFields(fs[1..]))
  }

  predicate SpelledField(f: Field)
    decreases f, 1
  {
    f.tag == None && (forall n :: n in f.names ==> IsIdent(n)) && Spelled(f.typ)
  }

  lemma {:induction false} SpelledIs(t: Expr)
    ensures Spelled(t) <==> Printable(t) && Erase(t) == t
    decreases t, 0
  {
    match t
    case Star(x) => SpelledIs(x);
    case Array(_, elt) => SpelledIs(elt);
    case MapType(k, v) => SpelledIs(k); SpelledIs(v);
    case FuncType(ps, rs) =>
      if ps.List? { SpelledFieldsAre(ps.fields); }
      if rs.List? { SpelledFieldsAre(rs.fields); }
    case ChanType(_, v) => SpelledIs(v);
    case Ellipsis(e) => SpelledIs(e);
    case _ =>
  }

  lemma {:induction false} SpelledFieldsAre(fs: seq<Field>)
    ensures SpelledFields(fs) <==> PrintableFields(fs) && EraseFields(fs) == fs
    decreases fs, 1
  {
    if fs != [] {
      SpelledIs(fs[0].typ);
      SpelledFieldsAre(fs[1..]);
      var es := EraseFields(fs);
      assert es[0] == EraseField(fs[0]) && es[1..] == EraseFields(fs[1..]);
      assert fs == [fs[0]] + fs[1..];
    }
  }

  /** A list as the grammar has it. */
  predicate GoList(fs: seq<Field>, incoming: bool) {
    Uniform(fs) && DotsOk(fs, incoming) && GoShapeFields(fs) && ChanClearFields(fs) && SpelledFields(fs)
  }

  predicate At(ts: seq<Token>, t: Token) {
    ts != [] && ts[0] == t
  }

  predicate StartsType(ts: seq<Token>) {
    && ts != []
    && match ts[0]
       case Id(_) => true
       case Keyword(w) => w == "map" || w == "func" || w == "chan"
       case Arrow => true
       case Dots => false
       case Literal(_) => false
       case Symbol(c) => c == '*' || c == '['
  }

  predicate StartsParamType(ts: seq<Token>) {
    At(ts, Dots) || StartsType(ts)
  }

  /** A type, with "<-" going to the leftmost "chan" that can take it. */
  function GoType(ts: seq<Token>): (r: Option<(Expr, seq<Token>)>)
    ensures r.Some? ==> |r.value.1| < |ts| && StartsType(ts)
    ensures r.Some? ==> GoShape(r.value.0) && ChanClear(r.value.0) && Spelled(r.value.0)
    ensures r.Some? ==> (IsRecv(r.value.0) <==> At(ts, Arrow))
    decreases |ts|, 0
  {
    if ts == [] then None else
    match ts[0]
    case Id(name) =>
      if !At(ts[1..], Symbol('.')) then Some((Ident(name), ts[1..]))
      else if |ts| > 2 && ts[2].Id? then Some((Selector(Ident(name), ts[2].name), ts[3..]))
      else None
    case Symbol(c) =>
      if c == '*' then
        var (x, k) :- GoType(ts[1..]);
        Some((Star(x), k))
      else if c == '[' && At(ts[1..], Symbol(']')) then
        var (x, k) :- GoType(ts[2..]);
        Some((Array(NilNode, x), k))
      else None
    case Arrow =>
      if !At(ts[1..], Keyword("chan")) then None else
      var (x, k) :- GoType(ts[2..]);
      Some((ChanType(Recv, x), k))
    case Keyword(w) =>
      if w == "map" then
        if !At(ts[1..], Symbol('[')) then None else
        var (key, k) :- GoType(ts[2..]);
        if !At(k, Symbol(']')) then None else
        var (value, k') :- GoType(k[1..]);
        Some((MapType(key, value), k'))
      else if w == "func" then
        var (params, k) :- GoParams(ts[1..], true);
        var (results, k') :- GoResult(k);
        Some((FuncType(List(params), results), k'))
      else if w == "chan" then
        if At(ts[1..], Arrow) then
          var (x, k) :- GoType(ts[2..]);
          Some((ChanType(Send, x), k))
        else
          var (x, k) :- GoType(ts[1..]);
          Some((ChanType(Both, x), k))
      else None
    case Dots => None
    case Literal(_) => None
  }

  /** Parameters = "(" [ ParameterList [ "," ] ] ")", incoming or results */
  function GoParams(ts: seq<Token>, incoming: bool): (r: Option<(seq<Field>, seq<Token>)>)
    ensures r.Some? ==> |r.value.1| < |ts| && GoList(r.value.0, incoming)
    decreases |ts|, 0
  {
    if !At(ts, Symbol('(')) then None
    else if At(ts[1..], Symbol(')')) then Some(([], ts[2..]))
    else
      var (es, k) :- GoEntries(ts[1..]);
      GroupReads(es);
      var fs := Group(es);
      if At(k, Symbol(')')) && Uniform(fs) && DotsOk(fs, incoming) then Some((fs, k[1..])) else None
  }

  /** Result = Parameters | Type */
  function GoResult(ts: seq<Token>): (r: Option<(FieldList, seq<Token>)>)
    ensures r.Some? ==> |r.value.1| <= |ts|
    ensures r.Some? && r.value.0.List? ==> GoList(r.value.0.fields, false)
    decreases |ts|, 1
  {
    if At(ts, Symbol('(')) then
      var (fs, k) :- GoParams(ts, false);
      Some((List(fs), k))
    else if StartsType(ts) then
      var (t, k) :- GoType(ts);
      OneResult(t);
      Some((List([Field([], t, None)]), k))
    else
      Some((NilList, ts))
  }

  lemma OneResult(t: Expr)
    requires GoShape(t) && ChanClear(t) && Spelled(t)
    ensures GoList([Field([], t, None)], false)
  {
    assert [Field([], t, None)][1..] == [];
  }

  predicate Reads(e: Entry) {
    && GoShapeParam(e.typ) && ChanClear(e.typ) && Spelled(e.typ)
    && (e.Named? ==> IsIdent(e.name))
  }

  function GoEntries(ts: seq<Token>): (r: Option<(seq<Entry>, seq<Token>)>)
    ensures r.Some? ==> |r.value.1| < |ts| && StartsParamType(ts)
    ensures r.Some? ==> forall e :: e in r.value.0 ==> Reads(e)
    decreases |ts|, 3
  {
    var (e, k) :- GoEntry(ts);
    var (es, k') :- GoMore(k);
    Some(([e] + es, k'))
  }

  function GoMore(ts: seq<Token>): (r: Option<(seq<Entry>, seq<Token>)>)
    ensures r.Some? ==> |r.value.1| <= |ts|
    ensures r.Some? ==> forall e :: e in r.value.0 ==> Reads(e)
    decreases |ts|, 4
  {
    if !At(ts, Symbol(',')) then Some(([], ts))
    else if At(ts[1..], Symbol(')')) then Some(([], ts[1..]))
    else GoEntries(ts[1..])
  }

  function GoEntry(ts: seq<Token>): (r: Option<(Entry, seq<Token>)>)
    ensures r.Some? ==> |r.value.1| < |ts| && StartsParamType(ts) && Reads(r.value.0)
    decreases |ts|, 2
  {
    if ts != [] && ts[0].Id? && StartsParamType(ts[1..]) then
      var (t, k) :- GoParamType(ts[1..]);
      Some((Named(ts[0].name, t), k))
    else
      var (t, k) :- GoParamType(ts);
      Some((Bare(t), k))
  }

  function GoParamType(ts: seq<Token>): (r: Option<(Expr, seq<Token>)>)
    ensures r.Some? ==> |r.value.1| < |ts| && StartsParamType(ts)
    ensures r.Some? ==> GoShapeParam(r.value.0) && ChanClear(r.value.0) && Spelled(r.value.0)
    decreases |ts|, 1
  {
    if At(ts, Dots) then
      var (t, k) :- GoType(ts[1..]);
      Some((Ellipsis(t), k))
    else
      GoType(ts)
  }

  lemma {:induction false} GroupReads(es: seq<Entry>)
    requires forall e :: e in es ==> Reads(e)
    ensures GoShapeFields(Group(es)) && ChanClearFields(Group(es)) && SpelledFields(Group(es))
  {
    if es != [] {
      GroupReads(es[1..]);
      assert es[0] in es;
      AttachReads(es[0], Group(es[1..]));
    }
  }

  lemma AttachReads(e: Entry, fs: seq<Field>)
    requires Reads(e)
    requires GoShapeFields(fs) && ChanClearFields(fs) && SpelledFields(fs)
    ensures var r := Attach(e, fs); GoShapeFields(r) && ChanClearFields(r) && SpelledFields(r)
  {
    var r := Attach(e, fs);
    if e.Bare? && e.typ.Ident? && fs != [] && fs[0].names != [] {
      assert r[1..] == fs[1..];
      assert SpelledField(fs[0]) && IsIdent(e.typ.name);
    } else {
      assert r[1..] == fs;
    }
  }

  /** Go's reading of a whole text, of one or more lines, as a type. */
  function GoRead(s: string): (r: Option<Expr>)
    ensures r.Some? ==> GoShape(r.value) && ChanClear(r.value) && Spelled(r.value)
  {
    var (t, k) :- GoType(Tokens(s));
    if k == [] || k == [SEMICOLON] then Some(t) else None
  }
}
