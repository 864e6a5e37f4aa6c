/**
 The Go syntax trees that docgen.go prints: the cases of the type switch in `astString`, one
 constructor a case, with an opaque text for the case that go/printer handles.
 */
module GoAst {
  import opened Options

  datatype Dir = Send | Recv | Both

  datatype Expr =
    | NilNode                                  // a nil ast.Node
    | Ident(name: string)
    | Star(x: Expr)
    | Array(len: Expr, elt: Expr)              // len is NilNode for a slice
    | Selector(qualifier: Expr, sel: string)
    | MapType(key: Expr, value: Expr)
    | FuncType(params: FieldList, results: FieldList)
    | ChanType(dir: Dir, elem: Expr)
    | Ellipsis(base: Expr)
    | Other(printed: Option<string>, goType: string)   // what go/printer writes, if it can, and the node's %T

  /** A *ast.FieldList, which may be nil. */
  datatype FieldList = NilList | List(fields: seq<Field>)

  datatype Field = Field(names: seq<string>, typ: Expr, tag: Option<string>)

  /** Identifier characters; every character outside ASCII is taken as a letter. */
  predicate IsLetter(c: char) {
    c == '_' || 'a' <= c <= 'z' || 'A' <= c <= 'Z' || '\U{80}' <= c
  }

  predicate IsIdentChar(c: char) {
    IsLetter(c) || '0' <= c <= '9'
  }

  predicate AllIdentChars(s: string) {
    forall i :: 0 <= i < |s| ==> IsIdentChar(s[i])
  }

  /** The keywords of the Go Programming Language Specification, section "Keywords". */
  const KEYWORDS: seq<string> := [
    "chan", "func", "map", "type", "struct", "interface",
    "break", "case", "const", "continue", "default", "defer", "else", "fallthrough", "for", "go",
    "goto", "if", "import", "package", "range", "return", "select", "switch", "var"
  ]

  predicate OneOf(s: string, words: seq<string>) {
    words != [] && (s == words[0] || OneOf(s, words[1..]))
  }

  predicate IsIdent(s: string) {
    s != "" && IsLetter(s[0]) && AllIdentChars(s) && !OneOf(s, KEYWORDS)
  }

  type Identifier = s: string | IsIdent(s) ghost witness (OneLetter("x"); "x")

  lemma KeywordsAreLonger()
    ensures forall i :: 0 <= i < |KEYWORDS| ==> |KEYWORDS[i]| > 1
  {
  }

  lemma OneLetter(s: string)
    requires |s| == 1 && IsLetter(s[0])
    ensures IsIdent(s)
  {
    KeywordsAreLonger();
    NotOneOf(s, KEYWORDS);
  }

  lemma {:induction false} NotOneOf(s: string, words: seq<string>)
    requires forall i :: 0 <= i < |words| ==> |words[i]| > |s|
    ensures !OneOf(s, words)
  {
    if words != [] {
      NotOneOf(s, words[1..]);
    }
  }

  /** The words that the printer itself writes. */
  lemma TypeWordsAreKeywords()
    ensures !IsIdent("chan") && !IsIdent("func") && !IsIdent("map")
  {
    assert KEYWORDS[0] == "chan" && KEYWORDS[1..][0] == "func" && KEYWORDS[1..][1..][0] == "map";
  }

  /**
   The trees whose text is studied: identifiers are Go identifiers, a qualifier is a package name,
   and no child is missing. Array lengths, tags, nil parameter lists, lists that mix named and
   unnamed fields, and all channel nestings are unrestricted.
   */
  predicate Printable(t: Expr)
    decreases t, 0
  {
    match t
    case NilNode => false
    case Ident(name) => IsIdent(name)
    case Star(x) => Printable(x)
    case Array(_, elt) => Printable(elt)
    case Selector(q, sel) => q.Ident? && IsIdent(q.name) && IsIdent(sel)
    case MapType(k, v) => Printable(k) && Printable(v)
    case FuncType(ps, rs) =>
      && (ps.List? ==> PrintableFields(ps.fields))
      && (rs.List? ==> PrintableFields(rs.fields))
    case ChanType(_, v) => Printable(v)
    case Ellipsis(e) => Printable(e)
    case Other(_, _) => false
  }

  predicate PrintableFields(fs: seq<Field>)
    decreases fs, 1
  {
    fs == [] || (PrintableField(fs[0]) && PrintableFields(fs[1..]))
  }

  predicate PrintableField(f: Field)
    decreases f, 1
  {
    (forall n :: n in f.names ==> IsIdent(n)) && Printable(f.typ)
  }

  /** What the printer is expected to keep: everything but array lengths and parameter tags. */
  function Erase(t: Expr): Expr
    decreases t, 0
  {
    match t
    case Star(x) => Star(Erase(x))
    case Array(_, elt) => Array(NilNode, Erase(elt))
    case Selector(q, sel) => Selector(Erase(q), sel)
    case MapType(k, v) => MapType(Erase(k), Erase(v))
    case FuncType(ps, rs) =>
      FuncType(if ps.List? then List(EraseFields(ps.fields)) else NilList,
               if rs.List? then List(EraseFields(rs.fields)) else NilList)
    case ChanType(d, v) => ChanType(d, Erase(v))
    case Ellipsis(e) => Ellipsis(Erase(e))
    case _ => t
  }

  function EraseFields(fs: seq<Field>): (r: seq<Field>)
    ensures |r| == |fs|
    decreases fs, 1
  {
    if fs == [] then [] else [EraseField(fs[0])] + EraseFields(fs[1..])
  }

  function EraseField(f: Field): Field
    decreases f, 1
  {
    Field(f.names, Erase(f.typ), None)
  }
}
