/**
 The printer of docgen.go: `astString` as a recursive function, and as the method the source
 writes, with its append loops over fields and names.
 */
module Printer {
  import opened GoAst

  /** strings.Join */
  function Join(parts: seq<string>, sep: string): string {
    if parts == [] then ""
    else if |parts| == 1 then parts[0]
    else parts[0] + sep + Join(parts[1..], sep)
  }

  function DirText(d: Dir): string {
    match d
    case Send => "chan<- "
    case Recv => "<-chan "
    case Both => "chan "
  }

  /** The direction can be read off any channel's text, and the element's text is what is left. */
  lemma DirTextsSeparate(a: Dir, r: string, b: Dir, s: string)
    requires DirText(a) + r == DirText(b) + s
    ensures a == b && r == s
  {
    var text := DirText(a) + r;
    assert text[0] == DirText(a)[0] && text[0] == DirText(b)[0];
    assert text[4] == DirText(a)[4] && text[4] == DirText(b)[4];
    assert r == text[|DirText(a)|..] && s == text[|DirText(b)|..];
  }

  function AstString(n: Expr): string
    decreases n, 0
  {
    match n
    case NilNode => ""
    case Ident(name) => name
    case Star(x) => "*" + AstString(x)
    case Array(_, elt) => "[]" + AstString(elt)
    case Selector(x, sel) => AstString(x) + "." + sel
    case MapType(k, v) => "map[" + AstString(k) + "]" + AstString(v)
    case FuncType(ps, rs) =>
      "func" + OptionalText("", ps) + OptionalText(" ", rs)
    case ChanType(d, v) => DirText(d) + AstString(v)
    case Ellipsis(e) => "..." + AstString(e)
    case Other(printed, goType) => if printed.Some? then printed.value else "(" + goType + ")"
  }

  /** A list that may be missing; behind a lead when it is there. */
  function OptionalText(lead: string, l: FieldList): string
    decreases l, 3
  {
    if l.List? then lead + FieldListString(l.fields) else ""
  }

  function FieldListString(fs: seq<Field>): string
    decreases fs, 2
  {
    if fs == [] then "()" else "(" + Join(Items(fs), ", ") + ")"
  }

  function Items(fs: seq<Field>): (r: seq<string>)
    ensures |r| == |fs|
    decreases fs, 1
  {
    if fs == [] then [] else [Item(fs[0])] + Items(fs[1..])
  }

  /** One field as both `astString` and `printField` write it: its names, then its type. */
  function Item(f: Field): string
    decreases f, 1
  {
    if f.names == [] then AstString(f.typ) else Join(f.names, ", ") + " " + AstString(f.typ)
  }

  /** The text of a tree in front of k, bracketed to the right: the order in which it is read. */
  function TextThen(t: Expr, k: string): string {
    match t
    case Star(x) => "*" + (AstString(x) + k)
    case Array(_, x) => "[]" + (AstString(x) + k)
    case Selector(x, sel) => AstString(x) + ("." + (sel + k))
    case MapType(key, value) => "map" + ("[" + (AstString(key) + ("]" + (AstString(value) + k))))
    case FuncType(ps, rs) => "func" + (OptionalText("", ps) + (OptionalText(" ", rs) + k))
    case ChanType(Recv, x) => "<-chan " + (AstString(x) + k)
    case ChanType(Send, x) => "chan" + ("<- " + (AstString(x) + k))
    case ChanType(Both, x) => "chan" + (" " + (AstString(x) + k))
    case Ellipsis(x) => "..." + (AstString(x) + k)
    case _ => AstString(t) + k
  }

  lemma Assoc(a: string, b: string, c: string)
    ensures (a + b) + c == a + (b + c)
  {
  }

  lemma {:induction false} TextThenIs(t: Expr, k: string)
    ensures AstString(t) + k == TextThen(t, k)
  {
    match t
    case Star(x) => Assoc("*", AstString(x), k);
    case Array(_, x) => Assoc("[]", AstString(x), k);
    case Ellipsis(x) => Assoc("...", AstString(x), k);
    case Selector(x, sel) => SelectorText(AstString(x), sel, k);
    case MapType(key, value) => MapText(AstString(key), AstString(value), k);
    case FuncType(ps, rs) => FuncText(OptionalText("", ps), OptionalText(" ", rs), k);
    case ChanType(d, x) => ChanText(d, AstString(x), k);
    case _ =>
  }

  lemma SelectorText(x: string, sel: string, k: string)
    ensures ((x + ".") + sel) + k == x + ("." + (sel + k))
  {
    Assoc(x + ".", sel, k);
    Assoc(x, ".", sel + k);
  }

  lemma MapText(key: string, value: string, k: string)
    ensures ((("map[" + key) + "]") + value) + k == "map" + ("[" + (key + ("]" + (value + k))))
  {
    Assoc(("map[" + key) + "]", value, k);
    Assoc("map[" + key, "]", value + k);
    Assoc("map[", key, "]" + (value + k));
    assert "map[" == "map" + "[";
    Assoc("map", "[", key + ("]" + (value + k)));
  }

  lemma FuncText(params: string, results: string, k: string)
    ensures (("func" + params) + results) + k == "func" + (params + (results + k))
  {
    Assoc("func" + params, results, k);
    Assoc("func", params, results + k);
  }

  lemma ChanText(d: Dir, x: string, k: string)
    ensures (DirText(d) + x) + k ==
            match d
            case Recv => "<-chan " + (x + k)
            case Send => "chan" + ("<- " + (x + k))
            case Both => "chan" + (" " + (x + k))
  {
    Assoc(DirText(d), x, k);
    assert "chan<- " == "chan" + "<- " && "chan " == "chan" + " ";
    Assoc("chan", "<- ", x + k);
    Assoc("chan", " ", x + k);
  }

  /** What stands behind the "(" of a list. */
  function ListBody(fs: seq<Field>, k: string): string {
    if fs == [] then ")" + k else Join(Items(fs), ", ") + (")" + k)
  }

  lemma ListTextThen(fs: seq<Field>, k: string)
    ensures FieldListString(fs) + k == "(" + ListBody(fs, k)
  {
    if fs == [] {
      assert "()" + k == "(" + (")" + k);
    }
  }

  lemma {:induction false} ItemsAppend(fs: seq<Field>, i: nat)
    requires i < |fs|
    ensures Items(fs[..i + 1]) == Items(fs[..i]) + [Item(fs[i])]
    decreases i
  {
    if i > 0 {
      ItemsAppend(fs[1..], i - 1);
      assert fs[..i + 1][1..] == fs[1..][..i];
      assert fs[..i][1..] == fs[1..][..i - 1];
    }
  }

  /** The source's recursion, case by case, with the source's loops. */
  method PrintNode(n: Expr) returns (s: string)
    ensures s == AstString(n)
    decreases n, 0
  {
    match n
    case NilNode =>
      s := "";
    case Ident(name) =>
      s := name;
    case Star(x) =>
      var inner := PrintNode(x);
      s := "*" + inner;
    case Array(_, elt) =>
      var inner := PrintNode(elt);
      s := "[]" + inner;
    case Selector(x, sel) =>
      var inner := PrintNode(x);
      s := inner + "." + sel;
    case MapType(k, v) =>
      var key := PrintNode(k);
      var value := PrintNode(v);
      s := "map[" + key + "]" + value;
    case FuncType(ps, rs) =>
      var params, results := "", "";
      if ps.List? {
        params := PrintFieldList(ps.fields);
        assert "" + params == params;
      }
      if rs.List? {
        var list := PrintFieldList(rs.fields);
        results := " " + list;
      }
      assert params == OptionalText("", ps) && results == OptionalText(" ", rs);
      s := "func" + params + results;
    case ChanType(d, v) =>
      var dir := PrintDir(d);
      var inner := PrintNode(v);
      s := dir + inner;
    case Ellipsis(e) =>
      var inner := PrintNode(e);
      s := "..." + inner;
    case Other(printed, goType) =>
      if printed.Some? {
        return printed.value;
      }
      s := "(" + goType + ")";
  }

  /** The inner switch of the channel case. */
  method PrintDir(d: Dir) returns (dir: string)
    ensures dir == DirText(d)
  {
    dir := "";
    match d
    case Send => dir := "chan<- ";
    case Recv => dir := "<-chan ";
    case Both => dir := "chan ";
  }

  method PrintFieldList(list: seq<Field>) returns (s: string)
    ensures s == FieldListString(list)
    decreases list, 1
  {
    if |list| == 0 {
      return "()";
    }
    var fields: seq<string> := [];
    for i := 0 to |list|
      invariant fields == Items(list[..i])
    {
      var f := list[i];
      var typeStr := PrintNode(f.typ);
      if |f.names| > 0 {
        var names := CollectNames(f);
        fields := fields + [Join(names, ", ") + " " + typeStr];
      } else {
        fields := fields + [typeStr];
      }
      ItemsAppend(list, i);
    }
    assert list[..|list|] == list;
    s := "(" + Join(fields, ", ") + ")";
  }

  /** The name loop that `astString` and `printField` both contain. */
  method CollectNames(f: Field) returns (names: seq<string>)
    ensures names == f.names
  {
    names := [];
    for i := 0 to |f.names|
      invariant names == f.names[..i]
    {
      names := names + [f.names[i]];
    }
  }
}
