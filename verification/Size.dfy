/**
 The text of a tree is linear in the tree: its names, plus at most nine characters a node.
 */
module Size {
  import opened GoAst
  import opened Printer

  /** The characters of the names (and opaque texts) in a tree. */
  function Chars(t: Expr): nat
    decreases t, 0
  {
    match t
    case NilNode => 0
    case Ident(name) => |name|
    case Star(x) => Chars(x)
    case Array(_, elt) => Chars(elt)
    case Selector(x, sel) => Chars(x) + |sel|
    case MapType(k, v) => Chars(k) + Chars(v)
    case FuncType(ps, rs) =>
      (if ps.List? then FieldsChars(ps.fields) else 0) + (if rs.List? then FieldsChars(rs.fields) else 0)
    case ChanType(_, v) => Chars(v)
    case Ellipsis(e) => Chars(e)
    case Other(printed, goType) => if printed.Some? then |printed.value| else |goType|
  }

  function FieldsChars(fs: seq<Field>): nat
    decreases fs, 1
  {
    if fs == [] then 0 else NamesChars(fs[0].names) + Chars(fs[0].typ) + FieldsChars(fs[1..])
  }

  function NamesChars(names: seq<string>): nat {
    if names == [] then 0 else |names[0]| + NamesChars(names[1..])
  }

  /** Expressions, fields and field names. */
  function Nodes(t: Expr): nat
    decreases t, 0
  {
    1 + match t
        case Star(x) => Nodes(x)
        case Array(_, elt) => Nodes(elt)
        case Selector(x, _) => Nodes(x)
        case MapType(k, v) => Nodes(k) + Nodes(v)
        case FuncType(ps, rs) =>
          (if ps.List? then FieldsNodes(ps.fields) else 0) + (if rs.List? then FieldsNodes(rs.fields) else 0)
        case ChanType(_, v) => Nodes(v)
        case Ellipsis(e) => Nodes(e)
        case _ => 0
  }

  function FieldsNodes(fs: seq<Field>): nat
    decreases fs, 1
  {
    if fs == [] then 0 else 1 + |fs[0].names| + Nodes(fs[0].typ) + FieldsNodes(fs[1..])
  }

  lemma {:induction false} JoinNamesSize(names: seq<string>)
    requires names != []
    ensures |Join(names, ", ")| == NamesChars(names) + 2 * |names| - 2
  {
    if |names| > 1 {
      JoinNamesSize(names[1..]);
    }
  }

  lemma {:induction false} SizeBound(t: Expr)
    ensures |AstString(t)| <= Chars(t) + 9 * Nodes(t)
    decreases t, 0
  {
    match t
    case Star(x) => SizeBound(x);
    case Array(_, x) => SizeBound(x);
    case Selector(x, _) => SizeBound(x);
    case MapType(k, v) => SizeBound(k); SizeBound(v);
    case FuncType(ps, rs) =>
      if ps.List? { ListSizeBound(ps.fields); }
      if rs.List? { ListSizeBound(rs.fields); }
    case ChanType(_, v) => SizeBound(v);
    case Ellipsis(e) => SizeBound(e);
    case _ =>
  }

  lemma {:induction false} ListSizeBound(fs: seq<Field>)
    ensures |FieldListString(fs)| <= FieldsChars(fs) + 9 * FieldsNodes(fs) + 2
    decreases fs, 2
  {
    ItemsSizeBound(fs);
  }

  lemma {:induction false} ItemsSizeBound(fs: seq<Field>)
    ensures |Join(Items(fs), ", ")| <= FieldsChars(fs) + 9 * FieldsNodes(fs)
    decreases fs, 1
  {
    if fs != [] {
      var f := fs[0];
      SizeBound(f.typ);
      ItemsSizeBound(fs[1..]);
      if f.names != [] {
        JoinNamesSize(f.names);
      }
      assert |Item(f)| <= NamesChars(f.names) + 2 * |f.names| + Chars(f.typ) + 9 * Nodes(f.typ);
      assert Items(fs)[1..] == Items(fs[1..]);
    }
  }

  /** Nine is the best constant: one node, no names, nine characters. */
  lemma SizeBoundIsTight()
    ensures var t := FuncType(List([]), List([])); |AstString(t)| == Chars(t) + 9 * Nodes(t)
  {
  }
}
