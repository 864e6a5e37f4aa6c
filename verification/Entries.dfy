/**
 A parameter list as a reader sees it. The printer joins the names of one field with the ", "
 that also separates fields, so what its text holds is a sequence of entries: a bare type, or one
 name with a type. Group and Flatten go between entries and fields, and Canon is the tree that
 the text of a tree determines.
 */
module Entries {
  import opened Options
  import opened GoAst
  import opened Printer

  datatype Entry = Bare(typ: Expr) | Named(name: string, typ: Expr)

  function FlattenNames(names: seq<string>, t: Expr): (r: seq<Entry>)
    ensures r != []
  {
    if names == [] then [Bare(t)]
    else if |names| == 1 then [Named(names[0], t)]
    else [Bare(Ident(names[0]))] + FlattenNames(names[1..], t)
  }

  lemma FlattenFirst(names: seq<string>, t: Expr, es: seq<Entry>)
    ensures FlattenNames(names, t) + es ==
            if names == [] then [Bare(t)] + es
            else if |names| == 1 then [Named(names[0], t)] + es
            else [Bare(Ident(names[0]))] + (FlattenNames(names[1..], t) + es)
  {
  }

  function Flatten(fs: seq<Field>): (r: seq<Entry>)
    ensures fs != [] ==> r != []
  {
    if fs == [] then [] else FlattenNames(fs[0].names, fs[0].typ) + Flatten(fs[1..])
  }

  /** A bare identifier directly before a named field joins the names of that field. */
  function Attach(e: Entry, fs: seq<Field>): (r: seq<Field>)
    ensures r != []
  {
    match e
    case Named(n, t) => [Field([n], t, None)] + fs
    case Bare(t) =>
      if t.Ident? && fs != [] && fs[0].names != [] then
        [Field([t.name] + fs[0].names, fs[0].typ, None)] + fs[1..]
      else
        [Field([], t, None)] + fs
  }

  function Group(es: seq<Entry>): (r: seq<Field>)
    ensures es != [] ==> r != []
  {
    if es == [] then [] else Attach(es[0], Group(es[1..]))
  }

  predicate NoTags(fs: seq<Field>) {
    forall f :: f in fs ==> f.tag == None
  }

  /** No unnamed identifier stands directly before a named field. */
  predicate Grouped(fs: seq<Field>) {
    forall i :: 0 <= i < |fs| - 1 && fs[i].names == [] && fs[i].typ.Ident? ==> fs[i + 1].names == []
  }

  /** Go's rule for parameter lists: the names are all present or all absent. */
  predicate Uniform(fs: seq<Field>) {
    || (forall f :: f in fs ==> f.names == [])
    || (forall f :: f in fs ==> f.names != [])
  }

  lemma {:induction false} FlattenAttach(e: Entry, fs: seq<Field>)
    ensures Flatten(Attach(e, fs)) == [e] + Flatten(fs)
  {
  }

  /** Grouping loses no entry and keeps their order. */
  lemma {:induction false} FlattenGroup(es: seq<Entry>)
    ensures Flatten(Group(es)) == es
  {
    if es != [] {
      FlattenGroup(es[1..]);
      FlattenAttach(es[0], Group(es[1..]));
    }
  }

  lemma {:induction false} GroupNames(names: seq<string>, t: Expr, es: seq<Entry>)
    requires names != []
    ensures Group(FlattenNames(names, t) + es) == [Field(names, t, None)] + Group(es)
  {
    FlattenFirst(names, t, es);
    if |names| == 1 {
      assert names == [names[0]];
      GroupCons(Named(names[0], t), es);
    } else {
      GroupNames(names[1..], t, es);
      GroupCons(Bare(Ident(names[0])), FlattenNames(names[1..], t) + es);
      AttachName(names, t, Group(es));
    }
  }

  lemma GroupCons(e: Entry, es: seq<Entry>)
    ensures Group([e] + es) == Attach(e, Group(es))
  {
  }

  lemma AttachName(names: seq<string>, t: Expr, fs: seq<Field>)
    requires |names| > 1
    ensures Attach(Bare(Ident(names[0])), [Field(names[1..], t, None)] + fs) == [Field(names, t, None)] + fs
  {
    assert [names[0]] + names[1..] == names;
  }

  /** The entries of a list determine the list exactly when it is grouped. */
  lemma {:induction false} GroupFlatten(fs: seq<Field>)
    requires NoTags(fs)
    ensures Group(Flatten(fs)) == fs <==> Grouped(fs)
    decreases |fs|
  {
    if fs != [] {
      var f, rest := fs[0], fs[1..];
      assert forall g :: g in rest ==> g in fs;
      GroupFlatten(rest);
      GroupedTail(fs);
      if f.names != [] {
        GroupNames(f.names, f.typ, Flatten(rest));
        assert f == Field(f.names, f.typ, None);
        assert [f] + rest == fs;
      } else {
        assert FlattenNames(f.names, f.typ) + Flatten(rest) == [Bare(f.typ)] + Flatten(rest);
        assert Group(Flatten(fs)) == Attach(Bare(f.typ), Group(Flatten(rest)));
        GroupHead(rest);
        assert f == Field([], f.typ, None);
        assert [f] + rest == fs;
      }
    }
  }

  lemma GroupedTail(fs: seq<Field>)
    requires fs != []
    ensures Grouped(fs) <==>
              (Grouped(fs[1..]) && (|fs| > 1 && fs[0].names == [] && fs[0].typ.Ident? ==> fs[1].names == []))
  {
  }

  /** A list whose entries group back starts with a named field if and only if the grouping does. */
  lemma {:induction false} GroupHead(fs: seq<Field>)
    ensures fs != [] ==> Group(Flatten(fs)) != [] &&
                         (fs[0].names != [] ==> Group(Flatten(fs))[0].names != [])
  {
    if fs != [] && fs[0].names != [] {
      GroupNames(fs[0].names, fs[0].typ, Flatten(fs[1..]));
    }
  }

  lemma UniformGrouped(fs: seq<Field>)
    requires Uniform(fs)
    ensures Grouped(fs)
  {
  }

  /** The tree that the text of t determines: lengths and tags erased, every list regrouped. */
  function Canon(t: Expr): Expr
    decreases t, 0
  {
    match t
    case Star(x) => Star(Canon(x))
    case Array(_, elt) => Array(NilNode, Canon(elt))
    case Selector(q, sel) => Selector(Canon(q), sel)
    case MapType(k, v) => MapType(Canon(k), Canon(v))
    case FuncType(ps, rs) =>
      FuncType(if ps.List? then List(CanonFields(ps.fields)) else NilList,
               if rs.List? then List(CanonFields(rs.fields)) else NilList)
    case ChanType(d, v) => ChanType(d, Canon(v))
    case Ellipsis(e) => Ellipsis(Canon(e))
    case _ => t
  }

  function CanonFields(fs: seq<Field>): (r: seq<Field>)
    ensures fs != [] <==> r != []
    decreases fs, 2
  {
    Group(CanonEntries(fs))
  }

  function CanonEntries(fs: seq<Field>): (r: seq<Entry>)
    ensures fs != [] <==> r != []
    decreases fs, 1
  {
    if fs == [] then [] else FlattenNames(fs[0].names, Canon(fs[0].typ)) + CanonEntries(fs[1..])
  }

  function EntryText(e: Entry): string {
    match e
    case Bare(t) => AstString(t)
    case Named(n, t) => n + " " + AstString(t)
  }

  function EntriesText(es: seq<Entry>): string
    decreases |es|, 1
  {
    if es == [] then "" else EntryText(es[0]) + MoreText(es[1..])
  }

  function MoreText(es: seq<Entry>): string
    decreases |es|, 2
  {
    if es == [] then "" else ", " + EntriesText(es)
  }

  lemma {:induction false} FieldText(f: Field, es: seq<Entry>)
    ensures EntriesText(FlattenNames(f.names, f.typ) + es) == Item(f) + MoreText(es)
    decreases |f.names|
  {
    var all := FlattenNames(f.names, f.typ) + es;
    if |f.names| <= 1 {
      assert all[1..] == es;
      assert EntryText(all[0]) == Item(f);
    } else {
      var g := f.(names := f.names[1..]);
      FieldText(g, es);
      assert all[0] == Bare(Ident(f.names[0]));
      assert all[1..] == FlattenNames(g.names, g.typ) + es;
      ItemTail(f);
      Assoc(f.names[0] + ", ", Item(g), MoreText(es));
      Assoc(f.names[0], ", ", Item(g) + MoreText(es));
    }
  }

  lemma ItemTail(f: Field)
    requires |f.names| > 1
    ensures Item(f) == f.names[0] + ", " + Item(f.(names := f.names[1..]))
  {
  }

  /** The text of a list is the text of its entries. */
  lemma {:induction false} ListText(fs: seq<Field>)
    ensures Join(Items(fs), ", ") == EntriesText(Flatten(fs))
    decreases |fs|
  {
    if fs != [] {
      ListText(fs[1..]);
      FieldText(fs[0], Flatten(fs[1..]));
      assert Items(fs)[1..] == Items(fs[1..]);
      if |fs| == 1 {
        assert Flatten(fs) == FlattenNames(fs[0].names, fs[0].typ) + [];
      }
    }
  }

  /** A tree and its canonical form have the same text, whatever the tree. */
  lemma {:induction false} CanonText(t: Expr)
    ensures AstString(Canon(t)) == AstString(t)
    decreases t, 0
  {
    match t
    case Star(x) => CanonText(x);
    case Array(_, elt) => CanonText(elt);
    case Selector(q, _) => CanonText(q);
    case MapType(k, v) => CanonText(k); CanonText(v);
    case FuncType(ps, rs) =>
      if ps.List? { CanonListText(ps.fields); }
      if rs.List? { CanonListText(rs.fields); }
    case ChanType(_, v) => CanonText(v);
    case Ellipsis(e) => CanonText(e);
    case _ =>
  }

  lemma {:induction false} CanonListText(fs: seq<Field>)
    ensures FieldListString(CanonFields(fs)) == FieldListString(fs)
    decreases fs, 2
  {
    CanonEntriesText(fs);
    FlattenGroup(CanonEntries(fs));
    ListText(CanonFields(fs));
    ListText(fs);
  }

  lemma {:induction false} CanonEntriesText(fs: seq<Field>)
    ensures EntriesText(CanonEntries(fs)) == EntriesText(Flatten(fs))
    decreases fs, 1
  {
    if fs != [] {
      var f := fs[0];
      CanonText(f.typ);
      CanonEntriesText(fs[1..]);
      FieldText(f, Flatten(fs[1..]));
      FieldText(f.(typ := Canon(f.typ)), CanonEntries(fs[1..]));
    }
  }

  /** Every list in the tree is grouped. */
  predicate AllGrouped(t: Expr)
    decreases t, 0
  {
    match t
    case Star(x) => AllGrouped(x)
    case Array(_, elt) => AllGrouped(elt)
    case Selector(q, _) => AllGrouped(q)
    case MapType(k, v) => AllGrouped(k) && AllGrouped(v)
    case FuncType(ps, rs) =>
      && (ps.List? ==> Grouped(ps.fields) && AllGroupedFields(ps.fields))
      && (rs.List? ==> Grouped(rs.fields) && AllGroupedFields(rs.fields))
    case ChanType(_, v) => AllGrouped(v)
    case Ellipsis(e) => AllGrouped(e)
    case _ => true
  }

  predicate AllGroupedFields(fs: seq<Field>)
    decreases fs, 1
  {
    fs == [] || (AllGrouped(fs[0].typ) && AllGroupedFields(fs[1..]))
  }

  /** Erasing is all the printer loses, exactly on the trees with grouped lists. */
  lemma {:induction false} CanonIsErase(t: Expr)
    ensures Canon(t) == Erase(t) <==> AllGrouped(t)
    decreases t, 0
  {
    match t
    case Star(x) => CanonIsErase(x);
    case Array(_, elt) => CanonIsErase(elt);
    case Selector(q, _) => CanonIsErase(q);
    case MapType(k, v) => CanonIsErase(k); CanonIsErase(v);
    case FuncType(ps, rs) =>
      if ps.List? { CanonIsEraseFields(ps.fields); }
      if rs.List? { CanonIsEraseFields(rs.fields); }
    case ChanType(_, v) => CanonIsErase(v);
    case Ellipsis(e) => CanonIsErase(e);
    case _ =>
  }

  lemma {:induction false} CanonIsEraseFields(fs: seq<Field>)
    ensures CanonFields(fs) == EraseFields(fs) <==> Grouped(fs) && AllGroupedFields(fs)
    decreases fs, 2
  {
    CanonEntriesAreErased(fs);
    FlattenGroup(CanonEntries(fs));
    EraseFieldsShape(fs);
    GroupFlatten(EraseFields(fs));
  }

  lemma {:induction false} ErasedAt(fs: seq<Field>, i: nat)
    requires i < |fs|
    ensures EraseFields(fs)[i] == EraseField(fs[i])
    decreases |fs|
  {
    if i > 0 {
      ErasedAt(fs[1..], i - 1);
    }
  }

  lemma {:induction false} EraseFieldsShape(fs: seq<Field>)
    ensures NoTags(EraseFields(fs))
    ensures Grouped(EraseFields(fs)) <==> Grouped(fs)
    ensures Uniform(EraseFields(fs)) <==> Uniform(fs)
  {
    var es := EraseFields(fs);
    forall i | 0 <= i < |fs|
      ensures es[i].names == fs[i].names && es[i].tag == None && (es[i].typ.Ident? <==> fs[i].typ.Ident?)
    {
      ErasedAt(fs, i);
    }
    UniformAt(es);
    UniformAt(fs);
  }

  lemma UniformAt(fs: seq<Field>)
    ensures Uniform(fs) <==> || (forall i :: 0 <= i < |fs| ==> fs[i].names == [])
                             || (forall i :: 0 <= i < |fs| ==> fs[i].names != [])
  {
  }

  /** Equal entries mean equal fields as far as types go: no type can hide behind a regrouping. */
  lemma {:induction false} CanonEntriesAreErased(fs: seq<Field>)
    ensures CanonEntries(fs) == Flatten(EraseFields(fs)) <==> AllGroupedFields(fs)
    decreases fs, 1
  {
    if fs != [] {
      var f := fs[0];
      CanonIsErase(f.typ);
      CanonEntriesAreErased(fs[1..]);
      var a, b := FlattenNames(f.names, Canon(f.typ)), FlattenNames(f.names, Erase(f.typ));
      FlattenNamesType(f.names, Canon(f.typ), Erase(f.typ));
      var c, d := CanonEntries(fs[1..]), Flatten(EraseFields(fs[1..]));
      assert EraseFields(fs)[1..] == EraseFields(fs[1..]);
      assert CanonEntries(fs) == a + c && Flatten(EraseFields(fs)) == b + d;
      if a + c == b + d {
        assert a == (a + c)[..|a|] && b == (b + d)[..|b|];
        assert c == (a + c)[|a|..] && d == (b + d)[|b|..];
      }
    }
  }

  lemma {:induction false} FlattenNamesType(names: seq<string>, t: Expr, u: Expr)
    ensures |FlattenNames(names, t)| == |FlattenNames(names, u)|
    ensures FlattenNames(names, t) == FlattenNames(names, u) <==> t == u
  {
    if |names| > 1 {
      FlattenNamesType(names[1..], t, u);
      var a, b := FlattenNames(names, t), FlattenNames(names, u);
      assert a[1..] == FlattenNames(names[1..], t) && b[1..] == FlattenNames(names[1..], u);
    } else {
      assert FlattenNames(names, t)[0].typ == t && FlattenNames(names, u)[0].typ == u;
    }
  }
}
