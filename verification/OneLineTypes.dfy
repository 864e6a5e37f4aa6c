/**
 The text of a type is a single line.
 */
module OneLineTypes {
  import opened GoAst
  import opened Printer

  predicate OneLine(s: string) {
    forall i :: 0 <= i < |s| ==> s[i] != '\n'
  }

  lemma OneLineAppend(a: string, b: string)
    requires OneLine(a) && OneLine(b)
    ensures OneLine(a + b)
  {
  }

  /** The text of a type never breaks the line. */
  lemma {:induction false} TypeIsOneLine(t: Expr)
    requires Printable(t)
    ensures OneLine(AstString(t))
    decreases t, 0
  {
    match t
    case Star(x) => TypeIsOneLine(x);
    case Array(_, x) => TypeIsOneLine(x);
    case MapType(k, v) => TypeIsOneLine(k); TypeIsOneLine(v);
    case FuncType(ps, rs) =>
      if ps.List? { ListIsOneLine(ps.fields); }
      if rs.List? { ListIsOneLine(rs.fields); }
      OneLineAppend("func", OptionalText("", ps));
      OneLineAppend("func" + OptionalText("", ps), OptionalText(" ", rs));
    case ChanType(d, x) =>
      TypeIsOneLine(x);
      OneLineAppend(DirText(d), AstString(x));
    case Ellipsis(x) => TypeIsOneLine(x);
    case _ =>
  }

  lemma {:induction false} ListIsOneLine(fs: seq<Field>)
    requires PrintableFields(fs)
    ensures OneLine(FieldListString(fs))
    decreases fs, 2
  {
    ItemsAreOneLine(fs);
    JoinIsOneLine(Items(fs));
  }

  lemma {:induction false} ItemsAreOneLine(fs: seq<Field>)
    requires PrintableFields(fs)
    ensures forall s :: s in Items(fs) ==> OneLine(s)
    decreases fs, 1
  {
    if fs != [] {
      ItemIsOneLine(fs[0]);
      ItemsAreOneLine(fs[1..]);
    }
  }

  lemma {:induction false} ItemIsOneLine(f: Field)
    requires PrintableField(f)
    ensures OneLine(Item(f))
    decreases f, 0
  {
    TypeIsOneLine(f.typ);
    forall n | n in f.names
      ensures OneLine(n)
    {
      assert AllIdentChars(n);
    }
    JoinIsOneLine(f.names);
  }

  lemma {:induction false} JoinIsOneLine(parts: seq<string>)
    requires forall s :: s in parts ==> OneLine(s)
    ensures OneLine(Join(parts, ", "))
  {
    if parts != [] {
      assert parts[0] in parts;
      JoinIsOneLine(parts[1..]);
    }
  }
}
