/**
 Brackets and commas in the text of a type. One scan keeps the stack of open brackets, fails on a
 closer that does not match, and counts the commas met when exactly n brackets are open.
 */
module Brackets {
  import opened Options
  import opened GoAst
  import opened Printer

  datatype Scanned = Scanned(open: seq<char>, commas: nat)

  function Scan(s: string, open: seq<char>, n: nat): Option<Scanned> {
    if s == "" then Some(Scanned(open, 0))
    else if s[0] == '(' || s[0] == '[' then Scan(s[1..], open + [s[0]], n)
    else if s[0] == ')' || s[0] == ']' then
      if open != [] && open[|open| - 1] == (if s[0] == ')' then '(' else '[') then
        Scan(s[1..], open[..|open| - 1], n)
      else None
    else
      var rest :- Scan(s[1..], open, n);
      Some(Scanned(rest.open, rest.commas + if s[0] == ',' && |open| == n then 1 else 0))
  }

  lemma {:induction false} ScanAppend(a: string, b: string, open: seq<char>, n: nat)
    ensures Scan(a + b, open, n) ==
            var x :- Scan(a, open, n); var y :- Scan(b, x.open, n); Some(Scanned(y.open, x.commas + y.commas))
    decreases |a|
  {
    if a == "" {
      assert a + b == b;
    } else {
      assert (a + b)[1..] == a[1..] + b && (a + b)[0] == a[0];
      if a[0] == '(' || a[0] == '[' {
        ScanAppend(a[1..], b, open + [a[0]], n);
      } else if a[0] == ')' || a[0] == ']' {
        if open != [] {
          ScanAppend(a[1..], b, open[..|open| - 1], n);
        }
      } else {
        ScanAppend(a[1..], b, open, n);
      }
    }
  }

  /** Every prefix of a text that scans, scans. */
  lemma {:induction false} PrefixScans(s: string, i: nat, open: seq<char>, n: nat)
    requires i <= |s| && Scan(s, open, n).Some?
    ensures Scan(s[..i], open, n).Some?
  {
    assert s == s[..i] + s[i..];
    ScanAppend(s[..i], s[i..], open, n);
  }

  predicate Scans(s: string, open: seq<char>, n: nat, commas: nat) {
    Scan(s, open, n) == Some(Scanned(open, commas))
  }

  lemma ScansAppend(a: string, b: string, open: seq<char>, n: nat, i: nat, j: nat)
    requires Scans(a, open, n, i) && Scans(b, open, n, j)
    ensures Scans(a + b, open, n, i + j)
  {
    ScanAppend(a, b, open, n);
  }

  predicate Plain(s: string) {
    forall i :: 0 <= i < |s| ==> s[i] !in {'(', ')', '[', ']', ','}
  }

  lemma {:induction false} PlainScans(s: string, open: seq<char>, n: nat)
    requires Plain(s)
    ensures Scans(s, open, n, 0)
  {
    if s != "" {
      PlainScans(s[1..], open, n);
    }
  }

  lemma IdentIsPlain(s: string)
    requires IsIdent(s)
    ensures Plain(s)
  {
  }

  /** A bracketed text, seen from outside: its commas are too deep to count. */
  lemma BracketedScans(l: string, s: string, r: string, open: seq<char>, n: nat, i: nat)
    requires (l == "(" && r == ")") || (l == "[" && r == "]")
    requires Scans(s, open + l, n, i)
    ensures Scans(l + s + r, open, n, i)
  {
    ScanAppend(l + s, r, open, n);
    ScanAppend(l, s, open, n);
    assert l[1..] == "" && r[1..] == "";
    assert (open + l)[..|open|] == open;
  }

  /** How many entries a list shows: every name counts, and an unnamed field counts once. */
  function Arity(fs: seq<Field>): nat {
    if fs == [] then 0 else (if fs[0].names == [] then 1 else |fs[0].names|) + Arity(fs[1..])
  }

  /**
   The text of a type closes what it opens, in order, and has no comma outside its own brackets.
   */
  lemma {:induction false} TypeScans(t: Expr, open: seq<char>, n: nat)
    requires Printable(t) && n <= |open|
    ensures Scans(AstString(t), open, n, 0)
    decreases t, 0
  {
    match t
    case Ident(name) =>
      IdentIsPlain(name);
      PlainScans(name, open, n);
    case Star(x) =>
      TypeScans(x, open, n);
      PlainScans("*", open, n);
      ScansAppend("*", AstString(x), open, n, 0, 0);
    case Array(_, x) =>
      TypeScans(x, open, n);
      BracketsScan(open, n);
      ScansAppend("[]", AstString(x), open, n, 0, 0);
    case Ellipsis(x) =>
      TypeScans(x, open, n);
      PlainScans("...", open, n);
      ScansAppend("...", AstString(x), open, n, 0, 0);
    case Selector(q, sel) =>
      IdentIsPlain(q.name);
      IdentIsPlain(sel);
      PlainScans(q.name + "." + sel, open, n);
    case MapType(k, v) =>
      TypeScans(k, open + "[", n);
      TypeScans(v, open, n);
      MapScans(AstString(k), AstString(v), open, n);
    case FuncType(ps, rs) =>
      if ps.List? { ListScans(ps.fields, open, n); }
      if rs.List? { ListScans(rs.fields, open, n); }
      FuncScans(ps, rs, open, n);
    case ChanType(d, x) =>
      TypeScans(x, open, n);
      PlainScans(DirText(d), open, n);
      ScansAppend(DirText(d), AstString(x), open, n, 0, 0);
    case _ =>
  }

  lemma BracketsScan(open: seq<char>, n: nat)
    requires n <= |open|
    ensures Scans("[]", open, n, 0)
  {
    PlainScans("", open + "[", n);
    BracketedScans("[", "", "]", open, n, 0);
    assert "[" + "" + "]" == "[]";
  }

  lemma MapScans(k: string, v: string, open: seq<char>, n: nat)
    requires Scans(k, open + "[", n, 0) && Scans(v, open, n, 0)
    ensures Scans("map[" + k + "]" + v, open, n, 0)
  {
    BracketedScans("[", k, "]", open, n, 0);
    PlainScans("map", open, n);
    ScansAppend("map", "[" + k + "]", open, n, 0, 0);
    ScansAppend("map" + ("[" + k + "]"), v, open, n, 0, 0);
    assert "map[" == "map" + "[";
    assert "map[" + k + "]" + v == "map" + ("[" + k + "]") + v;
  }

  lemma FuncScans(ps: FieldList, rs: FieldList, open: seq<char>, n: nat)
    requires ps.List? ==> Scans(FieldListString(ps.fields), open, n, 0)
    requires rs.List? ==> Scans(FieldListString(rs.fields), open, n, 0)
    ensures Scans("func" + OptionalText("", ps) + OptionalText(" ", rs), open, n, 0)
  {
    PlainScans("func", open, n);
    PlainScans("", open, n);
    PlainScans(" ", open, n);
    var a, b := OptionalText("", ps), OptionalText(" ", rs);
    if ps.List? {
      assert a == FieldListString(ps.fields);
    }
    if rs.List? {
      ScansAppend(" ", FieldListString(rs.fields), open, n, 0, 0);
    }
    ScansAppend("func", a, open, n, 0, 0);
    ScansAppend("func" + a, b, open, n, 0, 0);
  }

  /**
   A parameter list shows its arity: one bracket deeper than where it stands it has one comma
   less than it has entries, and none at any shallower depth.
   */
  lemma {:induction false} ListScans(fs: seq<Field>, open: seq<char>, n: nat)
    requires PrintableFields(fs) && n <= |open| + 1
    ensures Scans(FieldListString(fs), open, n, if n <= |open| || fs == [] then 0 else Arity(fs) - 1)
    decreases fs, 2
  {
    if fs == [] {
      PlainScans("", open + "(", n);
      BracketedScans("(", "", ")", open, n, 0);
      assert "(" + "" + ")" == "()";
    } else {
      FieldsScan(fs, open + "(", n);
      BracketedScans("(", Join(Items(fs), ", "), ")", open, n, if n <= |open| then 0 else Arity(fs) - 1);
    }
  }

  lemma {:induction false} FieldsScan(fs: seq<Field>, open: seq<char>, n: nat)
    requires PrintableFields(fs) && fs != [] && n <= |open|
    ensures Scans(Join(Items(fs), ", "), open, n, if n < |open| then 0 else Arity(fs) - 1)
    decreases fs, 1
  {
    var f, rest := fs[0], fs[1..];
    ItemScans(f, open, n);
    assert Items(fs)[1..] == Items(rest);
    if rest != [] {
      FieldsScan(rest, open, n);
      SeparatedScans(Item(f), Join(Items(rest), ", "), open, n,
                     if n < |open| then 0 else (if f.names == [] then 0 else |f.names| - 1),
                     if n < |open| then 0 else Arity(rest) - 1);
    }
  }

  lemma SeparatedScans(a: string, b: string, open: seq<char>, n: nat, i: nat, j: nat)
    requires Scans(a, open, n, i) && Scans(b, open, n, j)
    ensures Scans(a + ", " + b, open, n, i + j + if |open| == n then 1 else 0)
  {
    PlainScans(" ", open, n);
    assert ", "[1..] == " ";
    assert Scans(", ", open, n, if |open| == n then 1 else 0);
    ScansAppend(a, ", ", open, n, i, if |open| == n then 1 else 0);
    ScansAppend(a + ", ", b, open, n, i + if |open| == n then 1 else 0, j);
  }

  lemma {:induction false} ItemScans(f: Field, open: seq<char>, n: nat)
    requires PrintableField(f) && n <= |open|
    ensures Scans(Item(f), open, n, if n < |open| || f.names == [] then 0 else |f.names| - 1)
    decreases f, 0
  {
    TypeScans(f.typ, open, n);
    if f.names != [] {
      NamesScan(f.names, open, n);
      PlainScans(" ", open, n);
      var i := if n < |open| then 0 else |f.names| - 1;
      ScansAppend(Join(f.names, ", "), " ", open, n, i, 0);
      ScansAppend(Join(f.names, ", ") + " ", AstString(f.typ), open, n, i, 0);
    }
  }

  lemma {:induction false} NamesScan(names: seq<string>, open: seq<char>, n: nat)
    requires names != [] && (forall s :: s in names ==> IsIdent(s)) && n <= |open|
    ensures Scans(Join(names, ", "), open, n, if n < |open| then 0 else |names| - 1)
  {
    assert names[0] in names;
    IdentIsPlain(names[0]);
    PlainScans(names[0], open, n);
    if |names| > 1 {
      NamesScan(names[1..], open, n);
      SeparatedScans(names[0], Join(names[1..], ", "), open, n, 0, if n < |open| then 0 else |names| - 2);
    }
  }

  /** Balance of a whole text, prefix by prefix, and its arity when it is a list. */
  lemma {:induction false} TypeIsBalanced(t: Expr, i: nat)
    requires Printable(t) && i <= |AstString(t)|
    ensures Scans(AstString(t), [], 0, 0)
    ensures Scan(AstString(t)[..i], [], 0).Some?
  {
    TypeScans(t, [], 0);
    PrefixScans(AstString(t), i, [], 0);
  }
}
