/**
 Trees with one hole: whatever fills the hole, its text stands between two texts that do not depend
 on it. Nothing is assumed of the tree around it, which may itself be opaque or incomplete.
 */
module Holes {
  import opened Options
  import opened Sequences
  import opened GoAst
  import opened Printer

  /** The way from the root of a tree down to a hole, with everything beside the way. */
  datatype Hole =
    | Here
    | InStar(inner: Hole)
    | InElement(len: Expr, inner: Hole)
    | InQualifier(inner: Hole, sel: string)
    | InKey(inner: Hole, value: Expr)
    | InValue(key: Expr, inner: Hole)
    | InParams(front: seq<Field>, names: seq<string>, inner: Hole, tag: Option<string>, back: seq<Field>, results: FieldList)
    | InResults(params: FieldList, front: seq<Field>, names: seq<string>, inner: Hole, tag: Option<string>, back: seq<Field>)
    | InChan(dir: Dir, inner: Hole)
    | InVariadic(inner: Hole)

  function Fill(h: Hole, t: Expr): Expr {
    match h
    case Here => t
    case InStar(i) => Star(Fill(i, t))
    case InElement(len, i) => Array(len, Fill(i, t))
    case InQualifier(i, sel) => Selector(Fill(i, t), sel)
    case InKey(i, value) => MapType(Fill(i, t), value)
    case InValue(key, i) => MapType(key, Fill(i, t))
    case InParams(front, names, i, tag, back, results) =>
      FuncType(List(front + [Field(names, Fill(i, t), tag)] + back), results)
    case InResults(params, front, names, i, tag, back) =>
      FuncType(params, List(front + [Field(names, Fill(i, t), tag)] + back))
    case InChan(d, i) => ChanType(d, Fill(i, t))
    case InVariadic(i) => Ellipsis(Fill(i, t))
  }

  lemma Around(a: string, before: string, s: string, after: string, b: string)
    ensures a + (before + (s + after)) + b == (a + before) + (s + (after + b))
  {
    Assoc(a, before + (s + after), b);
    Assoc(before, s + after, b);
    Assoc(s, after, b);
    Assoc(a, before, s + (after + b));
  }

  lemma {:induction false} JoinAround(front: seq<string>, back: seq<string>) returns (before: string, after: string)
    ensures forall s :: Join(front + [s] + back, ", ") == before + (s + after)
    decreases |front|
  {
    if front == [] {
      before, after := "", if back == [] then "" else ", " + Join(back, ", ");
      forall s
        ensures Join(front + [s] + back, ", ") == before + (s + after)
      {
        JoinFirst(s, back);
      }
    } else {
      var b, a := JoinAround(front[1..], back);
      before, after := front[0] + ", " + b, a;
      forall s
        ensures Join(front + [s] + back, ", ") == before + (s + after)
      {
        assert (front + [s] + back)[1..] == front[1..] + [s] + back;
        Assoc(front[0] + ", ", b, s + a);
      }
    }
  }

  lemma JoinFirst(s: string, back: seq<string>)
    ensures Join([] + [s] + back, ", ") == "" + (s + (if back == [] then "" else ", " + Join(back, ", ")))
  {
    assert ([] + [s] + back)[1..] == back;
    assert back == [] ==> [] + [s] + back == [s];
    Assoc(s, ", ", Join(back, ", "));
  }

  lemma {:induction false} ItemsAround(front: seq<Field>, f: Field, back: seq<Field>)
    ensures Items(front + [f] + back) == Items(front) + [Item(f)] + Items(back)
    decreases |front|
  {
    if front == [] {
      assert (front + [f] + back)[1..] == back;
    } else {
      assert (front + [f] + back)[1..] == front[1..] + [f] + back;
      ItemsAround(front[1..], f, back);
    }
  }

  function NamesLead(names: seq<string>): string {
    if names == [] then "" else Join(names, ", ") + " "
  }

  lemma {:induction false} ListAround(front: seq<Field>, names: seq<string>, tag: Option<string>, back: seq<Field>)
    returns (before: string, after: string)
    ensures forall t :: FieldListString(front + [Field(names, t, tag)] + back) == before + (AstString(t) + after)
  {
    var b, a := JoinAround(Items(front), Items(back));
    before, after := ("(" + b) + NamesLead(names), a + ")";
    forall t
      ensures FieldListString(front + [Field(names, t, tag)] + back) == before + (AstString(t) + after)
    {
      var f := Field(names, t, tag);
      ItemsAround(front, f, back);
      assert Item(f) == NamesLead(names) + AstString(t);
      Around("(", b, Item(f), a, ")");
      Assoc(NamesLead(names), AstString(t), a + ")");
      Assoc("(" + b, NamesLead(names), AstString(t) + (a + ")"));
    }
  }

  /** One step down: the texts on both sides of the part that holds the hole. */
  lemma OuterText(h: Hole) returns (l: string, r: string)
    requires !h.Here?
    ensures forall t :: AstString(Fill(h, t)) == l + AstString(Fill(h.inner, t)) + r
  {
    match h
    case InStar(_) => l, r := "*", "";
    case InElement(_, _) => l, r := "[]", "";
    case InQualifier(_, sel) =>
      l, r := "", "." + sel;
      forall t
        ensures AstString(Fill(h, t)) == l + AstString(Fill(h.inner, t)) + r
      {
        Assoc(AstString(Fill(h.inner, t)), ".", sel);
        SeqNil(AstString(Fill(h.inner, t)));
      }
    case InKey(_, value) =>
      l, r := "map[", "]" + AstString(value);
      forall t
        ensures AstString(Fill(h, t)) == l + AstString(Fill(h.inner, t)) + r
      {
        Assoc("map[" + AstString(Fill(h.inner, t)), "]", AstString(value));
      }
    case InValue(key, _) => l, r := "map[" + AstString(key) + "]", "";
    case InParams(front, names, _, tag, back, results) => l, r := ParamsText(h);
    case InResults(params, front, names, _, tag, back) => l, r := ResultsText(h);
    case InChan(d, _) => l, r := DirText(d), "";
    case InVariadic(_) => l, r := "...", "";
  }

  lemma ParamsText(h: Hole) returns (l: string, r: string)
    requires h.InParams?
    ensures forall t :: AstString(Fill(h, t)) == l + AstString(Fill(h.inner, t)) + r
  {
    var b, a := ListAround(h.front, h.names, h.tag, h.back);
    var results := OptionalText(" ", h.results);
    l, r := "func" + b, a + results;
    forall t
      ensures AstString(Fill(h, t)) == l + AstString(Fill(h.inner, t)) + r
    {
      var x := AstString(Fill(h.inner, t));
      var ps := List(h.front + [Field(h.names, Fill(h.inner, t), h.tag)] + h.back);
      assert OptionalText("", ps) == b + (x + a);
      Around("func", b, x, a, results);
      Assoc("func" + b, x, a + results);
    }
  }

  lemma ResultsText(h: Hole) returns (l: string, r: string)
    requires h.InResults?
    ensures forall t :: AstString(Fill(h, t)) == l + AstString(Fill(h.inner, t)) + r
  {
    var b, a := ListAround(h.front, h.names, h.tag, h.back);
    var params := "func" + OptionalText("", h.params);
    l, r := params + " " + b, a;
    forall t
      ensures AstString(Fill(h, t)) == l + AstString(Fill(h.inner, t)) + r
    {
      var x := AstString(Fill(h.inner, t));
      var rs := List(h.front + [Field(h.names, Fill(h.inner, t), h.tag)] + h.back);
      assert OptionalText(" ", rs) == " " + (b + (x + a));
      Assoc(params, " ", b + (x + a));
      Assoc(params + " ", b, x + a);
      Assoc(params + " " + b, x, a);
    }
  }

  /** The text of a filled tree, one for all that may fill the hole. */
  lemma {:induction false} HoleText(h: Hole) returns (before: string, after: string)
    ensures forall t :: AstString(Fill(h, t)) == before + (AstString(t) + after)
  {
    if h.Here? {
      before, after := "", "";
      forall t
        ensures AstString(Fill(h, t)) == before + (AstString(t) + after)
      {
        SeqNil(AstString(t));
      }
    } else {
      var l, r := OuterText(h);
      var b, a := HoleText(h.inner);
      before, after := l + b, a + r;
      forall t
        ensures AstString(Fill(h, t)) == before + (AstString(t) + after)
      {
        Around(l, b, AstString(t), a, r);
      }
    }
  }

  /**
   What go/printer writes for a node comes out unchanged wherever the node stands, the name of the
   node's kind takes its place when go/printer fails, and a missing node leaves nothing.
   */
  lemma {:induction false} OpaqueText(h: Hole) returns (before: string, after: string)
    ensures forall x, kind :: AstString(Fill(h, Other(Some(x), kind))) == before + (x + after)
    ensures forall kind :: AstString(Fill(h, Other(None, kind))) == before + ("(" + kind + ")" + after)
    ensures forall x :: AstString(Fill(h, Ident(x))) == before + (x + after)
    ensures AstString(Fill(h, NilNode)) == before + after
  {
    before, after := HoleText(h);
    SeqNil(after);
  }
}
