/**
 What Go reads in the text that astString writes: for every tree of the grammar's shape the
 reading is GoMeaning, and it is the tree itself exactly when no bidirectional channel carries a
 receive-only channel.
 */
module GoReading {
  import opened Options
  import opened GoAst
  import opened Printer
  import opened Entries
  import opened Literals
  import opened OneLineTypes
  import opened Sequences
  import opened Decoder
  import opened GoGrammar

  /** The word chan in front of a type: its "<-" goes to the leftmost chan. */
  function ChanOf(v: Expr): Expr {
    if IsRecv(v) then ChanType(Send, ChanOf(v.elem)) else ChanType(Both, v)
  }

  function GoMeaning(t: Expr): Expr
    decreases t, 0
  {
    match t
    case Star(x) => Star(GoMeaning(x))
    case Array(_, elt) => Array(NilNode, GoMeaning(elt))
    case Selector(q, sel) => Selector(GoMeaning(q), sel)
    case MapType(k, v) => MapType(GoMeaning(k), GoMeaning(v))
    case FuncType(ps, rs) =>
      FuncType(if ps.List? then List(GoMeaningFields(ps.fields)) else NilList,
               if rs.List? then List(GoMeaningFields(rs.fields)) else NilList)
    case ChanType(d, v) => if d == Both then ChanOf(GoMeaning(v)) else ChanType(d, GoMeaning(v))
    case Ellipsis(e) => Ellipsis(GoMeaning(e))
    case _ => t
  }

  function GoMeaningFields(fs: seq<Field>): (r: seq<Field>)
    ensures |r| == |fs|
    decreases fs, 1
  {
    if fs == [] then [] else [Field(fs[0].names, GoMeaning(fs[0].typ), None)] + GoMeaningFields(fs[1..])
  }

  /** Go reads the tree itself exactly when its channels are clear. */
  lemma {:induction false} GoMeaningIsErase(t: Expr)
    ensures GoMeaning(t) == Erase(t) <==> ChanClear(t)
    ensures IsRecv(GoMeaning(t)) <==> IsRecv(t)
    decreases t, 0
  {
    match t
    case Star(x) => GoMeaningIsErase(x);
    case Array(_, elt) => GoMeaningIsErase(elt);
    case Selector(q, _) => GoMeaningIsErase(q);
    case MapType(k, v) => GoMeaningIsErase(k); GoMeaningIsErase(v);
    case FuncType(ps, rs) =>
      if ps.List? { GoMeaningFieldsAreErased(ps.fields); }
      if rs.List? { GoMeaningFieldsAreErased(rs.fields); }
    case ChanType(_, v) => GoMeaningIsErase(v);
    case Ellipsis(e) => GoMeaningIsErase(e);
    case _ =>
  }

  lemma {:induction false} GoMeaningFieldsAreErased(fs: seq<Field>)
    ensures GoMeaningFields(fs) == EraseFields(fs) <==> ChanClearFields(fs)
    decreases fs, 1
  {
    if fs != [] {
      GoMeaningIsErase(fs[0].typ);
      GoMeaningFieldsAreErased(fs[1..]);
      var a, b := GoMeaningFields(fs), EraseFields(fs);
      assert a[0].typ == GoMeaning(fs[0].typ) && b[0] == EraseField(fs[0]);
      assert a[1..] == GoMeaningFields(fs[1..]) && b[1..] == EraseFields(fs[1..]);
      if a[0] == b[0] && a[1..] == b[1..] {
        assert a == [a[0]] + a[1..] && b == [b[0]] + b[1..];
      }
    }
  }

  lemma {:induction false} EraseKeepsShape(t: Expr)
    ensures GoShape(Erase(t)) <==> GoShape(t)
    ensures GoShapeParam(Erase(t)) <==> GoShapeParam(t)
    decreases t, 0
  {
    match t
    case Star(x) => EraseKeepsShape(x);
    case Array(_, elt) => EraseKeepsShape(elt);
    case Selector(q, _) => EraseKeepsShape(q);
    case MapType(k, v) => EraseKeepsShape(k); EraseKeepsShape(v);
    case FuncType(ps, rs) =>
      if ps.List? { EraseKeepsFields(ps.fields); }
      if rs.List? { EraseKeepsFields(rs.fields); }
    case ChanType(_, v) => EraseKeepsShape(v);
    case Ellipsis(e) => EraseKeepsShape(e);
    case _ =>
  }

  lemma {:induction false} EraseKeepsFields(fs: seq<Field>)
    ensures Uniform(EraseFields(fs)) <==> Uniform(fs)
    ensures DotsOk(EraseFields(fs), true) <==> DotsOk(fs, true)
    ensures DotsOk(EraseFields(fs), false) <==> DotsOk(fs, false)
    ensures GoShapeFields(EraseFields(fs)) <==> GoShapeFields(fs)
    decreases fs, 1
  {
    EraseFieldsShape(fs);
    EraseKeepsDots(fs);
    if fs != [] {
      EraseKeepsShape(fs[0].typ);
      EraseKeepsFields(fs[1..]);
      assert EraseFields(fs)[1..] == EraseFields(fs[1..]);
    }
  }

  lemma {:induction false} EraseKeepsChannels(t: Expr)
    ensures ChanClear(Erase(t)) <==> ChanClear(t)
    decreases t, 0
  {
    match t
    case Star(x) => EraseKeepsChannels(x);
    case Array(_, elt) => EraseKeepsChannels(elt);
    case Selector(q, _) => EraseKeepsChannels(q);
    case MapType(k, v) => EraseKeepsChannels(k); EraseKeepsChannels(v);
    case FuncType(ps, rs) =>
      if ps.List? { EraseKeepsFieldChannels(ps.fields); }
      if rs.List? { EraseKeepsFieldChannels(rs.fields); }
    case ChanType(_, v) => EraseKeepsChannels(v);
    case Ellipsis(e) => EraseKeepsChannels(e);
    case _ =>
  }

  lemma {:induction false} EraseKeepsFieldChannels(fs: seq<Field>)
    ensures ChanClearFields(EraseFields(fs)) <==> ChanClearFields(fs)
    decreases fs, 1
  {
    if fs != [] {
      EraseKeepsChannels(fs[0].typ);
      EraseKeepsFieldChannels(fs[1..]);
      assert EraseFields(fs)[1..] == EraseFields(fs[1..]);
    }
  }

  lemma EraseKeepsDots(fs: seq<Field>)
    ensures forall incoming :: DotsOk(EraseFields(fs), incoming) <==> DotsOk(fs, incoming)
  {
    var es := EraseFields(fs);
    forall i | 0 <= i < |fs|
      ensures es[i].names == fs[i].names && (es[i].typ.Ellipsis? <==> fs[i].typ.Ellipsis?)
    {
      ErasedAt(fs, i);
    }
  }

  /** The entries of the meaning of a list group back to that list, as Go allows no mixed lists. */
  function MeaningEntries(fs: seq<Field>): (r: seq<Entry>)
    ensures fs != [] ==> r != []
  {
    if fs == [] then [] else FlattenNames(fs[0].names, GoMeaning(fs[0].typ)) + MeaningEntries(fs[1..])
  }

  lemma MeaningGroups(fs: seq<Field>, incoming: bool)
    requires Uniform(fs)
    ensures Group(MeaningEntries(fs)) == GoMeaningFields(fs)
    ensures Uniform(GoMeaningFields(fs))
    ensures DotsOk(GoMeaningFields(fs), incoming) <==> DotsOk(fs, incoming)
  {
    MeaningEntriesFlatten(fs);
    MeaningIsUniform(fs);
    MeaningDots(fs, incoming);
    UniformGrouped(GoMeaningFields(fs));
    GroupFlatten(GoMeaningFields(fs));
  }

  lemma MeaningIsUniform(fs: seq<Field>)
    requires Uniform(fs)
    ensures Uniform(GoMeaningFields(fs)) && forall f :: f in GoMeaningFields(fs) ==> f.tag == None
  {
    MeaningKeeps(fs);
    UniformAt(fs);
    UniformAt(GoMeaningFields(fs));
  }

  lemma MeaningDots(fs: seq<Field>, incoming: bool)
    ensures DotsOk(GoMeaningFields(fs), incoming) <==> DotsOk(fs, incoming)
  {
    MeaningKeeps(fs);
  }

  lemma MeaningKeeps(fs: seq<Field>)
    ensures var gs := GoMeaningFields(fs);
            forall i :: 0 <= i < |fs| ==>
              gs[i].names == fs[i].names && gs[i].tag == None && (gs[i].typ.Ellipsis? <==> fs[i].typ.Ellipsis?)
  {
    forall i | 0 <= i < |fs|
      ensures var g := GoMeaningFields(fs)[i];
              g.names == fs[i].names && g.tag == None && (g.typ.Ellipsis? <==> fs[i].typ.Ellipsis?)
    {
      MeaningAt(fs, i);
      MeaningIsEllipsis(fs[i].typ);
    }
  }

  lemma MeaningIsEllipsis(t: Expr)
    ensures GoMeaning(t).Ellipsis? <==> t.Ellipsis?
  {
  }

  lemma {:induction false} MeaningAt(fs: seq<Field>, i: nat)
    requires i < |fs|
    ensures GoMeaningFields(fs)[i] == Field(fs[i].names, GoMeaning(fs[i].typ), None)
    decreases |fs|
  {
    if i > 0 {
      MeaningAt(fs[1..], i - 1);
    }
  }

  lemma {:induction false} MeaningEntriesFlatten(fs: seq<Field>)
    ensures Flatten(GoMeaningFields(fs)) == MeaningEntries(fs)
    decreases |fs|
  {
    if fs != [] {
      MeaningEntriesFlatten(fs[1..]);
      assert GoMeaningFields(fs)[1..] == GoMeaningFields(fs[1..]);
    }
  }

  /** What may follow a type in the text of a type. */
  predicate GoStops(k: string) {
    k == "" || k[0] in {',', ')', ']', '\n'} || StopsAtTag(k)
  }

  predicate StopsAtTag(k: string) {
    AtTag(k) && TakeLiteral(k[1..]).Some?
  }

  lemma LexStop(k: string)
    requires GoStops(k)
    ensures k == "" ==> Lex(k) == []
    ensures k != "" ==> Lex(k) == if StopsAtTag(k) then LexTag(k[1..]) else [Symbol(k[0])] + Lex(k[1..])
    ensures !StartsParamType(Lex(k)) && !At(Lex(k), Symbol('(')) && !At(Lex(k), Symbol('.'))
  {
    if StopsAtTag(k) {
      LexStopTag(k);
    } else if k != "" {
      LexStopMark(k);
    }
  }

  lemma LexStopMark(k: string)
    requires k != "" && k[0] in {',', ')', ']', '\n'}
    ensures Lex(k) == [Symbol(k[0])] + Lex(k[1..]) && !StopsAtTag(k)
  {
    NoMark(k);
    assert !(" `" <= k) && !(" \"" <= k);
  }

  lemma LexStopTag(k: string)
    requires StopsAtTag(k)
    ensures Lex(k) == LexTag(k[1..])
  {
    assert k[0] == ' ';
    LexTagOk(k[1..]);
  }

  function LexTag(s: string): seq<Token>
    requires TakeLiteral(s).Some?
  {
    var (text, k) := TakeLiteral(s).value;
    [Literal(text)] + Lex(k)
  }

  lemma LexTagOk(s: string)
    requires TakeLiteral(s).Some?
    ensures Lex(s) == LexTag(s)
  {
    NoMark(s);
  }

  /** Only a dot or an angle starts a mark of several characters. */
  lemma NoMark(s: string)
    requires s != "" && s[0] != '.' && s[0] != '<'
    ensures !("..." <= s) && !("<-" <= s)
  {
    assert "..."[0] == '.' && "<-"[0] == '<';
  }

  lemma LexWord(w: string, k: string)
    requires w != "" && IsLetter(w[0]) && AllIdentChars(w)
    requires k == "" || !IsIdentChar(k[0])
    ensures Lex(w + k) == [WordToken(w)] + Lex(k)
  {
    WordOf(w, k);
    assert (w + k)[0] == w[0];
  }

  lemma LexSymbol(s: string, k: string)
    requires |s| == 1 && s[0] in {'*', '[', ']', '(', ')', ',', '{', '\n'}
    ensures Lex(s + k) == [Symbol(s[0])] + Lex(k)
  {
    Cut(s, k);
    assert (s + k)[0] == s[0];
    NoMark(s + k);
  }

  lemma LexSpace(k: string)
    ensures Lex(" " + k) == Lex(k)
  {
    Cut(" ", k);
  }

  lemma LexDots(k: string)
    ensures Lex("..." + k) == [Dots] + Lex(k)
  {
    Cut("...", k);
    assert ("..." + k)[0] == '.';
  }

  lemma LexArrow(k: string)
    ensures Lex("<-" + k) == [Arrow] + Lex(k)
  {
    Cut("<-", k);
    assert ("<-" + k)[0] == '<';
    assert !("..." <= "<-" + k);
  }

  lemma LexTypeWord(w: string, k: string)
    requires w in {"map", "func", "chan"}
    requires k == "" || !IsIdentChar(k[0])
    ensures Lex(w + k) == [Keyword(w)] + Lex(k)
  {
    TypeWordsAreKeywords();
    LexWord(w, k);
  }

  lemma LexChanBoth(r: string)
    ensures Lex("chan" + (" " + r)) == [Keyword("chan")] + Lex(r)
  {
    LexSpace(r);
    LexTypeWord("chan", " " + r);
  }

  lemma LexChanSend(r: string)
    ensures Lex("chan" + ("<- " + r)) == [Keyword("chan")] + ([Arrow] + Lex(r))
  {
    assert "<- " == "<-" + " ";
    Assoc("<-", " ", r);
    LexTypeWord("chan", "<- " + r);
    LexArrow(" " + r);
    LexSpace(r);
  }

  lemma LexChanRecv(r: string)
    ensures Lex("<-chan " + r) == [Arrow] + ([Keyword("chan")] + Lex(r))
  {
    assert "<-chan " == "<-" + "chan ";
    assert "chan " == "chan" + " ";
    Assoc("<-", "chan ", r);
    Assoc("chan", " ", r);
    LexArrow("chan" + (" " + r));
    LexChanBoth(r);
  }

  /** The rule of section "Channel types": chan in front of a type reads as ChanOf that type. */
  lemma {:induction false} LeftmostChan(ts: seq<Token>, v: Expr, k: seq<Token>)
    requires GoType(ts) == Some((v, k))
    ensures GoType([Keyword("chan")] + ts) == Some((ChanOf(v), k))
    decreases |ts|
  {
    var all := [Keyword("chan")] + ts;
    assert all[1..] == ts;
    if IsRecv(v) {
      LeftmostChan(ts[2..], v.elem, k);
      assert all[2..] == [Keyword("chan")] + ts[2..];
    }
  }

  /** Go's reading of the text of a type in front of what may follow it. */
  lemma {:induction false} ReadTypeOk(t: Expr, k: string)
    requires Printable(t) && GoShape(t) && GoStops(k)
    ensures GoType(Lex(AstString(t) + k)) == Some((GoMeaning(t), Lex(k)))
    decreases t, 0
  {
    LexStop(k);
    TextThenIs(t, k);
    match t
    case Ident(name) =>
      LexWord(name, k);
    case Star(x) =>
      ReadTypeOk(x, k);
      LexSymbol("*", AstString(x) + k);
      ReadHeadOk(Lex(AstString(x) + k), GoMeaning(x), Lex(k));
    case Array(_, x) =>
      ReadTypeOk(x, k);
      LexBrackets(AstString(x) + k);
      ReadHeadOk(Lex(AstString(x) + k), GoMeaning(x), Lex(k));
    case Selector(q, sel) =>
      ReadSelectorOk(q.name, sel, k);
    case MapType(key, value) =>
      var r2 := AstString(value) + k;
      ReadTypeOk(key, "]" + r2);
      ReadTypeOk(value, k);
      ReadMapOk(AstString(key) + ("]" + r2), r2, GoMeaning(key), GoMeaning(value), Lex(k));
    case FuncType(ps, rs) =>
      var r := OptionalText(" ", rs) + k;
      ReadListOk(ps.fields, r, true);
      if rs.List? {
        ReadListOk(rs.fields, k, false);
      }
      ReadFuncOk(ps.fields, rs, k);
    case ChanType(d, x) =>
      ReadTypeOk(x, k);
      ReadChanOk(d, AstString(x) + k, GoMeaning(x), Lex(k));
    case _ =>
  }

  lemma LexBrackets(r: string)
    ensures Lex("[]" + r) == [Symbol('['), Symbol(']')] + Lex(r)
  {
    assert "[]" + r == "[" + ("]" + r);
    LexSymbol("[", "]" + r);
    LexSymbol("]", r);
  }

  lemma ReadHeadOk(ts: seq<Token>, x: Expr, k: seq<Token>)
    requires GoType(ts) == Some((x, k))
    ensures GoType([Symbol('*')] + ts) == Some((Star(x), k))
    ensures GoType([Symbol('['), Symbol(']')] + ts) == Some((Array(NilNode, x), k))
  {
    assert ([Symbol('*')] + ts)[1..] == ts;
    assert ([Symbol('['), Symbol(']')] + ts)[2..] == ts;
  }

  lemma LexDot(r: string)
    requires r != "" && IsLetter(r[0])
    ensures Lex("." + r) == [Symbol('.')] + Lex(r)
  {
    Cut(".", r);
    NoDots("." + r);
  }

  lemma NoDots(s: string)
    requires |s| > 1 && s[0] == '.' && s[1] != '.'
    ensures !("..." <= s) && !("<-" <= s)
  {
    assert "..."[1] == '.' && "<-"[0] == '<';
  }

  lemma ReadSelectorOk(q: string, sel: string, k: string)
    requires IsIdent(q) && IsIdent(sel)
    requires k == "" || !IsIdentChar(k[0])
    ensures GoType(Lex(q + ("." + (sel + k)))) == Some((Selector(Ident(q), sel), Lex(k)))
  {
    LexWord(sel, k);
    LexDot(sel + k);
    LexWord(q, "." + (sel + k));
    GoSelectorOk(q, sel, Lex(k));
  }

  lemma GoSelectorOk(q: Identifier, sel: Identifier, k: seq<Token>)
    ensures GoType([Id(q)] + ([Symbol('.')] + ([Id(sel)] + k))) == Some((Selector(Ident(q), sel), k))
  {
    var ts := [Id(q)] + ([Symbol('.')] + ([Id(sel)] + k));
    assert ts[1] == Symbol('.') && ts[2] == Id(sel) && ts[3..] == k;
  }

  lemma ReadMapOk(r1: string, r2: string, key: Expr, value: Expr, k: seq<Token>)
    requires GoType(Lex(r1)) == Some((key, Lex("]" + r2)))
    requires GoType(Lex(r2)) == Some((value, k))
    ensures GoType(Lex("map" + ("[" + r1))) == Some((MapType(key, value), k))
  {
    LexTypeWord("map", "[" + r1);
    LexSymbol("[", r1);
    LexSymbol("]", r2);
    GoMapOk(Lex(r1), Lex(r2), key, value, k);
  }

  lemma GoMapOk(ts: seq<Token>, us: seq<Token>, key: Expr, value: Expr, k: seq<Token>)
    requires GoType(ts) == Some((key, [Symbol(']')] + us)) && GoType(us) == Some((value, k))
    ensures GoType([Keyword("map")] + ([Symbol('[')] + ts)) == Some((MapType(key, value), k))
  {
    var all, mid := [Keyword("map")] + ([Symbol('[')] + ts), [Symbol(']')] + us;
    assert all[0] == Keyword("map") && all[1] == Symbol('[') && all[2..] == ts;
    assert mid[0] == Symbol(']') && mid[1..] == us;
  }

  lemma ReadChanOk(d: Dir, r: string, x: Expr, k: seq<Token>)
    requires GoType(Lex(r)) == Some((x, k))
    ensures GoType(Lex(match d case Recv => "<-chan " + r
                               case Send => "chan" + ("<- " + r)
                               case Both => "chan" + (" " + r)))
         == Some((if d == Both then ChanOf(x) else ChanType(d, x), k))
  {
    match d {
      case Both =>
        LexChanBoth(r);
        LeftmostChan(Lex(r), x, k);
      case Send =>
        LexChanSend(r);
        GoChanOk(Lex(r), x, k);
      case Recv =>
        LexChanRecv(r);
        GoChanOk(Lex(r), x, k);
    }
  }

  lemma GoChanOk(ts: seq<Token>, x: Expr, k: seq<Token>)
    requires GoType(ts) == Some((x, k))
    ensures GoType([Keyword("chan")] + ([Arrow] + ts)) == Some((ChanType(Send, x), k))
    ensures GoType([Arrow] + ([Keyword("chan")] + ts)) == Some((ChanType(Recv, x), k))
  {
    TwoTokens(Keyword("chan"), Arrow, ts);
    TwoTokens(Arrow, Keyword("chan"), ts);
  }

  lemma TwoTokens(a: Token, b: Token, ts: seq<Token>)
    ensures var all := [a] + ([b] + ts); |all| >= 2 && all[0] == a && all[1..] == [b] + ts && all[1..][0] == b && all[2..] == ts
  {
  }

  function MeaningList(l: FieldList): FieldList {
    if l.List? then List(GoMeaningFields(l.fields)) else NilList
  }

  lemma ReadFuncOk(ps: seq<Field>, rs: FieldList, k: string)
    requires GoStops(k)
    requires GoParams(Lex(FieldListString(ps) + (OptionalText(" ", rs) + k)), true)
          == Some((GoMeaningFields(ps), Lex(OptionalText(" ", rs) + k)))
    requires rs.List? ==> GoParams(Lex(FieldListString(rs.fields) + k), false) == Some((GoMeaningFields(rs.fields), Lex(k)))
    ensures GoType(Lex("func" + (OptionalText("", List(ps)) + (OptionalText(" ", rs) + k))))
         == Some((FuncType(List(GoMeaningFields(ps)), MeaningList(rs)), Lex(k)))
  {
    var s := FieldListString(ps) + (OptionalText(" ", rs) + k);
    assert OptionalText("", List(ps)) == FieldListString(ps);
    LexTypeWord("func", s);
    ReadResultOk(rs, k);
    assert ([Keyword("func")] + Lex(s))[1..] == Lex(s);
  }

  lemma ReadResultOk(rs: FieldList, k: string)
    requires GoStops(k)
    requires rs.List? ==> GoParams(Lex(FieldListString(rs.fields) + k), false) == Some((GoMeaningFields(rs.fields), Lex(k)))
    ensures GoResult(Lex(OptionalText(" ", rs) + k)) == Some((MeaningList(rs), Lex(k)))
  {
    LexStop(k);
    if rs.List? {
      var list := FieldListString(rs.fields);
      Assoc(" ", list, k);
      LexSpace(list + k);
    } else {
      assert OptionalText(" ", rs) + k == k;
    }
  }

  lemma GoParamsOk(ts: seq<Token>, es: seq<Entry>, k: seq<Token>, incoming: bool)
    requires GoEntries(ts) == Some((es, [Symbol(')')] + k)) && Uniform(Group(es)) && DotsOk(Group(es), incoming)
    ensures GoParams([Symbol('(')] + ts, incoming) == Some((Group(es), k))
  {
    ConsTail(Symbol('('), ts);
    ConsTail(Symbol(')'), k);
  }

  lemma {:induction false} ReadListOk(fs: seq<Field>, k: string, incoming: bool)
    requires PrintableFields(fs) && Uniform(fs) && DotsOk(fs, incoming) && GoShapeFields(fs)
    ensures GoParams(Lex(FieldListString(fs) + k), incoming) == Some((GoMeaningFields(fs), Lex(k)))
    decreases fs, 2
  {
    ListTextThen(fs, k);
    LexSymbol("(", ListBody(fs, k));
    LexSymbol(")", k);
    if fs == [] {
      GoParamsNone(Lex(k), incoming);
    } else {
      ReadFieldsOk(fs, ")" + k);
      MeaningGroups(fs, incoming);
      GoParamsOk(Lex(ListBody(fs, k)), MeaningEntries(fs), Lex(k), incoming);
    }
  }

  lemma GoParamsNone(k: seq<Token>, incoming: bool)
    ensures GoParams([Symbol('(')] + ([Symbol(')')] + k), incoming) == Some(([], k))
  {
    assert ([Symbol('(')] + ([Symbol(')')] + k))[2..] == k;
  }

  lemma {:induction false} ReadFieldsOk(fs: seq<Field>, k: string)
    requires PrintableFields(fs) && GoShapeFields(fs) && fs != []
    requires GoStops(k) && !At(Lex(k), Symbol(','))
    ensures GoEntries(Lex(Join(Items(fs), ", ") + k)) == Some((MeaningEntries(fs), Lex(k)))
    decreases fs, 1
  {
    var f, rest := fs[0], fs[1..];
    JoinThen(fs, k);
    if rest == [] {
      ReadFieldOk(f, k, [], Lex(k));
      assert MeaningEntries(fs) == FlattenNames(f.names, GoMeaning(f.typ)) + [];
    } else {
      var r := Join(Items(rest), ", ") + k;
      ReadFieldsOk(rest, k);
      ReadMoreOk(r);
      ReadFieldOk(f, ", " + r, MeaningEntries(rest), Lex(k));
    }
  }

  lemma ReadMoreOk(r: string)
    requires GoEntries(Lex(r)).Some?
    ensures GoStops(", " + r) && Lex(", " + r) == [Symbol(',')] + Lex(r)
    ensures GoMore(Lex(", " + r)) == GoEntries(Lex(r))
  {
    assert ", " + r == "," + (" " + r);
    LexSymbol(",", " " + r);
    LexSpace(r);
  }

  lemma {:induction false} ReadFieldOk(f: Field, k: string, es: seq<Entry>, k': seq<Token>)
    requires PrintableField(f) && GoShapeParam(f.typ)
    requires GoStops(k) && GoMore(Lex(k)) == Some((es, k'))
    ensures GoEntries(Lex(Item(f) + k)) == Some((FlattenNames(f.names, GoMeaning(f.typ)) + es, k'))
    decreases f.typ, 2, |f.names|
  {
    var m := GoMeaning(f.typ);
    if |f.names| <= 1 {
      ReadParamTypeOk(f.typ, k);
      ReadLastNameOk(f, k, es, k');
    } else {
      var g := f.(names := f.names[1..]);
      ReadFieldOk(g, k, es, k');
      ReadFirstNameOk(f, k, FlattenNames(g.names, m) + es, k');
      FlattenFirst(f.names, m, es);
    }
  }

  lemma ReadLastNameOk(f: Field, k: string, es: seq<Entry>, k': seq<Token>)
    requires PrintableField(f) && |f.names| <= 1 && GoStops(k)
    requires GoParamType(Lex(AstString(f.typ) + k)) == Some((GoMeaning(f.typ), Lex(k)))
    requires GoMore(Lex(k)) == Some((es, k'))
    ensures GoEntries(Lex(Item(f) + k)) == Some((FlattenNames(f.names, GoMeaning(f.typ)) + es, k'))
  {
    var m, ts := GoMeaning(f.typ), Lex(Item(f) + k);
    LexStop(k);
    if f.names == [] {
      ReadBareOk(ts, m, Lex(k));
      ReadEntriesOk(ts, Bare(m), Lex(k), es, k');
    } else {
      assert f.names[0] in f.names;
      LastNameThen(f, k);
      ReadNamedOk(f.names[0], AstString(f.typ) + k, m, Lex(k));
      ReadEntriesOk(ts, Named(f.names[0], m), Lex(k), es, k');
    }
  }

  lemma ReadFirstNameOk(f: Field, k: string, es: seq<Entry>, k': seq<Token>)
    requires PrintableField(f) && |f.names| > 1
    requires GoEntries(Lex(Item(f.(names := f.names[1..])) + k)) == Some((es, k'))
    ensures GoEntries(Lex(Item(f) + k)) == Some(([Bare(Ident(f.names[0]))] + es, k'))
  {
    var n, r := f.names[0], Item(f.(names := f.names[1..])) + k;
    assert n in f.names;
    ReadMoreOk(r);
    LexStop(", " + r);
    LexWord(n, ", " + r);
    ItemTailThen(f, k);
    ReadBareOk(Lex(Item(f) + k), Ident(n), Lex(", " + r));
    ReadEntriesOk(Lex(Item(f) + k), Bare(Ident(n)), Lex(", " + r), es, k');
  }

  lemma {:induction false} ReadParamTypeOk(t: Expr, k: string)
    requires Printable(t) && GoShapeParam(t) && GoStops(k)
    ensures GoParamType(Lex(AstString(t) + k)) == Some((GoMeaning(t), Lex(k)))
    decreases t, 1
  {
    if t.Ellipsis? {
      ReadTypeOk(t.base, k);
      TextThenIs(t, k);
      LexDots(AstString(t.base) + k);
    } else {
      ReadTypeOk(t, k);
    }
  }

  /** A type is not taken for a name when no type follows it. */
  lemma ReadBareOk(ts: seq<Token>, t: Expr, k: seq<Token>)
    requires GoParamType(ts) == Some((t, k)) && !StartsParamType(k)
    ensures GoEntry(ts) == Some((Bare(t), k))
  {
  }

  lemma ReadNamedOk(n: string, r: string, t: Expr, k: seq<Token>)
    requires IsIdent(n) && GoParamType(Lex(r)) == Some((t, k))
    ensures GoEntry(Lex(n + (" " + r))) == Some((Named(n, t), k))
  {
    LexWord(n, " " + r);
    LexSpace(r);
    var ts := Lex(n + (" " + r));
    assert ts[1..] == Lex(r);
  }

  lemma ReadEntriesOk(ts: seq<Token>, e: Entry, k: seq<Token>, es: seq<Entry>, k': seq<Token>)
    requires GoEntry(ts) == Some((e, k))
    requires GoMore(k) == Some((es, k'))
    ensures GoEntries(ts) == Some(([e] + es, k'))
  {
  }

  lemma {:induction false} NoNewline(s: string)
    requires OneLine(s)
    ensures NEWLINE !in Lex(s)
    decreases |s|
  {
    if s == "" {
    } else if s[0] in {' ', '\t', '\r'} {
      NoNewline(s[1..]);
    } else if IsLetter(s[0]) {
      NoNewline(s[Word(s)..]);
    } else if "..." <= s {
      NoNewline(s[3..]);
    } else if "<-" <= s {
      NoNewline(s[2..]);
    } else if TakeLiteral(s).Some? {
      var (text, k) := TakeLiteral(s).value;
      assert k == s[|text|..];
      NoNewline(k);
    } else {
      NoNewline(s[1..]);
    }
  }

  lemma {:induction false} NoSemicolons(ts: seq<Token>, counts: bool)
    requires NEWLINE !in ts
    ensures Semicolons(ts, counts) == ts
  {
    if ts != [] {
      NoSemicolons(ts[1..], EndsLine(ts[0]));
      assert ts == [ts[0]] + ts[1..];
    }
  }

  /** A type's text is one line, and has no semicolons. */
  lemma OneLineTokens(s: string)
    requires OneLine(s)
    ensures Tokens(s) == Lex(s)
  {
    NoNewline(s);
    NoSemicolons(Lex(s), false);
  }

  /** What Go reads in the text of any tree of the grammar's shape. */
  lemma {:induction false} GoReadsMeaning(t: Expr)
    requires Printable(t) && GoShape(t)
    ensures GoRead(AstString(t)) == Some(GoMeaning(t))
  {
    ReadTypeOk(t, "");
    assert AstString(t) + "" == AstString(t);
    TypeIsOneLine(t);
    OneLineTokens(AstString(t));
  }

  /**
   The printer is faithful to Go exactly on the trees that Go's grammar has: for every printable
   tree, with no assumption on its parameter lists, ellipses or channels, Go reads the text back
   as the tree if and only if the tree has the grammar's shape and its channels are clear.
   */
  lemma {:induction false} FaithfulExactly(t: Expr)
    requires Printable(t)
    ensures GoRead(AstString(t)) == Some(Erase(t)) <==> GoShape(t) && ChanClear(t)
  {
    EraseKeepsShape(t);
    EraseKeepsChannels(t);
    GoMeaningIsErase(t);
    if GoShape(t) {
      GoReadsMeaning(t);
    }
  }

  /** With the shape given, a channel is the only thing that can go wrong. */
  lemma {:induction false} ChannelsExactly(t: Expr)
    requires Printable(t) && GoShape(t)
    ensures GoRead(AstString(t)) != Some(Erase(t)) <==> !ChanClear(t)
  {
    FaithfulExactly(t);
  }

  lemma {:induction false} EraseKeepsPrintable(t: Expr)
    ensures Printable(Erase(t)) <==> Printable(t)
    decreases t, 0
  {
    match t
    case Star(x) => EraseKeepsPrintable(x);
    case Array(_, elt) => EraseKeepsPrintable(elt);
    case MapType(k, v) => EraseKeepsPrintable(k); EraseKeepsPrintable(v);
    case FuncType(ps, rs) =>
      if ps.List? { EraseKeepsPrintableFields(ps.fields); }
      if rs.List? { EraseKeepsPrintableFields(rs.fields); }
    case ChanType(_, v) => EraseKeepsPrintable(v);
    case Ellipsis(e) => EraseKeepsPrintable(e);
    case _ =>
  }

  lemma {:induction false} EraseKeepsPrintableFields(fs: seq<Field>)
    ensures PrintableFields(EraseFields(fs)) <==> PrintableFields(fs)
    decreases fs, 1
  {
    if fs != [] {
      EraseKeepsPrintable(fs[0].typ);
      EraseKeepsPrintableFields(fs[1..]);
      var es := EraseFields(fs);
      assert es[0] == EraseField(fs[0]) && es[1..] == EraseFields(fs[1..]);
    }
  }

  /**
   Every type that Go can read survives the printer up to array lengths: whatever text Go reads as a
   type, on however many lines, and whatever array lengths stood in it, printing its tree gives a text
   that Go reads as the same type without the lengths.
   */
  lemma {:induction false} SourceTypesSurvive(s: string, t: Expr)
    requires GoRead(s).Some? && Erase(t) == GoRead(s).value
    ensures Printable(t) && GoRead(AstString(t)) == GoRead(s)
  {
    SpelledIs(Erase(t));
    EraseKeepsPrintable(t);
    EraseKeepsShape(t);
    EraseKeepsChannels(t);
    FaithfulExactly(t);
  }

  /** The one way to lose a channel: two trees with different texts, and one reading. */
  lemma {:induction false} ChannelsCollide(x: Expr)
    requires Printable(x) && GoShape(x)
    ensures var a, b := ChanType(Both, ChanType(Recv, x)), ChanType(Send, ChanType(Both, x));
            GoRead(AstString(a)) == GoRead(AstString(b)) && Erase(a) != Erase(b) && AstString(a) != AstString(b)
  {
    var a, b := ChanType(Both, ChanType(Recv, x)), ChanType(Send, ChanType(Both, x));
    GoReadsMeaning(a);
    GoReadsMeaning(b);
    ChannelTextsDiffer(x);
  }

  lemma ChannelTextsDiffer(x: Expr)
    ensures AstString(ChanType(Both, ChanType(Recv, x))) != AstString(ChanType(Send, ChanType(Both, x)))
  {
    assert AstString(ChanType(Both, ChanType(Recv, x)))[4] == ' ' && AstString(ChanType(Send, ChanType(Both, x)))[4] == '<';
  }

  /** Why go/ast demands a parameter list: without one, the results read as the parameters. */
  lemma {:induction false} MissingParamsMisread(rs: seq<Field>)
    requires PrintableFields(rs) && Uniform(rs) && DotsOk(rs, true) && GoShapeFields(rs)
    ensures GoRead(AstString(FuncType(NilList, List(rs)))) == Some(FuncType(List(GoMeaningFields(rs)), NilList))
  {
    var list := FieldListString(rs);
    ReadListOk(rs, "", true);
    assert list + "" == list;
    SpacedFunc(list);
    LexSpace(list);
    LexTypeWord("func", " " + list);
    FuncTokens(Lex(list), GoMeaningFields(rs));
    MissingParamsText(rs);
    TypeIsOneLine(FuncType(NilList, List(rs)));
    OneLineTokens(AstString(FuncType(NilList, List(rs))));
  }

  lemma MissingParamsText(rs: seq<Field>)
    ensures AstString(FuncType(NilList, List(rs))) == "func" + "" + (" " + FieldListString(rs))
  {
  }

  lemma FuncTokens(ts: seq<Token>, ps: seq<Field>)
    requires GoParams(ts, true) == Some((ps, []))
    ensures GoType([Keyword("func")] + ts) == Some((FuncType(List(ps), NilList), []))
  {
    assert ([Keyword("func")] + ts)[1..] == ts;
    assert GoResult([]) == Some((NilList, []));
  }

  lemma SpacedFunc(list: string)
    ensures "func" + "" + (" " + list) == "func" + (" " + list)
  {
  }
}
