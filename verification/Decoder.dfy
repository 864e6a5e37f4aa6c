/**
 An inverse of the printer on characters: a recursive-descent reader that takes a type off the
 front of a text and returns it with what is left, spaces counting.
 */
module Decoder {
  import opened Options
  import opened GoAst
  import opened Printer
  import opened Entries

  /** The length of the longest run of identifier characters at the front of s. */
  function Word(s: string): (n: nat)
    ensures n <= |s| && AllIdentChars(s[..n])
  {
    if s == "" || !IsIdentChar(s[0]) then 0 else 1 + Word(s[1..])
  }

  function DecodeType(s: string): (r: Option<(Expr, string)>)
    ensures r.Some? ==> |r.value.1| < |s|
    decreases |s|, 1
  {
    if s == "" then None
    else if s[0] == '*' then
      var (x, k) :- DecodeType(s[1..]);
      Some((Star(x), k))
    else if s[0] == '[' then
      if !("[]" <= s) then None else
      var (x, k) :- DecodeType(s[2..]);
      Some((Array(NilNode, x), k))
    else if s[0] == '.' then
      if !("..." <= s) then None else
      var (x, k) :- DecodeType(s[3..]);
      Some((Ellipsis(x), k))
    else if s[0] == '<' then
      if !("<-chan " <= s) then None else
      var (x, k) :- DecodeType(s[7..]);
      Some((ChanType(Recv, x), k))
    else
      DecodeWord(s[..Word(s)], s[Word(s)..])
  }

  /** A type that starts with the word w, and goes on in s. */
  function DecodeWord(w: string, s: string): (r: Option<(Expr, string)>)
    ensures r.Some? ==> |r.value.1| < |w| + |s|
    decreases |w| + |s|, 0
  {
    if w == "map" then DecodeMap(s)
    else if w == "func" then DecodeFunc(s)
    else if w == "chan" then DecodeChan(s)
    else if !IsIdent(w) then None
    else if "." <= s then
      var n := Word(s[1..]);
      if IsIdent(s[1..][..n]) then Some((Selector(Ident(w), s[1..][..n]), s[1..][n..])) else None
    else Some((Ident(w), s))
  }

  function DecodeMap(s: string): (r: Option<(Expr, string)>)
    ensures r.Some? ==> |r.value.1| < |s|
    decreases |s|, 5
  {
    if !("[" <= s) then None else
    var (key, k) :- DecodeType(s[1..]);
    if !("]" <= k) then None else
    var (value, k') :- DecodeType(k[1..]);
    Some((MapType(key, value), k'))
  }

  function DecodeFunc(s: string): (r: Option<(Expr, string)>)
    ensures r.Some? ==> |r.value.1| <= |s|
    decreases |s|, 5
  {
    var (params, k) :- DecodeOptional("", s);
    var (results, k') :- DecodeOptional(" ", k);
    Some((FuncType(params, results), k'))
  }

  function DecodeChan(s: string): (r: Option<(Expr, string)>)
    ensures r.Some? ==> |r.value.1| < |s|
    decreases |s|, 5
  {
    if "<- " <= s then
      var (x, k) :- DecodeType(s[3..]);
      Some((ChanType(Send, x), k))
    else if " " <= s then
      var (x, k) :- DecodeType(s[1..]);
      Some((ChanType(Both, x), k))
    else None
  }

  /** A parameter list behind the given lead, or no list when the lead and "(" are not there. */
  function DecodeOptional(lead: string, s: string): (r: Option<(FieldList, string)>)
    ensures r.Some? ==> |r.value.1| <= |s|
    decreases |s|, 4
  {
    if !(lead + "(" <= s) then Some((NilList, s)) else
    var (fs, k) :- DecodeList(s[|lead| + 1..]);
    Some((List(fs), k))
  }

  /** What is left of a parameter list behind its "(". */
  function DecodeList(s: string): (r: Option<(seq<Field>, string)>)
    ensures r.Some? ==> |r.value.1| < |s|
    decreases |s|, 4
  {
    if s != "" && s[0] == ')' then Some(([], s[1..])) else
    var (es, k) :- DecodeEntries(s);
    if k != "" && k[0] == ')' then Some((Group(es), k[1..])) else None
  }

  function DecodeEntries(s: string): (r: Option<(seq<Entry>, string)>)
    ensures r.Some? ==> |r.value.1| < |s|
    decreases |s|, 3
  {
    var (e, k) :- DecodeEntry(s);
    var (es, k') :- DecodeMore(k);
    Some(([e] + es, k'))
  }

  function DecodeMore(s: string): (r: Option<(seq<Entry>, string)>)
    ensures r.Some? ==> |r.value.1| <= |s|
    decreases |s|, 4
  {
    if ", " <= s then DecodeEntries(s[2..]) else Some(([], s))
  }

  predicate AtTag(s: string) {
    " `" <= s || " \"" <= s
  }

  function DecodeEntry(s: string): (r: Option<(Entry, string)>)
    ensures r.Some? ==> |r.value.1| < |s|
    decreases |s|, 2
  {
    var n := Word(s);
    if IsIdent(s[..n]) && " " <= s[n..] && !AtTag(s[n..]) then
      var (t, k) :- DecodeType(s[n + 1..]);
      Some((Named(s[..n], t), k))
    else
      var (t, k) :- DecodeType(s);
      Some((Bare(t), k))
  }

  /** What may follow a printed type: the end, a separator, a closer, a line end or a tag. */
  predicate Stops(k: string) {
    k == "" || k[0] in {',', ')', ']', '\n'} || AtTag(k)
  }

  lemma {:induction false} WordOf(name: string, k: string)
    requires AllIdentChars(name)
    requires k == "" || !IsIdentChar(k[0])
    ensures Word(name + k) == |name|
    ensures (name + k)[..|name|] == name && (name + k)[|name|..] == k
  {
    if name == "" {
      assert name + k == k;
    } else {
      var c, tail := [name[0]], name[1..];
      WordOf(tail, k);
      assert name == c + tail;
      Assoc(c, tail, k);
      Cut(c, tail + k);
    }
    Cut(name, k);
  }

  /** A head comes off a text, and the rest is left. */
  lemma Cut(head: string, rest: string)
    ensures head <= head + rest
    ensures (head + rest)[..|head|] == head
    ensures (head + rest)[|head|..] == rest
  {
  }

  lemma StopsNot(k: string)
    requires Stops(k)
    ensures k == "" || !IsIdentChar(k[0])
    ensures !("." <= k) && !("(" <= k) && !(" (" <= k)
    ensures " " <= k ==> AtTag(k)
  {
    if k != "" && k[0] == ' ' {
      assert k[1] == '`' || k[1] == '"';
    }
  }

  /** No type starts with a character that no case of the printer can write first. */
  lemma NoType(s: string)
    requires s != "" && !IsIdentChar(s[0]) && s[0] !in {'*', '[', '.', '<'}
    ensures DecodeType(s) == None && DecodeEntries(s) == None
  {
    assert Word(s) == 0;
  }

  /** The reader on a text that starts with a word. */
  lemma OnWord(w: string, k: string)
    requires w != "" && AllIdentChars(w)
    requires k == "" || !IsIdentChar(k[0])
    ensures DecodeType(w + k) == DecodeWord(w, k)
    ensures Word(w + k) == |w| && (w + k)[..|w|] == w && (w + k)[|w|..] == k
  {
    WordOf(w, k);
    var s := w + k;
    assert s[0] == w[0] && IsIdentChar(s[0]);
  }

  /**
   Prefix decoding: in front of whatever may follow it, the text of a tree reads back as the
   canonical form of the tree, and what follows is left untouched.
   */
  lemma {:induction false} DecodeTypeOk(t: Expr, k: string)
    requires Printable(t) && Stops(k)
    ensures DecodeType(AstString(t) + k) == Some((Canon(t), k))
    decreases t, 0
  {
    StopsNot(k);
    TextThenIs(t, k);
    match t
    case Ident(name) =>
      TypeWordsAreKeywords();
      OnWord(name, k);
    case Star(x) =>
      DecodeTypeOk(x, k);
      DecodeHeadOk(AstString(x) + k, Canon(x), k);
    case Array(_, x) =>
      DecodeTypeOk(x, k);
      DecodeHeadOk(AstString(x) + k, Canon(x), k);
    case Ellipsis(x) =>
      DecodeTypeOk(x, k);
      DecodeHeadOk(AstString(x) + k, Canon(x), k);
    case Selector(q, sel) =>
      DecodeSelectorOk(q.name, sel, k);
    case MapType(key, value) =>
      var r2 := AstString(value) + k;
      DecodeTypeOk(key, "]" + r2);
      DecodeTypeOk(value, k);
      DecodeMapOk(AstString(key) + ("]" + r2), r2, Canon(key), Canon(value), k);
    case FuncType(ps, rs) =>
      var r := OptionalText(" ", rs) + k;
      DecodeOptionalOk(" ", rs, k);
      OptionalNotParen(rs, k);
      DecodeOptionalOk("", ps, r);
      FuncRest(ps, rs, k);
      DecodeFuncWordOk(OptionalText("", ps) + r, ps, r, rs, k);
    case ChanType(d, x) =>
      DecodeTypeOk(x, k);
      DecodeChanOk(d, AstString(x) + k, Canon(x), k);
  }

  lemma DecodeFuncWordOk(s: string, ps: FieldList, r: string, rs: FieldList, k: string)
    requires DecodeOptional("", s) == Some((CanonList(ps), r))
    requires DecodeOptional(" ", r) == Some((CanonList(rs), k))
    requires s == "" || !IsIdentChar(s[0])
    ensures DecodeType("func" + s) == Some((Canon(FuncType(ps, rs)), k))
  {
    assert DecodeFunc(s) == Some((FuncType(CanonList(ps), CanonList(rs)), k));
    WordsDiffer();
    OnWord("func", s);
  }

  lemma WordsDiffer()
    ensures "func" != "map" && "chan" != "map" && "chan" != "func"
  {
    assert "func"[0] == 'f' && "map"[0] == 'm' && "chan"[0] == 'c';
  }

  lemma DecodeHeadOk(r: string, x: Expr, k: string)
    requires DecodeType(r) == Some((x, k))
    ensures DecodeType("*" + r) == Some((Star(x), k))
    ensures DecodeType("[]" + r) == Some((Array(NilNode, x), k))
    ensures DecodeType("..." + r) == Some((Ellipsis(x), k))
  {
    Cut("*", r);
    Cut("[]", r);
    Cut("...", r);
  }

  lemma DecodeSelectorOk(q: string, sel: string, k: string)
    requires IsIdent(q) && IsIdent(sel)
    requires k == "" || !IsIdentChar(k[0])
    ensures DecodeType(q + ("." + (sel + k))) == Some((Selector(Ident(q), sel), k))
  {
    TypeWordsAreKeywords();
    OnWord(q, "." + (sel + k));
    WordOf(sel, k);
    Cut(".", sel + k);
  }

  lemma DecodeMapOk(r1: string, r2: string, key: Expr, value: Expr, k: string)
    requires DecodeType(r1) == Some((key, "]" + r2))
    requires DecodeType(r2) == Some((value, k))
    ensures DecodeType("map" + ("[" + r1)) == Some((MapType(key, value), k))
  {
    OnWord("map", "[" + r1);
    Cut("[", r1);
    Cut("]", r2);
  }

  lemma DecodeChanOk(d: Dir, r: string, x: Expr, k: string)
    requires DecodeType(r) == Some((x, k))
    ensures DecodeType(match d case Recv => "<-chan " + r
                               case Send => "chan" + ("<- " + r)
                               case Both => "chan" + (" " + r)) == Some((ChanType(d, x), k))
  {
    match d {
      case Recv =>
        Cut("<-chan ", r);
      case Send =>
        DecodeChanWordOk("<- ", r);
      case Both =>
        DecodeChanWordOk(" ", r);
    }
  }

  lemma DecodeChanWordOk(tail: string, r: string)
    requires tail == "<- " || tail == " "
    ensures DecodeType("chan" + (tail + r)) == DecodeWord("chan", tail + r)
    ensures tail <= tail + r && (tail + r)[|tail|..] == r
    ensures tail == " " ==> !("<- " <= tail + r)
  {
    OnWord("chan", tail + r);
    Cut(tail, r);
    assert (tail + r)[0] == tail[0];
  }

  function CanonList(l: FieldList): FieldList {
    if l.List? then List(CanonFields(l.fields)) else NilList
  }

  /** Behind the word func stands no identifier character. */
  lemma FuncRest(ps: FieldList, rs: FieldList, k: string)
    requires Stops(k)
    ensures var s := OptionalText("", ps) + (OptionalText(" ", rs) + k); s == "" || !IsIdentChar(s[0])
  {
    OptionalNotParen(rs, k);
    if ps.List? {
      assert OptionalText("", ps) == FieldListString(ps.fields);
      ListTextThen(ps.fields, OptionalText(" ", rs) + k);
    } else {
      assert OptionalText("", ps) + (OptionalText(" ", rs) + k) == OptionalText(" ", rs) + k;
    }
  }

  lemma OptionalNotParen(l: FieldList, k: string)
    requires Stops(k)
    ensures var s := OptionalText(" ", l) + k; !("(" <= s) && (s == "" || !IsIdentChar(s[0]))
  {
    StopsNot(k);
    var s := OptionalText(" ", l) + k;
    if l.List? {
      assert s[0] == ' ';
    } else {
      assert s == k;
    }
  }

  lemma {:induction false} DecodeOptionalOk(lead: string, l: FieldList, k: string)
    requires l.List? ==> PrintableFields(l.fields)
    requires l.NilList? ==> !(lead + "(" <= k)
    ensures DecodeOptional(lead, OptionalText(lead, l) + k) == Some((CanonList(l), k))
    decreases l, 2
  {
    if l.List? {
      var body := ListBody(l.fields, k);
      ListTextThen(l.fields, k);
      assert OptionalText(lead, l) + k == (lead + "(") + body;
      Cut(lead + "(", body);
      DecodeListOk(l.fields, k);
    } else {
      assert OptionalText(lead, l) + k == k;
    }
  }

  lemma {:induction false} DecodeListOk(fs: seq<Field>, k: string)
    requires PrintableFields(fs)
    ensures DecodeList(ListBody(fs, k)) == Some((CanonFields(fs), k))
    decreases fs, 2
  {
    Cut(")", k);
    if fs != [] {
      var body := ListBody(fs, k);
      DecodeFieldsOk(fs, ")" + k);
      if body[0] == ')' {
        NoType(body);
      }
    }
  }

  lemma {:induction false} DecodeFieldsOk(fs: seq<Field>, k: string)
    requires PrintableFields(fs) && fs != []
    requires Stops(k) && !(", " <= k)
    ensures DecodeEntries(Join(Items(fs), ", ") + k) == Some((CanonEntries(fs), k))
    decreases fs, 1
  {
    var f, rest := fs[0], fs[1..];
    JoinThen(fs, k);
    if rest == [] {
      DecodeFieldOk(f, k, [], k);
      assert CanonEntries(fs) == FlattenNames(f.names, Canon(f.typ)) + [];
    } else {
      var r := Join(Items(rest), ", ") + k;
      DecodeFieldsOk(rest, k);
      DecodeMoreOk(r);
      DecodeFieldOk(f, ", " + r, CanonEntries(rest), k);
    }
  }

  lemma JoinThen(fs: seq<Field>, k: string)
    requires fs != []
    ensures Join(Items(fs), ", ") + k ==
            if |fs| == 1 then Item(fs[0]) + k else Item(fs[0]) + (", " + (Join(Items(fs[1..]), ", ") + k))
  {
    JoinCons(Items(fs), ", ", k);
    assert Items(fs)[1..] == Items(fs[1..]);
  }

  lemma JoinCons(parts: seq<string>, sep: string, k: string)
    requires parts != []
    ensures Join(parts, sep) + k ==
            if |parts| == 1 then parts[0] + k else parts[0] + (sep + (Join(parts[1..], sep) + k))
  {
  }

  lemma DecodeMoreOk(r: string)
    ensures ", " <= ", " + r
    ensures DecodeMore(", " + r) == DecodeEntries(r)
  {
    Cut(", ", r);
  }

  /** A field reads back as its entries, in front of the entries that follow. */
  lemma {:induction false} DecodeFieldOk(f: Field, k: string, es: seq<Entry>, k': string)
    requires PrintableField(f)
    requires Stops(k) && DecodeMore(k) == Some((es, k'))
    ensures DecodeEntries(Item(f) + k) == Some((FlattenNames(f.names, Canon(f.typ)) + es, k'))
    decreases f.typ, 1, |f.names|
  {
    var c := Canon(f.typ);
    FlattenFirst(f.names, c, es);
    if |f.names| <= 1 {
      DecodeTypeOk(f.typ, k);
      DecodeLastNameOk(f, k);
      DecodeEntriesOk(Item(f) + k, FlattenNames(f.names, c)[0], k, es, k');
    } else {
      var g := f.(names := f.names[1..]);
      DecodeFieldOk(g, k, es, k');
      DecodeFirstNameOk(f, k, FlattenNames(g.names, c) + es, k');
    }
  }

  lemma DecodeLastNameOk(f: Field, k: string)
    requires PrintableField(f) && |f.names| <= 1
    requires Stops(k) && DecodeType(AstString(f.typ) + k) == Some((Canon(f.typ), k))
    ensures DecodeEntry(Item(f) + k) == Some((FlattenNames(f.names, Canon(f.typ))[0], k))
  {
    if f.names == [] {
      NotNamed(f.typ, k);
    } else {
      assert f.names[0] in f.names;
      DecodeNamedOk(f.names[0], AstString(f.typ) + k, Canon(f.typ), k);
      LastNameThen(f, k);
    }
  }

  lemma LastNameThen(f: Field, k: string)
    requires |f.names| == 1
    ensures Item(f) + k == f.names[0] + (" " + (AstString(f.typ) + k))
  {
    assert Join(f.names, ", ") == f.names[0];
    Assoc(f.names[0] + " ", AstString(f.typ), k);
    Assoc(f.names[0], " ", AstString(f.typ) + k);
  }

  lemma DecodeFirstNameOk(f: Field, k: string, es: seq<Entry>, k': string)
    requires PrintableField(f) && |f.names| > 1
    requires DecodeEntries(Item(f.(names := f.names[1..])) + k) == Some((es, k'))
    ensures DecodeEntries(Item(f) + k) == Some(([Bare(Ident(f.names[0]))] + es, k'))
  {
    var n, r := f.names[0], Item(f.(names := f.names[1..])) + k;
    assert n in f.names;
    DecodeMoreOk(r);
    DecodeBareNameOk(n, ", " + r);
    ItemTailThen(f, k);
    DecodeEntriesOk(Item(f) + k, Bare(Ident(n)), ", " + r, es, k');
  }

  lemma ItemTailThen(f: Field, k: string)
    requires |f.names| > 1
    ensures Item(f) + k == f.names[0] + (", " + (Item(f.(names := f.names[1..])) + k))
  {
    ItemTail(f);
  }

  lemma DecodeEntriesOk(s: string, e: Entry, k: string, es: seq<Entry>, k': string)
    requires DecodeEntry(s) == Some((e, k))
    requires DecodeMore(k) == Some((es, k'))
    ensures DecodeEntries(s) == Some(([e] + es, k'))
  {
  }

  lemma DecodeBareNameOk(n: string, k: string)
    requires IsIdent(n) && ", " <= k
    ensures DecodeEntry(n + k) == Some((Bare(Ident(n)), k))
  {
    TypeWordsAreKeywords();
    assert k[0] == ',';
    OnWord(n, k);
  }

  lemma DecodeNamedOk(n: string, r: string, t: Expr, k: string)
    requires IsIdent(n) && DecodeType(r) == Some((t, k))
    ensures DecodeEntry(n + (" " + r)) == Some((Named(n, t), k))
  {
    OnWord(n, " " + r);
    Cut(" ", r);
    Assoc(n, " ", r);
    Cut(n + " ", r);
    assert |n + " "| == |n| + 1;
    TypeIsNoTag(r);
  }

  lemma TypeIsNoTag(r: string)
    requires DecodeType(r).Some?
    ensures !AtTag(" " + r)
  {
    if AtTag(" " + r) {
      assert (" " + r)[1] == r[0];
      NoType(r);
    }
  }

  /** The text of a type does not look like a name in front of a type. */
  lemma NotNamed(t: Expr, k: string)
    requires Printable(t) && Stops(k)
    ensures var s := AstString(t) + k; var n := Word(s);
            !(IsIdent(s[..n]) && " " <= s[n..] && !AtTag(s[n..]))
  {
    var s := AstString(t) + k;
    StopsNot(k);
    TextThenIs(t, k);
    match t
    case Ident(name) => OnWord(name, k);
    case Selector(q, sel) => OnWord(q.name, "." + (sel + k));
    case MapType(key, value) =>
      NotNamedWord("map", "[" + (AstString(key) + ("]" + (AstString(value) + k))));
    case FuncType(ps, rs) =>
      FuncRest(ps, rs, k);
      NotNamedWord("func", OptionalText("", ps) + (OptionalText(" ", rs) + k));
    case ChanType(Send, x) => NotNamedWord("chan", "<- " + (AstString(x) + k));
    case ChanType(Both, x) => NotNamedWord("chan", " " + (AstString(x) + k));
    case Star(_) => NoWord(s);
    case Array(_, _) => NoWord(s);
    case Ellipsis(_) => NoWord(s);
    case ChanType(Recv, _) => NoWord(s);
    case _ =>
  }

  lemma NoWord(s: string)
    requires s != "" && s[0] in {'*', '[', '.', '<'}
    ensures !IsIdent(s[..Word(s)])
  {
  }

  lemma NotNamedWord(w: string, k: string)
    requires w == "map" || w == "func" || w == "chan"
    requires k == "" || !IsIdentChar(k[0])
    ensures !IsIdent((w + k)[..Word(w + k)])
  {
    OnWord(w, k);
    TypeWordsAreKeywords();
  }

  /** The whole-text reader. */
  function Decode(s: string): (r: Option<Expr>) {
    var (t, k) :- DecodeType(s);
    if k == "" then Some(t) else None
  }

  lemma {:induction false} DecodeText(t: Expr)
    requires Printable(t)
    ensures Decode(AstString(t)) == Some(Canon(t))
  {
    DecodeTypeOk(t, "");
    assert AstString(t) + "" == AstString(t);
  }

  lemma Head(head: string, s: string)
    requires head <= s
    ensures s == head + s[|head|..]
  {
  }

  predicate PrintableEntry(e: Entry) {
    (e.Named? ==> IsIdent(e.name)) && Printable(e.typ)
  }

  lemma {:induction false} GroupIsPrintable(es: seq<Entry>)
    requires forall e :: e in es ==> PrintableEntry(e)
    ensures PrintableFields(Group(es))
  {
    if es != [] {
      GroupIsPrintable(es[1..]);
      assert es[0] in es;
      AttachIsPrintable(es[0], Group(es[1..]));
    }
  }

  lemma AttachIsPrintable(e: Entry, fs: seq<Field>)
    requires PrintableEntry(e) && PrintableFields(fs)
    ensures PrintableFields(Attach(e, fs))
  {
    var r := Attach(e, fs);
    if e.Bare? && e.typ.Ident? && fs != [] && fs[0].names != [] {
      assert r[1..] == fs[1..];
      assert PrintableField(fs[0]) && IsIdent(e.typ.name);
    } else {
      assert r[1..] == fs;
    }
  }

  /** Whatever the reader takes off a text is the text of the tree it returns, and the tree is printable. */
  lemma {:induction false} DecodedType(s: string)
    requires DecodeType(s).Some?
    ensures var (t, k) := DecodeType(s).value; Printable(t) && s == AstString(t) + k
    decreases |s|, 1
  {
    if s[0] in {'*', '[', '.', '<'} {
      DecodedMark(s);
    } else {
      DecodedWord(s[..Word(s)], s[Word(s)..]);
      SplitAt(s, Word(s));
    }
  }

  lemma SplitAt(s: string, n: nat)
    requires n <= |s|
    ensures s == s[..n] + s[n..]
  {
  }

  lemma {:induction false} DecodedMark(s: string)
    requires DecodeType(s).Some? && s[0] in {'*', '[', '.', '<'}
    ensures var (t, k) := DecodeType(s).value; Printable(t) && s == AstString(t) + k
    decreases |s|, 0
  {
    var (t, k) := DecodeType(s).value;
    TextThenIs(t, k);
    if s[0] == '*' {
      DecodedType(s[1..]);
      Head("*", s);
    } else if s[0] == '[' {
      DecodedType(s[2..]);
      Head("[]", s);
    } else if s[0] == '.' {
      DecodedType(s[3..]);
      Head("...", s);
    } else {
      DecodedType(s[7..]);
      Head("<-chan ", s);
    }
  }

  lemma {:induction false} DecodedWord(w: string, s: string)
    requires DecodeWord(w, s).Some?
    ensures var (t, k) := DecodeWord(w, s).value; Printable(t) && w + s == AstString(t) + k
    decreases |w| + |s|, 0
  {
    var (t, k) := DecodeWord(w, s).value;
    TextThenIs(t, k);
    if w == "map" {
      DecodedMap(s);
    } else if w == "func" {
      DecodedFunc(s);
    } else if w == "chan" {
      DecodedChan(s);
    } else if "." <= s {
      Head(".", s);
      var r := s[1..];
      assert r == r[..Word(r)] + r[Word(r)..];
    }
  }

  lemma {:induction false} DecodedMap(s: string)
    requires DecodeMap(s).Some?
    ensures var (t, k) := DecodeMap(s).value;
            Printable(t) && t.MapType? && s == "[" + (AstString(t.key) + ("]" + (AstString(t.value) + k)))
    decreases |s|, 6
  {
    DecodedType(s[1..]);
    Head("[", s);
    var k := DecodeType(s[1..]).value.1;
    DecodedType(k[1..]);
    Head("]", k);
  }

  lemma {:induction false} DecodedFunc(s: string)
    requires DecodeFunc(s).Some?
    ensures var (t, k) := DecodeFunc(s).value;
            Printable(t) && t.FuncType? && s == OptionalText("", t.params) + (OptionalText(" ", t.results) + k)
    decreases |s|, 6
  {
    DecodedOptional("", s);
    DecodedOptional(" ", DecodeOptional("", s).value.1);
  }

  lemma {:induction false} DecodedChan(s: string)
    requires DecodeChan(s).Some?
    ensures var (t, k) := DecodeChan(s).value;
            Printable(t) && t.ChanType? && s == (if t.dir == Send then "<- " else " ") + (AstString(t.elem) + k) && t.dir != Recv
    decreases |s|, 6
  {
    if "<- " <= s {
      DecodedType(s[3..]);
      Head("<- ", s);
    } else {
      DecodedType(s[1..]);
      Head(" ", s);
    }
  }

  lemma {:induction false} DecodedOptional(lead: string, s: string)
    requires DecodeOptional(lead, s).Some?
    ensures var (l, k) := DecodeOptional(lead, s).value;
            (l.List? ==> PrintableFields(l.fields)) && s == OptionalText(lead, l) + k
    decreases |s|, 5
  {
    var (l, k) := DecodeOptional(lead, s).value;
    if l.List? {
      Head(lead + "(", s);
      DecodedList(s[|lead| + 1..]);
      ListTextThen(l.fields, k);
      Assoc(lead, "(", ListBody(l.fields, k));
      Assoc(lead, FieldListString(l.fields), k);
    }
  }

  lemma {:induction false} DecodedList(s: string)
    requires DecodeList(s).Some?
    ensures var (fs, k) := DecodeList(s).value; PrintableFields(fs) && s == ListBody(fs, k)
    decreases |s|, 4
  {
    if s != "" && s[0] == ')' {
      Head(")", s);
    } else {
      DecodedEntries(s);
      var (es, k) := DecodeEntries(s).value;
      Head(")", k);
      FlattenGroup(es);
      ListText(Group(es));
      GroupIsPrintable(es);
    }
  }

  lemma {:induction false} DecodedEntries(s: string)
    requires DecodeEntries(s).Some?
    ensures var (es, k) := DecodeEntries(s).value;
            es != [] && (forall e :: e in es ==> PrintableEntry(e)) && s == EntriesText(es) + k
    decreases |s|, 3
  {
    DecodedEntry(s);
    var (e, k) := DecodeEntry(s).value;
    DecodedMore(k);
    var (es, k') := DecodeMore(k).value;
    assert ([e] + es)[1..] == es;
    Assoc(EntryText(e), MoreText(es), k');
  }

  lemma {:induction false} DecodedMore(s: string)
    requires DecodeMore(s).Some?
    ensures var (es, k) := DecodeMore(s).value;
            (forall e :: e in es ==> PrintableEntry(e)) && s == MoreText(es) + k
    decreases |s|, 4
  {
    if ", " <= s {
      DecodedEntries(s[2..]);
      Head(", ", s);
      var (es, k) := DecodeMore(s).value;
      Assoc(", ", EntriesText(es), k);
    }
  }

  lemma {:induction false} DecodedEntry(s: string)
    requires DecodeEntry(s).Some?
    ensures var (e, k) := DecodeEntry(s).value; PrintableEntry(e) && s == EntryText(e) + k
    decreases |s|, 2
  {
    var n := Word(s);
    if IsIdent(s[..n]) && " " <= s[n..] && !AtTag(s[n..]) {
      DecodedNamed(s, n);
    } else {
      DecodedType(s);
    }
  }

  lemma {:induction false} DecodedNamed(s: string, n: nat)
    requires n <= |s| && " " <= s[n..] && DecodeType(s[n + 1..]).Some?
    ensures var (t, k) := DecodeType(s[n + 1..]).value; Printable(t) && s == EntryText(Named(s[..n], t)) + k
    decreases |s|, 1
  {
    var (t, k) := DecodeType(s[n + 1..]).value;
    DecodedType(s[n + 1..]);
    NamedTextThen(s, n, t, k);
  }

  lemma NamedTextThen(s: string, n: nat, t: Expr, k: string)
    requires n < |s| && s[n] == ' ' && s[n + 1..] == AstString(t) + k
    ensures s == EntryText(Named(s[..n], t)) + k
  {
    assert s == s[..n] + " " + s[n + 1..];
    Assoc(s[..n] + " ", AstString(t), k);
  }

  /** The texts that decode are exactly the texts of printable trees, and they decode to canonical trees. */
  lemma {:induction false} DecodableExactly(s: string)
    ensures Decode(s).Some? <==> exists t :: Printable(t) && AstString(t) == s
    ensures Decode(s).Some? ==>
              var t := Decode(s).value; Printable(t) && AstString(t) == s && Canon(t) == t
  {
    if Decode(s).Some? {
      DecodedType(s);
      var t := Decode(s).value;
      assert AstString(t) + "" == AstString(t);
      DecodeText(t);
    }
    forall t | Printable(t) && AstString(t) == s
      ensures Decode(s).Some?
    {
      DecodeText(t);
    }
  }

  /** The exact kernel of the printer: two trees have one text when and only when they have one canonical form. */
  lemma {:induction false} PrinterKernel(a: Expr, b: Expr)
    requires Printable(a) && Printable(b)
    ensures AstString(a) == AstString(b) <==> Canon(a) == Canon(b)
  {
    DecodeText(a);
    DecodeText(b);
    CanonText(a);
    CanonText(b);
  }

  /** Where no list mixes an unnamed identifier with a named field behind it, only lengths and tags are lost. */
  lemma {:induction false} PrinterKernelGrouped(a: Expr, b: Expr)
    requires Printable(a) && Printable(b)
    requires AllGrouped(a) && AllGrouped(b)
    ensures AstString(a) == AstString(b) <==> Erase(a) == Erase(b)
  {
    PrinterKernel(a, b);
    CanonIsErase(a);
    CanonIsErase(b);
  }

  /** Regrouping is real: a bare name in front of a named field prints as one more name of that field. */
  lemma MixedListsCollide(name: string, f: Field)
    requires f.names != []
    ensures FieldListString([Field([], Ident(name), None), f]) == FieldListString([Field([name] + f.names, f.typ, None)])
  {
    var a, b := [Field([], Ident(name), None), f], [Field([name] + f.names, f.typ, None)];
    ListText(a);
    ListText(b);
    assert a[1..] == [f] && [f][1..] == [] && b[1..] == [];
    assert ([name] + f.names)[1..] == f.names;
    assert Flatten([f]) == FlattenNames(f.names, f.typ) + [];
    assert Flatten(a) == [Bare(Ident(name))] + FlattenNames(f.names, f.typ) == Flatten(b);
  }

  /** A qualifier has to be a name: otherwise a pointer can move in and out of it. */
  lemma QualifiersCollide(q: string, sel: string)
    ensures AstString(Selector(Star(Ident(q)), sel)) == AstString(Star(Selector(Ident(q), sel)))
  {
    assert ("*" + q) + "." + sel == "*" + (q + "." + sel);
  }
}
