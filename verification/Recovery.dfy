/**
 Exactly when the listing of a package is rebuilt from its document. What a successful reading tells
 of the blocks read, the number of titles, the order of the sections and the headings directly above
 code, leaves no room for headings like docgen's in comments.
 */
module Recovery {
  import opened Options
  import opened Sequences
  import opened OneLineTypes
  import opened Markdown
  import opened Document
  import opened DocumentReading
  import opened Catalogue

  function Minors(bs: seq<Block>): nat {
    if bs == [] then 0 else (if IsMinor(bs[0]) then 1 else 0) + Minors(bs[1..])
  }

  lemma {:induction false} MinorsAppend(a: seq<Block>, b: seq<Block>)
    ensures Minors(a + b) == Minors(a) + Minors(b)
    decreases |a|
  {
    if a == [] {
      SeqNil(b);
    } else {
      assert (a + b)[1..] == a[1..] + b;
      MinorsAppend(a[1..], b);
    }
  }

  /** The sections whose headings are there, in order. */
  function Ranks(bs: seq<Block>): seq<nat> {
    if bs == [] then [] else (if IsSection(bs[0]) then [Rank(bs[0])] else []) + Ranks(bs[1..])
  }

  lemma {:induction false} RanksAppend(a: seq<Block>, b: seq<Block>)
    ensures Ranks(a + b) == Ranks(a) + Ranks(b)
    decreases |a|
  {
    if a == [] {
      SeqNil(b);
    } else {
      assert (a + b)[1..] == a[1..] + b;
      RanksAppend(a[1..], b);
      Regroup(if IsSection(a[0]) then [Rank(a[0])] else [], Ranks(a[1..]), Ranks(b));
    }
  }

  /** A section heading of this rank stands directly above code. */
  predicate AboveCode(bs: seq<Block>, rank: nat) {
    exists i :: 0 <= i < |bs| - 1 && Rank(bs[i]) == rank < 5 && bs[i + 1].Code?
  }

  lemma AboveCodeWithin(a: seq<Block>, b: seq<Block>, c: seq<Block>, rank: nat)
    requires AboveCode(b, rank)
    ensures AboveCode(a + (b + c), rank)
  {
    var all := a + (b + c);
    var i :| 0 <= i < |b| - 1 && Rank(b[i]) == rank < 5 && b[i + 1].Code?;
    assert all[|a| + i] == b[i] && all[|a| + i + 1] == b[i + 1];
  }

  lemma {:induction false} RankIsThere(bs: seq<Block>, i: nat)
    requires i < |bs| && IsSection(bs[i])
    ensures Rank(bs[i]) in Ranks(bs)
    decreases i
  {
    if i > 0 {
      RankIsThere(bs[1..], i - 1);
    }
  }

  lemma AboveCodeRank(bs: seq<Block>, rank: nat)
    requires AboveCode(bs, rank)
    ensures rank in Ranks(bs)
  {
    var i :| 0 <= i < |bs| - 1 && Rank(bs[i]) == rank < 5 && bs[i + 1].Code?;
    RankIsThere(bs, i);
  }

  /** No heading above code is lost behind a block that is not directly above code itself. */
  lemma AboveCodeBehind(b: Block, bs: seq<Block>, rank: nat)
    requires AboveCode([b] + bs, rank)
    ensures AboveCode(bs, rank) || (Rank(b) == rank < 5 && StartsWithCode(bs))
  {
    var all := [b] + bs;
    var i :| 0 <= i < |all| - 1 && Rank(all[i]) == rank < 5 && all[i + 1].Code?;
    assert all[1..] == bs;
    if i > 0 {
      assert bs[i - 1] == all[i] && bs[i] == all[i + 1];
    }
  }

  /** What it means that one part of the blocks is read and another part is left. */
  predicate Took(bs: seq<Block>, minors: nat, ranks: seq<nat>, left: seq<Block>) {
    Minors(bs) == minors + Minors(left) && Ranks(bs) == ranks + Ranks(left)
  }

  ghost predicate NoneAbove(bs: seq<Block>, left: seq<Block>) {
    forall rank :: AboveCode(bs, rank) ==> AboveCode(left, rank)
  }

  lemma {:induction false} TookCodes(bs: seq<Block>)
    ensures var left := TakeCodes(bs).1; Took(bs, 0, [], left) && NoneAbove(bs, left)
    decreases |bs|
  {
    if StartsWithCode(bs) {
      TookCodes(bs[1..]);
      assert bs == [bs[0]] + bs[1..];
      forall rank | AboveCode(bs, rank)
        ensures AboveCode(TakeCodes(bs).1, rank)
      {
        AboveCodeBehind(bs[0], bs[1..], rank);
      }
    }
  }

  lemma TookTitle(bs: seq<Block>)
    requires bs != [] && IsMinor(bs[0])
    ensures Took(bs, 1, [], bs[1..]) && NoneAbove(bs, bs[1..])
  {
    MinorIsNoSection(bs[0]);
    assert bs == [bs[0]] + bs[1..];
    forall rank | AboveCode(bs, rank)
      ensures AboveCode(bs[1..], rank)
    {
      AboveCodeBehind(bs[0], bs[1..], rank);
    }
  }

  lemma {:induction false} TookFuncs(level: string, bs: seq<Block>)
    requires level in {"###", "#####"}
    ensures var (es, left) := TakeFuncs(level, bs); Took(bs, |es|, [], left) && NoneAbove(bs, left)
    ensures !StartsWithCode(bs) ==> !StartsWithCode(TakeFuncs(level, bs).1)
    decreases |bs|
  {
    if AtTitle(level, bs) && StartsWithCode(bs[1..]) {
      TookTitle(bs);
      TookCodes(bs[1..]);
      TookFuncs(level, TakeCodes(bs[1..]).1);
    }
  }

  /** The headings that the methods of a type make. */
  function MethodMinors(n: nat): nat {
    if n == 0 then 0 else 1 + n
  }

  lemma TookMethods(bs: seq<Block>)
    ensures var (es, left) := TakeMethods(bs); Took(bs, MethodMinors(|es|), [], left) && NoneAbove(bs, left)
    ensures !StartsWithCode(bs) ==> !StartsWithCode(TakeMethods(bs).1)
  {
    if bs != [] && bs[0] == Heading(METHODS) && TakeFuncs("#####", bs[1..]).0 != [] {
      TookTitle(bs);
      TookFuncs("#####", bs[1..]);
    }
  }

  function TypeMinors(ts: seq<TypeEntry>): nat {
    if ts == [] then 0 else 1 + MethodMinors(|ts[0].methods|) + TypeMinors(ts[1..])
  }

  lemma {:induction false} TookTypes(bs: seq<Block>)
    ensures var (es, left) := TakeTypes(bs); Took(bs, TypeMinors(es), [], left) && NoneAbove(bs, left)
    ensures !StartsWithCode(bs) ==> !StartsWithCode(TakeTypes(bs).1)
    decreases |bs|
  {
    if AtTitle("###", bs) && StartsWithCode(bs[1..]) {
      var k := TakeCodes(bs[1..]).1;
      var (ms, next) := TakeMethods(k);
      TookTitle(bs);
      TookCodes(bs[1..]);
      TookMethods(k);
      TookTypes(next);
      ConsTail(TypeEntry(NameIn("###", bs[0]).value, TakeCodes(bs[1..]).0[|TakeCodes(bs[1..]).0| - 1], ms), TakeTypes(next).0);
    }
  }

  /** A section's number, if the section is there. */
  function Opt(present: bool, rank: nat): seq<nat> {
    if present then [rank] else []
  }

  lemma TookSkip(h: string, bs: seq<Block>)
    requires IsSection(Heading(h))
    ensures var left := Skip(h, bs);
            && Took(bs, 0, Opt(bs != [] && bs[0] == Heading(h), Rank(Heading(h))), left)
            && forall rank :: AboveCode(bs, rank) ==>
                 AboveCode(left, rank) || (rank == Rank(Heading(h)) && StartsWithCode(left))
  {
    if bs != [] && bs[0] == Heading(h) {
      if IsMinor(bs[0]) {
        MinorIsNoSection(bs[0]);
      }
      assert bs == [bs[0]] + bs[1..];
      forall rank | AboveCode(bs, rank)
        ensures AboveCode(bs[1..], rank) || (rank == Rank(Heading(h)) && StartsWithCode(bs[1..]))
      {
        AboveCodeBehind(bs[0], bs[1..], rank);
      }
    }
  }

  /** A section of values: what was read, and the code directly below its heading. */
  lemma TookValues(h: string, bs: seq<Block>)
    requires IsSection(Heading(h))
    ensures var (codes, left) := TakeCodes(Skip(h, bs));
            && Took(bs, 0, Opt(bs != [] && bs[0] == Heading(h), Rank(Heading(h))), left)
            && forall rank :: AboveCode(bs, rank) ==>
                 AboveCode(left, rank) || (rank == Rank(Heading(h)) && codes != [])
  {
    TookSkip(h, bs);
    TookCodes(Skip(h, bs));
  }

  predicate Rising(rs: seq<nat>) {
    forall i, j :: 0 <= i < j < |rs| ==> rs[i] < rs[j]
  }

  lemma OptsRise(a: bool, b: bool, c: bool, d: bool)
    ensures var rs := Opt(a, 1) + (Opt(b, 2) + (Opt(c, 3) + Opt(d, 4))); Rising(rs) && forall r :: r in rs ==> 1 <= r
  {
  }

  /** The types and functions behind the values of a listing. */
  lemma TookEntries(bs: seq<Block>)
    requires !StartsWithCode(bs)
    requires TakeFuncs("###", Skip(FUNCTIONS, TakeTypes(Skip(TYPES, bs)).1)).1 == []
    ensures var (types, left) := TakeTypes(Skip(TYPES, bs));
            var funcs := TakeFuncs("###", Skip(FUNCTIONS, left)).0;
            && Minors(bs) == TypeMinors(types) + |funcs|
            && (exists c, d :: Ranks(bs) == Opt(c, 3) + Opt(d, 4))
            && forall rank :: !AboveCode(bs, rank)
  {
    SectionTitles();
    var b2 := Skip(TYPES, bs);
    var left := TakeTypes(b2).1;
    var b3 := Skip(FUNCTIONS, left);
    TookSkip(TYPES, bs);
    TookTypes(b2);
    TookSkip(FUNCTIONS, left);
    TookFuncs("###", b3);
    assert !StartsWithCode(b2);
    assert !StartsWithCode(b3);
    var c, d := bs != [] && bs[0] == Heading(TYPES), left != [] && left[0] == Heading(FUNCTIONS);
    SeqNil(Opt(d, 4));
    SeqNil(Ranks(left));
    SeqNil(Ranks(b3));
    assert Ranks(bs) == Opt(c, 3) + Opt(d, 4);
  }

  /** What a successful reading tells of the blocks. */
  lemma Success(name: string, bs: seq<Block>)
    requires ReadSections(name, bs).Some?
    ensures var l := ReadSections(name, bs).value;
            && Minors(bs) == TypeMinors(l.types) + |l.funcs|
            && Rising(Ranks(bs)) && (forall r :: r in Ranks(bs) ==> 1 <= r)
            && forall rank :: AboveCode(bs, rank) ==> (rank == 1 && l.consts != []) || (rank == 2 && l.vars != [])
  {
    SectionTitles();
    var b1 := TakeCodes(Skip(CONSTANTS, bs)).1;
    var b2 := TakeCodes(Skip(VARIABLES, b1)).1;
    TookValues(CONSTANTS, bs);
    TookValues(VARIABLES, b1);
    TookEntries(b2);
    var c, d :| Ranks(b2) == Opt(c, 3) + Opt(d, 4);
    OptsRise(bs != [] && bs[0] == Heading(CONSTANTS), b1 != [] && b1[0] == Heading(VARIABLES), c, d);
  }

  /** Some section heading stands directly above code. */
  ghost predicate Noisy(bs: seq<Block>) {
    exists rank :: AboveCode(bs, rank)
  }

  lemma NoisyWithin(a: seq<Block>, b: seq<Block>, c: seq<Block>)
    requires Noisy(b)
    ensures Noisy(a + (b + c))
  {
    var rank :| AboveCode(b, rank);
    AboveCodeWithin(a, b, c, rank);
  }

  lemma NoisyBehind(a: seq<Block>, b: seq<Block>)
    requires Noisy(b)
    ensures Noisy(a + b)
  {
    NoisyWithin(a, b, []);
    SeqNil(b);
  }

  /** Blocks like docgen's without titles are code, or have a section heading directly above code. */
  lemma {:induction false} CodeOrNoisy(bs: seq<Block>, code: Block)
    requires Minors(bs) == 0 && (forall b :: b in bs ==> !Foreign(b)) && code.Code?
    ensures AllCode(bs) || Noisy(bs + [code])
  {
    if bs != [] {
      assert bs[0] in bs && forall b :: b in bs[1..] ==> b in bs;
      CodeOrNoisy(bs[1..], code);
      assert bs + [code] == [bs[0]] + (bs[1..] + [code]);
      if !AllCode(bs[1..]) {
        NoisyBehind([bs[0]], bs[1..] + [code]);
      } else if !bs[0].Code? {
        var next := (bs + [code])[1];
        assert next == if bs[1..] == [] then code else bs[1..][0];
        assert next.Code? && IsSection(bs[0]) && (bs + [code])[0] == bs[0];
        assert AboveCode(bs + [code], Rank(bs[0]));
      }
    }
  }

  /** Blocks with at least n titles, and with no more only if their comments are calm or a heading shows. */
  ghost predicate Counted(bs: seq<Block>, n: nat, calm: bool) {
    Minors(bs) >= n && (Minors(bs) == n ==> calm || Noisy(bs))
  }

  lemma CountedAppend(a: seq<Block>, m: nat, calm: bool, b: seq<Block>, n: nat, calm': bool)
    requires Counted(a, m, calm) && Counted(b, n, calm')
    ensures Counted(a + b, m + n, calm && calm')
  {
    MinorsAppend(a, b);
    if Noisy(b) {
      NoisyBehind(a, b);
    } else if Noisy(a) {
      NoisyWithin([], a, b);
      SeqNil(a + b);
    }
  }

  lemma CommentCounted(doc: string, code: Block)
    requires code.Code?
    ensures Counted(Brought(doc) + [code], 0, CalmDoc(doc))
  {
    MinorsAppend(Brought(doc), [code]);
    if Minors(Brought(doc)) == 0 {
      CodeOrNoisy(Brought(doc), code);
    }
  }

  lemma EntryCounted(h: string, doc: string, code: Block)
    requires IsMinor(Heading(h)) && code.Code?
    ensures Counted([Heading(h)] + (Brought(doc) + [code]), 1, CalmDoc(doc))
  {
    CommentCounted(doc, code);
    CountedAppend([Heading(h)], 1, true, Brought(doc) + [code], 0, CalmDoc(doc));
  }

  lemma ValueCounted(kind: string, v: Value)
    requires OneLine(kind)
    ensures Counted(BlocksOf(ValueSegments(kind, v)), 0, CalmDoc(v.doc))
  {
    ValueShape(kind, v);
    CommentCounted(v.doc, Code(Codes(v)));
  }

  lemma CalmValuesFirst(vs: seq<Value>)
    requires vs != []
    ensures CalmValues(vs) == (CalmDoc(vs[0].doc) && CalmValues(vs[1..]))
  {
    assert vs == [vs[0]] + vs[1..];
  }

  lemma {:induction false} ValuesCounted(kind: string, vs: seq<Value>)
    requires OneLine(kind)
    ensures Counted(BlocksOf(FlatMap(ValueSegmentsOf(kind), vs)), 0, CalmValues(vs))
    decreases |vs|
  {
    if vs != [] {
      var v, rest := vs[0], FlatMap(ValueSegmentsOf(kind), vs[1..]);
      BlocksJoin(ValueSegments(kind, v), rest);
      ValueCounted(kind, v);
      ValuesCounted(kind, vs[1..]);
      CountedAppend(BlocksOf(ValueSegments(kind, v)), 0, CalmDoc(v.doc), BlocksOf(rest), 0, CalmValues(vs[1..]));
      CalmValuesFirst(vs);
    }
  }

  lemma FuncCounted(level: string, f: Func)
    requires level in {"###", "#####"}
    ensures Counted(BlocksOf(FuncSegments(level, f)), 1, CalmDoc(f.doc))
  {
    FuncShape(level, f);
    LevelShape(level, f.name);
    EntryCounted(level + " `" + f.name + "`", f.doc, Code(EntryOf(f).code));
  }

  lemma CalmFuncsFirst(fs: seq<Func>)
    requires fs != []
    ensures CalmFuncs(fs) == (CalmDoc(fs[0].doc) && CalmFuncs(fs[1..]))
  {
    assert fs == [fs[0]] + fs[1..];
  }

  lemma {:induction false} FuncsCounted(level: string, fs: seq<Func>)
    requires level in {"###", "#####"}
    ensures Counted(BlocksOf(FlatMap(FuncSegmentsOf(level), fs)), |fs|, CalmFuncs(fs))
    decreases |fs|
  {
    if fs != [] {
      var f, rest := fs[0], FlatMap(FuncSegmentsOf(level), fs[1..]);
      BlocksJoin(FuncSegments(level, f), rest);
      FuncCounted(level, f);
      FuncsCounted(level, fs[1..]);
      CountedAppend(BlocksOf(FuncSegments(level, f)), 1, CalmDoc(f.doc), BlocksOf(rest), |fs| - 1, CalmFuncs(fs[1..]));
      CalmFuncsFirst(fs);
    }
  }

  lemma MethodsCounted(ms: seq<Func>)
    ensures Counted(BlocksOf(MethodSegments(ms)), MethodMinors(|ms|), CalmFuncs(ms))
  {
    var body := FlatMap(FuncSegmentsOf("#####"), ms);
    SectionThen(METHODS, ms != [], body, []);
    SeqNil(BlocksOf(body));
    SeqNil(BlocksOf(MethodSegments(ms)));
    if ms != [] {
      FuncsCounted("#####", ms);
      CountedAppend([Heading(METHODS)], 1, true, BlocksOf(body), |ms|, CalmFuncs(ms));
    }
  }

  predicate CalmType(t: Type) {
    CalmDoc(t.doc) && CalmFuncs(t.methods)
  }

  lemma TypeCounted(t: Type)
    ensures Counted(BlocksOf(TypeSegments(t)), 1 + MethodMinors(|t.methods|), CalmType(t))
  {
    var h, code := "###" + " `" + t.name + "`", Code(TypeEntryOf(t).definition);
    TypeShape(t);
    LevelShape("###", t.name);
    EntryCounted(h, t.doc, code);
    MethodsCounted(t.methods);
    CountedAppend([Heading(h)] + (Brought(t.doc) + [code]), 1, CalmDoc(t.doc),
                  BlocksOf(MethodSegments(t.methods)), MethodMinors(|t.methods|), CalmFuncs(t.methods));
  }

  lemma CalmTypesFirst(ts: seq<Type>)
    requires ts != []
    ensures CalmTypes(ts) == (CalmType(ts[0]) && CalmTypes(ts[1..]))
  {
    assert ts == [ts[0]] + ts[1..];
  }

  lemma {:induction false} TypesCounted(ts: seq<Type>)
    ensures Counted(BlocksOf(FlatMap(TypeSegments, ts)), TypeMinors(Each(TypeEntryOf, ts)), CalmTypes(ts))
    decreases |ts|
  {
    if ts != [] {
      var t, rest := ts[0], FlatMap(TypeSegments, ts[1..]);
      BlocksJoin(TypeSegments(t), rest);
      TypeCounted(t);
      TypesCounted(ts[1..]);
      CountedAppend(BlocksOf(TypeSegments(t)), 1 + MethodMinors(|t.methods|), CalmType(t),
                    BlocksOf(rest), TypeMinors(Each(TypeEntryOf, ts[1..])), CalmTypes(ts[1..]));
      ConsTail(TypeEntryOf(t), Each(TypeEntryOf, ts[1..]));
      CalmTypesFirst(ts);
    }
  }

  /** A section's heading and body in front of others. */
  lemma SectionCounts(h: string, present: bool, body: seq<Segment>, rest: seq<Block>)
    requires IsSection(Heading(h)) && (!present ==> body == [])
    ensures var all := BlocksOf(Section(h, present, body)) + rest;
            && Minors(all) == Minors(BlocksOf(body)) + Minors(rest)
            && Ranks(all) == Opt(present, Rank(Heading(h))) + (Ranks(BlocksOf(body)) + Ranks(rest))
            && forall rank :: AboveCode(BlocksOf(body), rank) || AboveCode(rest, rank) ==> AboveCode(all, rank)
    ensures !present ==> BlocksOf(body) == []
  {
    var b := BlocksOf(body);
    SectionThen(h, present, body, rest);
    MinorsAppend(b, rest);
    RanksAppend(b, rest);
    if IsMinor(Heading(h)) {
      MinorIsNoSection(Heading(h));
    }
    if present {
      ConsTail(Heading(h), b + rest);
    } else {
      SeqNil(rest);
      SeqNil(Ranks(rest));
    }
    var head := if present then [Heading(h)] else [];
    forall rank | AboveCode(b, rank) || AboveCode(rest, rank)
      ensures AboveCode(BlocksOf(Section(h, present, body)) + rest, rank)
    {
      if AboveCode(b, rank) {
        AboveCodeWithin(head, b, rest, rank);
      } else {
        AboveCodeWithin(head + b, rest, [], rank);
        SeqNil(rest);
        Regroup(head, b, rest);
      }
      SeqNil(b + rest);
    }
  }

  lemma RisingSplit(a: seq<nat>, b: seq<nat>)
    requires Rising(a + b)
    ensures Rising(a) && Rising(b) && forall x, y :: x in a && y in b ==> x < y
  {
    assert a == (a + b)[..|a|] && b == (a + b)[|a|..];
    forall x, y | x in a && y in b
      ensures x < y
    {
      var i :| 0 <= i < |a| && a[i] == x;
      var j :| 0 <= j < |b| && b[j] == y;
      assert (a + b)[i] == x && (a + b)[|a| + j] == y;
    }
  }

  /** Below a section's heading, only a later section that is not there again can stand above code. */
  lemma BodyRanks(rank: nat, present: bool, body: seq<Block>, rest: seq<nat>)
    requires Rising(Opt(present, rank) + (Ranks(body) + rest))
    requires present || body == []
    ensures forall r :: AboveCode(body, r) ==> rank < r && r !in rest
    ensures Rising(rest)
  {
    RisingSplit(Opt(present, rank), Ranks(body) + rest);
    RisingSplit(Ranks(body), rest);
    forall r | AboveCode(body, r)
      ensures rank < r && r !in rest
    {
      AboveCodeRank(body, r);
      assert rank in Opt(present, rank) && r in Ranks(body) + rest;
    }
  }

  /** The blocks below the heading of each section. */
  function ConstBody(p: Package): (r: seq<Block>)
    ensures p.consts == [] ==> r == []
  {
    BlocksOf(FlatMap(ValueSegmentsOf("Const"), p.consts))
  }

  function VarBody(p: Package): (r: seq<Block>)
    ensures p.vars == [] ==> r == []
  {
    BlocksOf(FlatMap(ValueSegmentsOf("Var"), p.vars))
  }

  function TypeBody(p: Package): (r: seq<Block>)
    ensures p.types == [] ==> r == []
  {
    BlocksOf(FlatMap(TypeSegments, p.types))
  }

  function FuncBody(p: Package): (r: seq<Block>)
    ensures p.funcs == [] ==> r == []
  {
    BlocksOf(FlatMap(FuncSegmentsOf("###"), p.funcs))
  }

  /** The ranks of the sections, with what their bodies add, from each section on. */
  function Ranks4(p: Package): seq<nat> {
    Opt(p.funcs != [], 4) + (Ranks(FuncBody(p)) + [])
  }

  function Ranks3(p: Package): seq<nat> {
    Opt(p.types != [], 3) + (Ranks(TypeBody(p)) + Ranks4(p))
  }

  function Ranks2(p: Package): seq<nat> {
    Opt(p.vars != [], 2) + (Ranks(VarBody(p)) + Ranks3(p))
  }

  function Ranks1(p: Package): seq<nat> {
    Opt(p.consts != [], 1) + (Ranks(ConstBody(p)) + Ranks2(p))
  }

  predicate AboveCodeInBody(p: Package, rank: nat) {
    AboveCode(ConstBody(p), rank) || AboveCode(VarBody(p), rank) || AboveCode(TypeBody(p), rank) || AboveCode(FuncBody(p), rank)
  }

  /** What the sections of a package add up to. */
  lemma TailCounts(p: Package)
    ensures Minors(Tail1(p)) == Minors(ConstBody(p)) + Minors(VarBody(p)) + Minors(TypeBody(p)) + Minors(FuncBody(p))
    ensures Ranks(Tail1(p)) == Ranks1(p)
    ensures forall rank :: AboveCodeInBody(p, rank) ==> AboveCode(Tail1(p), rank)
  {
    SectionTitles();
    SectionCounts(FUNCTIONS, p.funcs != [], FlatMap(FuncSegmentsOf("###"), p.funcs), []);
    SeqNil(Tail4(p));
    SectionCounts(TYPES, p.types != [], FlatMap(TypeSegments, p.types), Tail4(p));
    SectionCounts(VARIABLES, p.vars != [], FlatMap(ValueSegmentsOf("Var"), p.vars), Tail3(p));
    SectionCounts(CONSTANTS, p.consts != [], FlatMap(ValueSegmentsOf("Const"), p.consts), Tail2(p));
  }

  /** The only ranks that a package may have directly above code. */
  predicate ValueRank(p: Package, rank: nat) {
    (rank == 1 && p.consts != []) || (rank == 2 && p.vars != [])
  }

  lemma QuietBody(p: Package, rank: nat, present: bool, body: seq<Block>, rest: seq<nat>)
    requires Rising(Opt(present, rank) + (Ranks(body) + rest)) && (present || body == [])
    requires forall r :: AboveCode(body, r) ==> ValueRank(p, r)
    requires rank >= 2 || (rank == 1 && (p.vars != [] ==> 2 in rest))
    ensures !Noisy(body) && Rising(rest)
  {
    BodyRanks(rank, present, body, rest);
  }

  /** Sections that are read have no heading like docgen's in a comment. */
  lemma QuietBodies(p: Package)
    requires Rising(Ranks1(p))
    requires forall rank :: AboveCodeInBody(p, rank) ==> ValueRank(p, rank)
    ensures !Noisy(ConstBody(p)) && !Noisy(VarBody(p)) && !Noisy(TypeBody(p)) && !Noisy(FuncBody(p))
  {
    VariablesAreThere(p);
    QuietBody(p, 1, p.consts != [], ConstBody(p), Ranks2(p));
    QuietBody(p, 2, p.vars != [], VarBody(p), Ranks3(p));
    QuietBody(p, 3, p.types != [], TypeBody(p), Ranks4(p));
    QuietBody(p, 4, p.funcs != [], FuncBody(p), []);
  }

  lemma VariablesAreThere(p: Package)
    ensures p.vars != [] ==> 2 in Ranks2(p)
    ensures p.consts != [] ==> 1 in Ranks1(p)
    ensures p.vars != [] ==> 2 in Ranks1(p)
  {
    assert p.vars != [] ==> 2 in Opt(p.vars != [], 2);
    assert p.consts != [] ==> 1 in Opt(p.consts != [], 1);
  }

  lemma ConstBodyCounted(p: Package)
    ensures Counted(ConstBody(p), 0, CalmValues(p.consts))
  {
    ValuesCounted("Const", p.consts);
  }

  lemma VarBodyCounted(p: Package)
    ensures Counted(VarBody(p), 0, CalmValues(p.vars))
  {
    ValuesCounted("Var", p.vars);
  }

  lemma EntryBodiesCounted(p: Package)
    ensures Counted(TypeBody(p), TypeMinors(Each(TypeEntryOf, p.types)), CalmTypes(p.types))
    ensures Counted(FuncBody(p), |p.funcs|, CalmFuncs(p.funcs))
  {
    TypesCounted(p.types);
    FuncsCounted("###", p.funcs);
  }

  /** What a successful reading tells of a package's sections and of what stands in front of them. */
  lemma SuccessOf(p: Package, name: string, front: seq<Block>)
    requires ReadSections(name, front + Tail1(p)) == Some(ListingOf(p, name))
    ensures Minors(front) + Minors(Tail1(p)) == TypeMinors(Each(TypeEntryOf, p.types)) + |p.funcs|
    ensures forall rank :: AboveCode(front, rank) || AboveCode(Tail1(p), rank) ==> ValueRank(p, rank)
  {
    Success(name, front + Tail1(p));
    MinorsAppend(front, Tail1(p));
    forall rank | AboveCode(front, rank) || AboveCode(Tail1(p), rank)
      ensures ValueRank(p, rank)
    {
      AboveEither(front, Tail1(p), rank);
    }
  }

  lemma SuccessRanks(p: Package, name: string, front: seq<Block>)
    requires ReadSections(name, front + Tail1(p)) == Some(ListingOf(p, name))
    ensures Rising(Ranks(front)) && Rising(Ranks1(p))
    ensures (forall r :: r in Ranks(front) ==> 1 <= r) && forall x, y :: x in Ranks(front) && y in Ranks1(p) ==> x < y
  {
    RanksOfBoth(name, front, Tail1(p));
    TailRanks(p);
  }

  lemma RanksOfBoth(name: string, front: seq<Block>, sections: seq<Block>)
    requires ReadSections(name, front + sections).Some?
    ensures Rising(Ranks(front)) && Rising(Ranks(sections))
    ensures (forall r :: r in Ranks(front) ==> 1 <= r) && forall x, y :: x in Ranks(front) && y in Ranks(sections) ==> x < y
  {
    Success(name, front + sections);
    RanksAppend(front, sections);
    RisingParts(Ranks(front), Ranks(sections), Ranks(front + sections));
  }

  lemma RisingParts(a: seq<nat>, b: seq<nat>, all: seq<nat>)
    requires all == a + b && Rising(all) && forall r :: r in all ==> 1 <= r
    ensures Rising(a) && Rising(b) && (forall x, y :: x in a && y in b ==> x < y) && forall r :: r in a ==> 1 <= r
  {
    RisingSplit(a, b);
    forall r | r in a
      ensures 1 <= r
    {
      assert r in all;
    }
  }

  lemma TailRanks(p: Package)
    ensures Ranks(Tail1(p)) == Ranks1(p)
  {
    TailCounts(p);
  }

  lemma AboveEither(a: seq<Block>, b: seq<Block>, rank: nat)
    requires AboveCode(a, rank) || AboveCode(b, rank)
    ensures AboveCode(a + b, rank)
  {
    if AboveCode(a, rank) {
      AboveCodeWithin([], a, b, rank);
      SeqNil(a + b);
    } else {
      AboveCodeWithin(a, b, [], rank);
      SeqNil(b);
    }
  }

  lemma CalmSections(p: Package, name: string, front: seq<Block>)
    requires ReadSections(name, front + Tail1(p)) == Some(ListingOf(p, name))
    ensures CalmValues(p.consts) && CalmValues(p.vars) && CalmTypes(p.types) && CalmFuncs(p.funcs)
    ensures Minors(front) == 0
  {
    SuccessOf(p, name, front);
    SuccessRanks(p, name, front);
    TailCounts(p);
    QuietBodies(p);
    ConstBodyCounted(p);
    VarBodyCounted(p);
    EntryBodiesCounted(p);
  }

  /** Blocks like docgen's without titles that do not start with code have none, or a heading above it. */
  lemma SectionsOrNoisy(bs: seq<Block>)
    requires Minors(bs) == 0 && (forall b :: b in bs ==> !Foreign(b)) && !StartsWithCode(bs)
    ensures Noisy(bs) || AllSections(bs)
    decreases |bs|
  {
    if bs != [] {
      var back, last := bs[..|bs| - 1], bs[|bs| - 1];
      assert bs == back + [last] && last in bs;
      MinorsAppend(back, [last]);
      SectionsOrNoisy(back);
      if Noisy(back) {
        NoisyWithin([], back, [last]);
        SeqNil(back + [last]);
      } else if last.Code? {
        CodeBehindSections(back, last);
      }
    }
  }

  predicate AllSections(bs: seq<Block>) {
    forall b :: b in bs ==> IsSection(b)
  }

  lemma CodeBehindSections(back: seq<Block>, code: Block)
    requires back != [] && AllSections(back) && code.Code?
    ensures Noisy(back + [code])
  {
    var all, i := back + [code], |back| - 1;
    assert all[i] == back[i] && back[i] in back && all[i + 1] == code;
    assert AboveCode(all, Rank(back[i]));
  }

  lemma {:induction false} RisingIdle(bs: seq<Block>, low: nat, limit: nat)
    requires AllSections(bs) && Rising(Ranks(bs))
    requires forall r :: r in Ranks(bs) ==> low <= r < limit
    ensures Idle(bs, low, limit)
    decreases |bs|
  {
    if bs != [] {
      var first, rest := [Rank(bs[0])], Ranks(bs[1..]);
      assert bs[0] in bs && Ranks(bs) == first + rest;
      RisingSplit(first, rest);
      assert first[0] in first && first[0] in Ranks(bs);
      assert forall r :: r in rest ==> r in Ranks(bs);
      RisingIdle(bs[1..], Rank(bs[0]) + 1, limit);
    }
  }

  /** What stands before the sections can only be headings of earlier sections. */
  lemma IdleFront(p: Package, name: string, front: seq<Block>)
    requires (forall b :: b in front ==> !Foreign(b)) && !StartsWithCode(front)
    requires ReadSections(name, front + Tail1(p)) == Some(ListingOf(p, name))
    ensures Idle(front, 1, FirstRank(p))
  {
    SuccessOf(p, name, front);
    SuccessRanks(p, name, front);
    CalmSections(p, name, front);
    SectionsOrNoisy(front);
    QuietFront(p, front);
    FirstIsThere(p);
    RanksOfSections(front);
    RisingIdle(front, 1, FirstRank(p));
  }

  lemma QuietFront(p: Package, front: seq<Block>)
    requires forall x, y :: x in Ranks(front) && y in Ranks1(p) ==> x < y
    requires forall rank :: AboveCode(front, rank) ==> ValueRank(p, rank)
    ensures !Noisy(front)
  {
    VariablesAreThere(p);
    forall rank
      ensures !AboveCode(front, rank)
    {
      if AboveCode(front, rank) {
        AboveCodeRank(front, rank);
      }
    }
  }

  lemma FirstIsThere(p: Package)
    ensures FirstRank(p) < 5 ==> FirstRank(p) in Ranks1(p)
  {
    TailHeads(p);
    TailCounts(p);
    if Tail1(p) != [] {
      RankIsThere(Tail1(p), 0);
    }
  }

  lemma {:induction false} RanksOfSections(bs: seq<Block>)
    ensures forall r :: r in Ranks(bs) ==> r < 5
  {
    if bs != [] {
      RanksOfSections(bs[1..]);
    }
  }

  lemma {:induction false} TakenFrom(bs: seq<Block>)
    ensures forall b :: b in TakeCodes(bs).1 ==> b in bs
  {
    if StartsWithCode(bs) {
      TakenFrom(bs[1..]);
    }
  }

  /**
   The blocks of a package give back its listing if and only if, behind the overview, path and
   package comment bring at most headings of sections that the package skips; no other comment has
   a heading like docgen's; and the comments of constants and variables have no code blocks.
   */
  lemma ReadListingExactly(p: Package, name: string, path: string)
    ensures ReadListing(PackageBlocks(p, name, path)) == Some(ListingOf(p, name)) <==> Recoverable(p, path)
  {
    var front := AfterOverview(Front(p.doc, path));
    PackageShape(p, name, path);
    TailHeads(p);
    BehindOverview(Front(p.doc, path), Tail1(p));
    if ReadListing(PackageBlocks(p, name, path)) == Some(ListingOf(p, name)) {
      TakenFrom(Front(p.doc, path));
      TakenFrom(Skip(OVERVIEW, TakeCodes(Front(p.doc, path)).1));
      CalmSections(p, name, front);
      IdleFront(p, name, front);
    }
    if CalmPackage(p, path) {
      ReadsCalmly(p, name, path);
      CodesExactly(p.consts);
      CodesExactly(p.vars);
    }
  }

  /** The same of the document, for every package whose document reads as meant. */
  lemma DocumentListsPackage(p: Package, name: string, path: string)
    requires SafePackage(p, name, path)
    ensures ReadListing(ReadText(PackageText(p, name, path)).blocks) == Some(ListingOf(p, name)) <==> Recoverable(p, path)
  {
    DocumentReadsExactly(p, name, path);
    ReadListingExactly(p, name, path);
  }

  /** With code in the comments of values, everything but the values is still rebuilt. */
  lemma DocumentListsCalmly(p: Package, name: string, path: string)
    requires SafePackage(p, name, path) && CalmPackage(p, path)
    ensures ReadListing(ReadText(PackageText(p, name, path)).blocks) == Some(CalmListing(p, name))
  {
    DocumentReadsExactly(p, name, path);
    ReadsCalmly(p, name, path);
  }
}
