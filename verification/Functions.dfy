/** Statements, blocks and functions: how they are spelled, and what the parser finds there. */
module Functions {
  import opened Wrappers
  import opened Tokens
  import opened Grammar
  import opened Reading
  import opened Shapes
  import opened OpenTrees
  import opened Steps

  datatype Stmt = Let(name: string, value: Expr) | Return(value: Expr) | Use(parts: seq<string>) | ExprStmt(value: Expr)

  /** A type by name, or a record of named fields; either may be an array of such. */
  datatype TypeName = Named(name: string, isArray: bool) | Record(fields: seq<FieldType>, isArray: bool)

  datatype FieldType = FieldType(name: string, optional: bool, kind: TypeName)

  datatype ParamDef = ParamDef(name: string, kind: TypeName, default: Option<Expr>, variadic: bool)

  datatype TypeDef = TypeDef(name: string, kind: TypeName)

  datatype FnDef = FnDef(name: string, types: seq<TypeDef>, params: seq<ParamDef>, result: TypeName, body: seq<Stmt>)

  // ----- statements -----

  function DotTokens(parts: seq<string>): seq<Token> {
    if parts == [] then [] else [Op("."), Id(parts[0])] + DotTokens(parts[1..])
  }

  /** What comes before the value. */
  function StmtHead(s: Stmt): seq<Token> {
    match s
    case Let(x, _) => [Kw("let"), Id(x), Op("=")]
    case Return(_) => [Kw("return")]
    case Use(parts) => [Kw("use")] + if parts == [] then [] else [Id(parts[0])] + DotTokens(parts[1..])
    case ExprStmt(_) => []
  }

  function StmtTokens(s: Stmt): seq<Token> {
    StmtHead(s) + if s.Use? then [] else Print(s.value, 0)
  }

  predicate PrintableStmt(s: Stmt) {
    if s.Use? then s.parts != [] else Printable(s.value)
  }

  /** The newlines behind it are taken by the statement's value. */
  predicate TakesLines(s: Stmt) {
    !s.Use? && Newline in Words(s.value)
  }

  /** A line that could go on with the line before it. */
  predicate Continues(s: Stmt) {
    s.ExprStmt? && KindAt(Print(s.value, 0), 0) in {Operator("-"), Operator("[")}
  }

  /** The second statement is read as a part of the first. */
  predicate Merges(s: Stmt, next: Stmt) {
    TakesLines(s) && Continues(next)
  }

  /** No statement is read as a part of the one before it. */
  predicate Apart(ss: seq<Stmt>) {
    forall i :: 0 <= i < |ss| - 1 ==> !Merges(ss[i], ss[i + 1])
  }

  /** A statement, `gap` newlines, and then something else. */
  ghost predicate StmtAt(ts: seq<Token>, s: Stmt, p: nat, gap: nat) {
    var q := p + |StmtTokens(s)|;
    && PrintableStmt(s) && Spelled(ts, p, StmtTokens(s)) && gap > 0 && Spelled(ts, q, Lines(gap))
    && KindAt(ts, q + gap) !in {Newline, Keyword("else"), Keyword("catch"), Keyword("when")}
  }

  /** What stands behind the newlines goes on with the statement. */
  ghost predicate GoesOn(ts: seq<Token>, s: Stmt, p: nat, gap: nat) {
    TakesLines(s) && GrowLevel(KindAt(ts, p + |StmtTokens(s)| + gap)) >= 0
  }

  /** The value of a statement with what is known of what follows. */
  ghost function ValueWant(ts: seq<Token>, s: Stmt, p: nat, gap: nat): Want
    requires !s.Use?
  {
    Laid(ts, s.value, p + |StmtTokens(s)|, if TakesLines(s) then gap else 0)
  }

  lemma ValueAt(ts: seq<Token>, s: Stmt, p: nat, gap: nat)
    requires StmtAt(ts, s, p, gap) && !s.Use?
    ensures var w := ValueWant(ts, s, p, gap); var q := p + |StmtHead(s)|;
      && Reads(ts, w, q) && w.tree == s.value && (w.over <==> GoesOn(ts, s, p, gap))
      && q + |Form(w, PIPE)| == p + |StmtTokens(s)| + if TakesLines(s) then gap else 0
  {
    hide Print, Printable, Spelled, Words, Lines, Expects, Form, StmtHead, GrowLevel, Proper, Raw;
    var v, q, n := s.value, p + |StmtTokens(s)|, if TakesLines(s) then gap else 0;
    AtCat(ts, p, StmtHead(s), Print(v, 0));
    assert Followed(ts, v, q, n) by {
      if TakesLines(s) {
        WordsAre(v);
      } else {
        FirstLine(ts, q, gap);
        NewlineStops(ts, q, v);
      }
    }
    LaidAt(ts, v, p + |StmtHead(s)|, n);
    NoLayoutBefore(ts, Laid(ts, v, q, n), PIPE, p + |StmtHead(s)|);
  }

  /** The first token tells the kind of statement. */
  ghost predicate StmtLeads(s: Stmt, k: TokenType) {
    match s
    case Let(_, _) => k == Keyword("let")
    case Return(_) => k == Keyword("return")
    case Use(_) => k == Keyword("use")
    case ExprStmt(_) => Starts(k, OPEN)
  }

  lemma StmtBegins(ts: seq<Token>, s: Stmt, p: nat, gap: nat)
    requires StmtAt(ts, s, p, gap)
    ensures p < |ts| && StmtLeads(s, ts[p].kind) && KindAt(ts, p) == KindAt(StmtTokens(s), 0)
    ensures s.Let? ==> LetHeadAt(ts, s, p)
  {
    hide Print, Printable, Words, Lines, Starts, Raw;
    if !s.Use? { Begins(s.value, OPEN); }
    var t := StmtTokens(s);
    assert t != [];
    assert ts[p] == ts[p..p + |t|][0] == t[0];
    if s.Let? {
      assert ts[p + 1] == ts[p..p + |t|][1] == t[1] && ts[p + 2] == ts[p..p + |t|][2] == t[2];
    }
  }

  lemma StmtNoLayout(s: Stmt, k: TokenType)
    requires StmtLeads(s, k)
    ensures k !in {Newline, Indent, Dedent, EOF, Keyword("else"), Keyword("catch"), Keyword("when")}
    ensures s.ExprStmt? ==> k !in {Keyword("let"), Keyword("return"), Keyword("use")}
    ensures GrowLevel(k) >= 0 <==> s.ExprStmt? && k in {Operator("-"), Operator("[")}
  {
  }

  /** The dotted parts of a namespace. */
  ghost predicate DotsAt(ts: seq<Token>, parts: seq<string>, p: nat) {
    Spelled(ts, p, DotTokens(parts)) && KindAt(ts, p + |DotTokens(parts)|) != Operator(".")
  }

  lemma DotsStep(ts: seq<Token>, parts: seq<string>, p: nat)
    requires DotsAt(ts, parts, p)
    ensures parts == [] ==> KindAt(ts, p) != Operator(".") && |DotTokens(parts)| == 0
    ensures parts != [] ==>
      && KindAt(ts, p) == Operator(".") && p + 1 < |ts| && ts[p + 1] == Id(parts[0])
      && DotsAt(ts, parts[1..], p + 2) && |DotTokens(parts)| == 2 + |DotTokens(parts[1..])|
  {
    hide Spelled;
    if parts != [] { AtTwo(ts, p, Op("."), Id(parts[0]), DotTokens(parts[1..])); }
  }

  lemma UseTokens(s: Stmt)
    requires s.Use? && s.parts != []
    ensures StmtTokens(s) == [Kw("use"), Id(s.parts[0])] + DotTokens(s.parts[1..])
  {
    hide DotTokens;
  }

  lemma UseAt(ts: seq<Token>, s: Stmt, p: nat, gap: nat)
    requires StmtAt(ts, s, p, gap) && s.Use?
    ensures s.parts != [] && p + 1 < |ts| && ts[p + 1] == Id(s.parts[0]) && DotsAt(ts, s.parts[1..], p + 2)
    ensures |StmtTokens(s)| == 2 + |DotTokens(s.parts[1..])|
  {
    hide Spelled, Lines, StmtTokens, DotTokens;
    var d := DotTokens(s.parts[1..]);
    UseTokens(s);
    AtTwo(ts, p, Kw("use"), Id(s.parts[0]), d);
    FirstLine(ts, p + |StmtTokens(s)|, gap);
  }

  ghost predicate LetHeadAt(ts: seq<Token>, s: Stmt, p: nat)
    requires s.Let?
  {
    p + 2 < |ts| && ts[p + 1] == Id(s.name) && KindAt(ts, p + 2) == Operator("=")
  }

  /** Which branch the parser takes. */
  lemma StmtKind(ts: seq<Token>, s: Stmt, p: nat, gap: nat)
    requires StmtAt(ts, s, p, gap)
    ensures var k := KindAt(ts, p);
      && (k == Keyword("let") <==> s.Let?) && (k == Keyword("return") <==> s.Return?) && (k == Keyword("use") <==> s.Use?)
    ensures s.Let? ==> LetHeadAt(ts, s, p)
    ensures s.Use? ==> !GoesOn(ts, s, p, gap) && !TakesLines(s)
    ensures |StmtHead(s)| == match s case Let(_, _) => 3 case Return(_) => 1 case Use(_) => |StmtHead(s)| case ExprStmt(_) => 0
  {
    hide StmtAt, Starts;
    StmtBegins(ts, s, p, gap);
    StmtNoLayout(s, KindAt(ts, p));
  }

  // ----- blocks -----

  /** How a block is laid out: newlines before it, and after each of its statements. */
  datatype Layout = Layout(lead: nat, gaps: seq<nat>)

  ghost predicate StmtsAt(ts: seq<Token>, ss: seq<Stmt>, gaps: seq<nat>, p: nat)
    decreases |ss|
  {
    |gaps| == |ss| &&
    if ss == [] then KindAt(ts, p) == Dedent
    else StmtAt(ts, ss[0], p, gaps[0]) && StmtsAt(ts, ss[1..], gaps[1..], p + |StmtTokens(ss[0])| + gaps[0])
  }

  function StmtsLength(ss: seq<Stmt>, gaps: seq<nat>): nat
    requires |gaps| == |ss|
  {
    if ss == [] then 0 else |StmtTokens(ss[0])| + gaps[0] + StmtsLength(ss[1..], gaps[1..])
  }

  ghost predicate BlockAt(ts: seq<Token>, ss: seq<Stmt>, lay: Layout, p: nat) {
    && Spelled(ts, p, Lines(lay.lead)) && KindAt(ts, p + lay.lead) == Indent
    && StmtsAt(ts, ss, lay.gaps, p + lay.lead + 1)
  }

  function BlockLength(ss: seq<Stmt>, lay: Layout): nat
    requires |lay.gaps| == |ss|
  {
    lay.lead + 2 + StmtsLength(ss, lay.gaps)
  }

  /** The next statement of a block, and whether the one behind it is read as a part of it. */
  lemma StmtsStep(ts: seq<Token>, ss: seq<Stmt>, gaps: seq<nat>, p: nat)
    requires StmtsAt(ts, ss, gaps, p)
    ensures |gaps| == |ss| && (ss == [] ==> KindAt(ts, p) == Dedent && StmtsLength(ss, gaps) == 0)
    ensures ss != [] ==>
      && StmtAt(ts, ss[0], p, gaps[0]) && KindAt(ts, p) !in {Newline, Dedent, EOF}
      && (GoesOn(ts, ss[0], p, gaps[0]) <==> |ss| > 1 && Merges(ss[0], ss[1]))
  {
    hide StmtAt, StmtTokens, GoesOn, Merges, StmtLeads;
    if ss != [] {
      StmtBegins(ts, ss[0], p, gaps[0]);
      StmtNoLayout(ss[0], KindAt(ts, p));
      var q := p + |StmtTokens(ss[0])| + gaps[0];
      if |ss| > 1 {
        assert ss[1..][0] == ss[1] && gaps[1..][0] == gaps[1];
        NextLine(ts, ss[0], p, gaps[0], ss[1], gaps[1]);
      } else {
        LastLine(ts, ss[0], p, gaps[0]);
      }
    }
  }

  /** What the next statement begins with decides whether this one goes on. */
  lemma NextLine(ts: seq<Token>, s: Stmt, p: nat, gap: nat, next: Stmt, gap': nat)
    requires StmtAt(ts, next, p + |StmtTokens(s)| + gap, gap')
    ensures GoesOn(ts, s, p, gap) <==> Merges(s, next)
  {
    hide StmtAt, StmtTokens, TakesLines, GrowLevel, StmtLeads, Continues;
    var q := p + |StmtTokens(s)| + gap;
    StmtBegins(ts, next, q, gap');
    StmtNoLayout(next, KindAt(ts, q));
    ContinuesAt(next);
  }

  lemma LastLine(ts: seq<Token>, s: Stmt, p: nat, gap: nat)
    requires KindAt(ts, p + |StmtTokens(s)| + gap) == Dedent
    ensures !GoesOn(ts, s, p, gap)
  {
    hide StmtTokens, TakesLines;
  }

  lemma ContinuesAt(s: Stmt)
    ensures Continues(s) <==> s.ExprStmt? && KindAt(StmtTokens(s), 0) in {Operator("-"), Operator("[")}
  {
    hide Print;
    if s.ExprStmt? { assert StmtTokens(s) == Print(s.value, 0); }
  }

  /** What the body of a loop is read as, if it is an expression that is known. */
  lemma ForHints(ts: seq<Token>, w: Want, x: Want, block: Option<seq<Stmt>>, lay: Layout, p: nat) returns (b: Option<Want>)
    requires w.tree.For? && LoopReads(ts, w.tree, x, p)
    requires block.Some? ==> x == Inner(w.tree.iterable) && BlockLoopAt(ts, w.tree, block.value, lay, p)
    ensures HeadAt(ts, w.tree, p) && p + 1 < |ts| && ts[p + 1].kind.Ident? && Reads(ts, x, IterableAt(w.tree, p))
    ensures var q := IterableAt(w.tree, p) + |Form(x, PIPE)|;
      && (block.Some? ==> b.None? && KindAt(ts, q) == Operator(":") && BlockAt(ts, block.value, lay, q + 1))
      && (b.Some? ==>
            && KindAt(ts, q) == Operator(":") && Reads(ts, b.value, q + 1) && b.value.tree == w.tree.each
            && (b.value.over <==> w.over && !Swallows(w.tree)) && p + |Form(w, PIPE)| == q + 1 + |Form(b.value, PIPE)|)
    ensures block.None? && OpenAt(ts, w, p) && x == Inner(w.tree.iterable) ==> b.Some?
  {
    hide Expects, Form, Raw, OpenAt, Tail, Words, BlockAt, Printable, Print, HeadAt, Proper;
    b := None;
    LoopStarts(ts, w.tree, x, p);
    if block.Some? {
      BlockLoopReads(ts, w.tree, block.value, lay, p);
    } else if OpenAt(ts, w, p) && x == Inner(w.tree.iterable) {
      ForStep(ts, w, p);
      b := Some(Tail(w.tree.each, w));
      TailLines(ts, w, p, w.tree.each);
      TailBare(w.tree.each, w);
    }
  }

  lemma ForWeight(t: Expr, e: Expr)
    requires t.For? && e.For? && Weight(e.each) > Weight(t.each)
    ensures Weight(e) > Weight(t)
  {
  }

  /** The newlines before a block. */
  lemma LeadHere(ts: seq<Token>, ss: seq<Stmt>, lay: Layout, p: nat)
    requires BlockAt(ts, ss, lay, p)
    ensures LinesHere(ts, lay.lead, p) && |lay.gaps| == |ss| && KindAt(ts, p + lay.lead) == Indent
  {
    hide Spelled, Lines, StmtAt;
  }

  /** Behind those newlines the block begins. */
  lemma BlockFrom(ts: seq<Token>, ss: seq<Stmt>, lay: Layout, p: nat)
    requires BlockAt(ts, ss, lay, p)
    ensures BlockAt(ts, ss, Layout(0, lay.gaps), p + lay.lead)
    ensures |lay.gaps| == |ss| && BlockLength(ss, lay) == lay.lead + BlockLength(ss, Layout(0, lay.gaps))
  {
    hide StmtAt;
    assert Lines(0) == [];
  }

  /** What the loop on lines of its own evaluates: its last statement, if that is an expression. */
  function BlockBody(stmts: seq<Stmt>): Expr {
    if stmts != [] && stmts[|stmts| - 1].ExprStmt? then stmts[|stmts| - 1].value else NULL
  }

  /** A loop whose body is a block. */
  ghost predicate BlockLoopAt(ts: seq<Token>, t: Expr, ss: seq<Stmt>, lay: Layout, p: nat) {
    && t.For? && Printable(t.iterable) && HeadAt(ts, t, p) && Spelled(ts, IterableAt(t, p), Print(t.iterable, PIPE))
    && var q := IterableAt(t, p) + |Print(t.iterable, PIPE)|;
    KindAt(ts, q) == Operator(":") && BlockAt(ts, ss, lay, q + 1)
  }

  lemma BlockLoopReads(ts: seq<Token>, t: Expr, ss: seq<Stmt>, lay: Layout, p: nat)
    requires BlockLoopAt(ts, t, ss, lay, p)
    ensures LoopReads(ts, t, Inner(t.iterable), p)
    ensures |Form(Inner(t.iterable), PIPE)| == |Print(t.iterable, PIPE)|
  {
    hide Print, Printable, Spelled, HeadAt, Expects, Form, EndsPlain, StmtsAt, Lines;
    var i := IterableAt(t, p);
    var q := i + |Print(t.iterable, PIPE)|;
    if lay.lead > 0 { FirstLine(ts, q + 1, lay.lead); }
    ColonStops(ts, q, t.iterable);
    InnerAt(ts, t.iterable, PIPE, i, false);
    NoLayoutBefore(ts, Inner(t.iterable), PIPE, i);
    HeadNames(ts, t, p);
  }

  lemma GapTaken(ts: seq<Token>, ss: seq<Stmt>, gaps: seq<nat>, p: nat)
    requires StmtsAt(ts, ss, gaps, p) && ss != []
    ensures var q := p + |StmtTokens(ss[0])|;
      && LinesHere(ts, gaps[0], q) && KindAt(ts, q + gaps[0]) != Newline && StmtsAt(ts, ss[1..], gaps[1..], q + gaps[0])
      && StmtsLength(ss, gaps) == |StmtTokens(ss[0])| + gaps[0] + StmtsLength(ss[1..], gaps[1..])
  {
    hide Spelled, Lines, StmtTokens;
  }

  /** The first statements have been read, each apart from the next. */
  ghost predicate ReadTo(ss: seq<Stmt>, done: seq<Stmt>) {
    && |done| <= |ss| && done == ss[..|done|]
    && forall i :: 0 <= i < |done| && i + 1 < |ss| ==> !Merges(ss[i], ss[i + 1])
  }

  /** One of the statements read is not the one that was written. */
  ghost predicate Strayed(ss: seq<Stmt>, done: seq<Stmt>) {
    !Apart(ss) && exists i :: 0 <= i < |done| && i < |ss| && done[i] != ss[i]
  }

  lemma ReadMore(ss: seq<Stmt>, done: seq<Stmt>, s: Stmt)
    requires ReadTo(ss, done) && |done| < |ss|
    ensures var n := |done|;
      if n + 1 < |ss| && Merges(ss[n], ss[n + 1]) then s != ss[n] ==> Strayed(ss, done + [s])
      else s == ss[n] ==> ReadTo(ss, done + [s])
  {
    hide Merges;
    var n := |done|;
    if n + 1 < |ss| && Merges(ss[n], ss[n + 1]) && s != ss[n] {
      assert (done + [s])[n] != ss[n];
    }
  }

  lemma StrayMore(ss: seq<Stmt>, done: seq<Stmt>, s: Stmt)
    requires Strayed(ss, done)
    ensures Strayed(ss, done + [s]) && done != ss && !Apart(ss)
  {
    hide Apart;
    var i :| 0 <= i < |done| && i < |ss| && done[i] != ss[i];
    assert (done + [s])[i] == done[i];
  }

  lemma ReadAll(ss: seq<Stmt>, done: seq<Stmt>)
    requires ReadTo(ss, done) && |done| == |ss|
    ensures Apart(ss) && done == ss
  {
    hide Merges;
  }

  lemma ReadNone(ss: seq<Stmt>)
    ensures ReadTo(ss, [])
  {
    hide Merges;
  }

  lemma RestOf<T>(s: seq<T>, n: nat)
    ensures s[0..] == s && (n < |s| ==> s[n..] != [] && s[n..][0] == s[n] && s[n..][1..] == s[n + 1..])
    ensures n < |s| - 1 ==> s[n..][1] == s[n + 1]
    ensures n <= |s| ==> |s[n..]| == |s| - n
  {
  }

  /** Of a list, what is behind and what is still to come. */
  predicate Parts<T(==)>(all: seq<T>, done: seq<T>, rest: seq<T>) {
    done + rest == all
  }

  lemma NoneBehind<T>(all: seq<T>)
    ensures Parts(all, [], all)
  {
  }

  /** One more of the list is behind. */
  lemma MoveOne<T>(all: seq<T>, done: seq<T>, rest: seq<T>)
    requires Parts(all, done, rest)
    ensures rest == [] ==> done == all
    ensures rest != [] ==> Parts(all, done + [rest[0]], rest[1..])
  {
  }

  // ----- types -----

  function ArrayTokens(isArray: bool): seq<Token> {
    if isArray then [Op("["), Op("]")] else []
  }

  function TypeTokens(t: TypeName): seq<Token>
    decreases t, 1
  {
    match t
    case Named(n, a) => [Id(n)] + ArrayTokens(a)
    case Record(fs, a) => [Kw("record"), Op("{")] + (TypedTokens(fs) + ([Op("}")] + ArrayTokens(a)))
  }

  function TypedTokens(fs: seq<FieldType>): seq<Token>
    decreases fs, 0
  {
    if fs == [] then []
    else TypedHead(fs[0]) + (TypeTokens(fs[0].kind) + if |fs| == 1 then [] else [Op(",")] + TypedTokens(fs[1..]))
  }

  function TypedHead(f: FieldType): seq<Token> {
    if f.optional then [Id(f.name), Op("?"), Op(":")] else [Id(f.name), Op(":")]
  }

  ghost predicate ArrayAt(ts: seq<Token>, isArray: bool, p: nat) {
    if isArray then KindAt(ts, p) == Operator("[") && KindAt(ts, p + 1) == Operator("]") else KindAt(ts, p) != Operator("[")
  }

  ghost predicate TypeAt(ts: seq<Token>, t: TypeName, p: nat) {
    Spelled(ts, p, TypeTokens(t)) && (!t.isArray ==> KindAt(ts, p + |TypeTokens(t)|) != Operator("["))
  }

  ghost predicate TypedAt(ts: seq<Token>, fs: seq<FieldType>, p: nat) {
    Spelled(ts, p, TypedTokens(fs)) && KindAt(ts, p + |TypedTokens(fs)|) == Operator("}")
  }

  lemma ArrayHere(ts: seq<Token>, t: TypeName, p: nat)
    requires Spelled(ts, p, ArrayTokens(t.isArray)) && (!t.isArray ==> KindAt(ts, p + |ArrayTokens(t.isArray)|) != Operator("["))
    ensures ArrayAt(ts, t.isArray, p)
  {
    if t.isArray {
      assert ts[p] == ts[p..p + 2][0] && ts[p + 1] == ts[p..p + 2][1];
    }
  }

  lemma TypeParts(ts: seq<Token>, t: TypeName, p: nat)
    requires TypeAt(ts, t, p)
    ensures t.Named? ==> p < |ts| && ts[p] == Id(t.name) && ArrayAt(ts, t.isArray, p + 1)
    ensures t.Named? ==> |TypeTokens(t)| == 1 + |ArrayTokens(t.isArray)|
    ensures t.Record? ==> var q := p + 2 + |TypedTokens(t.fields)|;
      && KindAt(ts, p) == Keyword("record") && KindAt(ts, p + 1) == Operator("{")
      && TypedAt(ts, t.fields, p + 2) && ArrayAt(ts, t.isArray, q + 1)
      && |TypeTokens(t)| == 3 + |TypedTokens(t.fields)| + |ArrayTokens(t.isArray)|
  {
    hide Spelled, TypedTokens, ArrayTokens;
    var a := ArrayTokens(t.isArray);
    if t.Named? {
      AtCons(ts, p, Id(t.name), a);
      ArrayHere(ts, t, p + 1);
    } else {
      var f := TypedTokens(t.fields);
      AtTwo(ts, p, Kw("record"), Op("{"), f + ([Op("}")] + a));
      AtCat(ts, p + 2, f, [Op("}")] + a);
      AtCons(ts, p + 2 + |f|, Op("}"), a);
      ArrayHere(ts, t, p + 3 + |f|);
    }
  }

  ghost predicate FieldTypeAt(ts: seq<Token>, f: FieldType, p: nat) {
    && p < |ts| && ts[p] == Id(f.name)
    && (if f.optional then KindAt(ts, p + 1) == Operator("?") && KindAt(ts, p + 2) == Operator(":") else KindAt(ts, p + 1) == Operator(":"))
    && TypeAt(ts, f.kind, p + |TypedHead(f)|)
  }

  ghost predicate TypedNext(ts: seq<Token>, fs: seq<FieldType>, p: nat)
    requires fs != []
  {
    var f := fs[0];
    var i := p + |TypedHead(f)|;
    var q := i + |TypeTokens(f.kind)|;
    && FieldTypeAt(ts, f, p)
    && (if |fs| == 1 then KindAt(ts, q) == Operator("}") && |TypedTokens(fs)| == q - p
        else KindAt(ts, q) == Operator(",") && TypedAt(ts, fs[1..], q + 1) && |TypedTokens(fs)| == q + 1 - p + |TypedTokens(fs[1..])|)
  }

  lemma {:induction false} TypedStep(ts: seq<Token>, fs: seq<FieldType>, p: nat)
    requires TypedAt(ts, fs, p)
    ensures if fs == [] then KindAt(ts, p) == Operator("}") && |TypedTokens(fs)| == 0 else TypedNext(ts, fs, p)
  {
    hide Spelled, TypeTokens, TypedTokens, TypedHead, MoreTyped;
    TypedSplit(fs);
    if fs != [] {
      var f, k, rest := fs[0], TypeTokens(fs[0].kind), MoreTyped(fs);
      AtCat(ts, p, TypedHead(f), k + rest);
      var i := p + |TypedHead(f)|;
      AtCat(ts, i, k, rest);
      TypedHeadAt(ts, f, p);
      MoreTypedAt(ts, fs, i + |k|);
    }
  }

  function MoreTyped(fs: seq<FieldType>): seq<Token>
    requires fs != []
  {
    if |fs| == 1 then [] else [Op(",")] + TypedTokens(fs[1..])
  }

  lemma TypedSplit(fs: seq<FieldType>)
    ensures fs == [] ==> TypedTokens(fs) == []
    ensures fs != [] ==> TypedTokens(fs) == TypedHead(fs[0]) + (TypeTokens(fs[0].kind) + MoreTyped(fs))
  {
    hide TypeTokens, TypedHead;
  }

  lemma MoreTypedAt(ts: seq<Token>, fs: seq<FieldType>, q: nat)
    requires fs != [] && Spelled(ts, q, MoreTyped(fs)) && KindAt(ts, q + |MoreTyped(fs)|) == Operator("}")
    ensures if |fs| == 1 then KindAt(ts, q) == Operator("}") && |MoreTyped(fs)| == 0
            else KindAt(ts, q) == Operator(",") && TypedAt(ts, fs[1..], q + 1) && |MoreTyped(fs)| == 1 + |TypedTokens(fs[1..])|
  {
    hide Spelled, TypedTokens;
    if |fs| > 1 { AtCons(ts, q, Op(","), TypedTokens(fs[1..])); }
  }

  lemma TypedBegin(ts: seq<Token>, fs: seq<FieldType>, p: nat)
    requires TypedAt(ts, fs, p)
    ensures KindAt(ts, p) == if fs == [] then Operator("}") else Ident
    ensures fs == [] ==> |TypedTokens(fs)| == 0
  {
    hide TypedAt, TypedTokens, TypeAt, TypeTokens;
    TypedStep(ts, fs, p);
  }

  lemma TypedHeadAt(ts: seq<Token>, f: FieldType, p: nat)
    requires Spelled(ts, p, TypedHead(f))
    ensures p < |ts| && ts[p] == Id(f.name)
    ensures if f.optional then KindAt(ts, p + 1) == Operator("?") && KindAt(ts, p + 2) == Operator(":") else KindAt(ts, p + 1) == Operator(":")
  {
    var h := TypedHead(f);
    assert ts[p] == ts[p..p + |h|][0] && ts[p + 1] == ts[p..p + |h|][1];
    if f.optional { assert ts[p + 2] == ts[p..p + |h|][2]; }
  }

  lemma TypeBegins(ts: seq<Token>, t: TypeName, p: nat)
    requires TypeAt(ts, t, p)
    ensures KindAt(ts, p) in {Ident, Keyword("record")} && (KindAt(ts, p) == Keyword("record") <==> t.Record?)
  {
    hide TypeAt, TypeTokens, ArrayAt;
    TypeParts(ts, t, p);
  }

  // ----- parameters -----

  function ParamHead(p: ParamDef): seq<Token> {
    if p.variadic then [Op("..."), Id(p.name), Op(":")] else [Id(p.name), Op(":")]
  }

  function DefaultTokens(d: Option<Expr>): seq<Token> {
    if d.Some? then [Op("=")] + Print(d.value, 0) else []
  }

  function ParamDefTokens(ps: seq<ParamDef>): seq<Token> {
    if ps == [] then []
    else ParamHead(ps[0]) + (TypeTokens(ps[0].kind) + (DefaultTokens(ps[0].default) +
         if |ps| == 1 then [] else [Op(",")] + ParamDefTokens(ps[1..])))
  }

  predicate PrintableParams(ps: seq<ParamDef>) {
    forall i :: 0 <= i < |ps| && ps[i].default.Some? ==> Printable(ps[i].default.value)
  }

  ghost predicate ParamDefsAt(ts: seq<Token>, ps: seq<ParamDef>, p: nat) {
    PrintableParams(ps) && Spelled(ts, p, ParamDefTokens(ps)) && KindAt(ts, p + |ParamDefTokens(ps)|) == Operator(")")
  }

  /** One parameter, up to the comma or the parenthesis behind it. */
  ghost predicate ParamAt(ts: seq<Token>, x: ParamDef, p: nat) {
    var i := p + |ParamHead(x)|;
    var d := i + |TypeTokens(x.kind)|;
    && (x.variadic ==> KindAt(ts, p) == Operator("..."))
    && i >= 2 && KindAt(ts, i - 2) == Ident && ts[i - 2].val == x.name && KindAt(ts, i - 1) == Operator(":")
    && TypeAt(ts, x.kind, i)
    && if x.default.None? then KindAt(ts, d) in {Operator(","), Operator(")")}
       else KindAt(ts, d) == Operator("=") && Reads(ts, Whole(x.default.value), d + 1) &&
            KindAt(ts, d + 1 + |Form(Whole(x.default.value), PIPE)|) in {Operator(","), Operator(")")}
  }

  function ParamLength(x: ParamDef): nat {
    |ParamHead(x)| + |TypeTokens(x.kind)| + if x.default.Some? then 1 + |Form(Whole(x.default.value), PIPE)| else 0
  }

  lemma {:induction false} ParamDefStep(ts: seq<Token>, ps: seq<ParamDef>, p: nat)
    requires ParamDefsAt(ts, ps, p)
    ensures ps == [] ==> KindAt(ts, p) == Operator(")") && |ParamDefTokens(ps)| == 0
    ensures ps != [] ==> ParamAt(ts, ps[0], p) && KindAt(ts, p) in {Ident, Operator("...")}
    ensures ps != [] ==> ParamDefsNext(ts, ps, p, p + ParamLength(ps[0]))
  {
    hide Spelled, TypeTokens, Print, Printable, ParamAt, ParamHead, ParamDefTokens, DefaultTokens, MoreParams, PrintableParams, ParamLength;
    ParamDefsSplit(ps);
    if ps != [] {
      var x := ps[0];
      var k, d, rest := TypeTokens(x.kind), DefaultTokens(x.default), MoreParams(ps);
      FourParts(ts, p, ParamHead(x), k, d, rest);
      MoreAt(ts, ps, p + |ParamHead(x)| + |k| + |d|);
      ParamHere(ts, x, p);
    }
  }

  lemma FourParts(ts: seq<Token>, p: nat, a: seq<Token>, b: seq<Token>, c: seq<Token>, d: seq<Token>)
    requires Spelled(ts, p, a + (b + (c + d)))
    ensures Spelled(ts, p, a) && Spelled(ts, p + |a|, b) && Spelled(ts, p + |a| + |b|, c) && Spelled(ts, p + |a| + |b| + |c|, d)
    ensures |a + (b + (c + d))| == |a| + |b| + |c| + |d|
  {
    hide Spelled;
    AtCat(ts, p, a, b + (c + d));
    AtCat(ts, p + |a|, b, c + d);
    AtCat(ts, p + |a| + |b|, c, d);
  }

  function MoreParams(ps: seq<ParamDef>): seq<Token>
    requires ps != []
  {
    if |ps| == 1 then [] else [Op(",")] + ParamDefTokens(ps[1..])
  }

  /** A comma and more parameters, or the end of the list. */
  ghost predicate ParamDefsNext(ts: seq<Token>, ps: seq<ParamDef>, p: nat, q: nat)
    requires ps != []
  {
    if |ps| == 1 then KindAt(ts, q) == Operator(")") && p + |ParamDefTokens(ps)| == q
    else KindAt(ts, q) == Operator(",") && ParamDefsAt(ts, ps[1..], q + 1) && p + |ParamDefTokens(ps)| == q + 1 + |ParamDefTokens(ps[1..])|
  }

  lemma ParamDefsSplit(ps: seq<ParamDef>)
    ensures ps == [] ==> ParamDefTokens(ps) == []
    ensures ps != [] ==>
      ParamDefTokens(ps) == ParamHead(ps[0]) + (TypeTokens(ps[0].kind) + (DefaultTokens(ps[0].default) + MoreParams(ps)))
  {
    hide TypeTokens, DefaultTokens, ParamHead;
  }

  lemma MoreAt(ts: seq<Token>, ps: seq<ParamDef>, q: nat)
    requires ps != [] && PrintableParams(ps) && Spelled(ts, q, MoreParams(ps)) && KindAt(ts, q + |MoreParams(ps)|) == Operator(")")
    ensures if |ps| == 1 then KindAt(ts, q) == Operator(")") && |MoreParams(ps)| == 0
            else KindAt(ts, q) == Operator(",") && ParamDefsAt(ts, ps[1..], q + 1) && |MoreParams(ps)| == 1 + |ParamDefTokens(ps[1..])|
    ensures ps[0].default.Some? ==> Printable(ps[0].default.value)
  {
    hide Spelled, ParamDefTokens, Printable;
    if |ps| > 1 { AtCons(ts, q, Op(","), ParamDefTokens(ps[1..])); }
  }

  lemma ParamHere(ts: seq<Token>, x: ParamDef, p: nat)
    requires Spelled(ts, p, ParamHead(x)) && (x.default.Some? ==> Printable(x.default.value))
    requires var i := p + |ParamHead(x)|; var d := i + |TypeTokens(x.kind)|;
      && Spelled(ts, i, TypeTokens(x.kind)) && Spelled(ts, d, DefaultTokens(x.default))
      && KindAt(ts, d + |DefaultTokens(x.default)|) in {Operator(","), Operator(")")}
    ensures ParamAt(ts, x, p) && KindAt(ts, p) in {Ident, Operator("...")}
    ensures ParamLength(x) == |ParamHead(x)| + |TypeTokens(x.kind)| + |DefaultTokens(x.default)|
  {
    hide Spelled, TypeTokens, ParamHead, Expects, Form, Print, Printable, Proper;
    ParamHeadAt(ts, x, p);
    var d := p + |ParamHead(x)| + |TypeTokens(x.kind)|;
    if x.default.Some? { DefaultAt(ts, x.default.value, d); }
  }

  lemma ParamHeadAt(ts: seq<Token>, x: ParamDef, p: nat)
    requires Spelled(ts, p, ParamHead(x))
    ensures var i := p + |ParamHead(x)|;
      && (if x.variadic then KindAt(ts, p) == Operator("...") else KindAt(ts, p) == Ident)
      && 2 <= i <= |ts| && ts[i - 2] == Id(x.name) && KindAt(ts, i - 1) == Operator(":")
  {
    var h := ParamHead(x);
    var i := p + |h|;
    assert ts[i - 2] == ts[p..i][|h| - 2] && ts[i - 1] == ts[p..i][|h| - 1] && ts[p] == ts[p..i][0];
  }

  lemma DefaultAt(ts: seq<Token>, d: Expr, p: nat)
    requires Printable(d) && Spelled(ts, p, [Op("=")] + Print(d, 0))
    requires KindAt(ts, p + 1 + |Print(d, 0)|) in {Operator(","), Operator(")")}
    ensures KindAt(ts, p) == Operator("=") && Reads(ts, Whole(d), p + 1)
    ensures |DefaultTokens(Some(d))| == 1 + |Form(Whole(d), PIPE)| == 1 + |Print(d, 0)|
  {
    hide Spelled, Print, Printable, Expects, Form, Proper;
    AtCons(ts, p, Op("="), Print(d, 0));
    CloserCloses(ts, p + 1 + |Print(d, 0)|);
    WholeExpects(ts, d, p + 1);
    NoLayoutBefore(ts, Whole(d), PIPE, p + 1);
  }

  // ----- type definitions, headers, whole functions -----

  function TypeDefTokens(d: TypeDef): seq<Token> {
    [Kw("type"), Id(d.name)] + ([Op("=")] + TypeTokens(d.kind))
  }

  /** One definition a line, with `gaps` newlines behind each; then the header. */
  ghost predicate TypeDefsAt(ts: seq<Token>, ds: seq<TypeDef>, gaps: seq<nat>, p: nat)
    decreases |ds|
  {
    |gaps| == |ds| &&
    if ds == [] then KindAt(ts, p) == Keyword("fn")
    else
      var q := p + |TypeDefTokens(ds[0])|;
      && Spelled(ts, p, TypeDefTokens(ds[0])) && gaps[0] > 0 && Spelled(ts, q, Lines(gaps[0]))
      && TypeDefsAt(ts, ds[1..], gaps[1..], q + gaps[0])
  }

  function TypeDefsLength(ds: seq<TypeDef>, gaps: seq<nat>): nat
    requires |gaps| == |ds|
  {
    if ds == [] then 0 else |TypeDefTokens(ds[0])| + gaps[0] + TypeDefsLength(ds[1..], gaps[1..])
  }

  ghost predicate TypeDefAt(ts: seq<Token>, d: TypeDef, p: nat) {
    && KindAt(ts, p) == Keyword("type") && p + 1 < |ts| && ts[p + 1] == Id(d.name) && KindAt(ts, p + 2) == Operator("=")
    && TypeAt(ts, d.kind, p + 3)
  }

  lemma {:induction false} TypeDefsStep(ts: seq<Token>, ds: seq<TypeDef>, gaps: seq<nat>, p: nat)
    requires TypeDefsAt(ts, ds, gaps, p)
    ensures ds == [] ==> KindAt(ts, p) == Keyword("fn") && TypeDefsLength(ds, gaps) == 0
    ensures ds != [] ==>
      var q := p + 3 + |TypeTokens(ds[0].kind)|;
      && TypeDefAt(ts, ds[0], p) && LinesHere(ts, gaps[0], q) && KindAt(ts, q) == Newline
      && TypeDefsAt(ts, ds[1..], gaps[1..], q + gaps[0])
      && p + TypeDefsLength(ds, gaps) == q + gaps[0] + TypeDefsLength(ds[1..], gaps[1..])
  {
    hide Spelled, TypeTokens;
    if ds != [] {
      var k := TypeTokens(ds[0].kind);
      AtTwo(ts, p, Kw("type"), Id(ds[0].name), [Op("=")] + k);
      AtCons(ts, p + 2, Op("="), k);
      var q := p + 3 + |k|;
      FirstLine(ts, q, gaps[0]);
      TypeDefsBegin(ts, ds[1..], gaps[1..], q + gaps[0]);
    }
  }

  lemma TypeDefsSizes(ts: seq<Token>, ds: seq<TypeDef>, gaps: seq<nat>, p: nat)
    requires TypeDefsAt(ts, ds, gaps, p)
    ensures |gaps| == |ds|
  {
  }

  lemma {:induction false} TypeDefsBegin(ts: seq<Token>, ds: seq<TypeDef>, gaps: seq<nat>, p: nat)
    requires TypeDefsAt(ts, ds, gaps, p)
    ensures KindAt(ts, p) == if ds == [] then Keyword("fn") else Keyword("type")
  {
    hide Spelled, TypeTokens, Lines;
    if ds != [] { AtTwo(ts, p, Kw("type"), Id(ds[0].name), [Op("=")] + TypeTokens(ds[0].kind)); }
  }

  function HeaderTokens(f: FnDef): seq<Token> {
    [Kw("fn"), Id(f.name)] + ([Op("(")] + (ParamDefTokens(f.params) + ([Op(")"), Op("->")] + TypeTokens(f.result))))
  }

  ghost predicate HeaderAt(ts: seq<Token>, f: FnDef, p: nat) {
    && PrintableParams(f.params) && Spelled(ts, p, HeaderTokens(f))
    && KindAt(ts, p + |HeaderTokens(f)|) in {Operator("=>"), Operator(":")}
  }

  lemma HeaderParts(ts: seq<Token>, f: FnDef, p: nat)
    requires HeaderAt(ts, f, p)
    ensures var q := p + 3 + |ParamDefTokens(f.params)|;
      && KindAt(ts, p) == Keyword("fn") && p + 1 < |ts| && ts[p + 1] == Id(f.name) && KindAt(ts, p + 2) == Operator("(")
      && ParamDefsAt(ts, f.params, p + 3) && KindAt(ts, q) == Operator(")") && KindAt(ts, q + 1) == Operator("->")
      && TypeAt(ts, f.result, q + 2) && p + |HeaderTokens(f)| == q + 2 + |TypeTokens(f.result)|
  {
    hide Spelled, TypeTokens, ParamDefTokens, PrintableParams;
    var ps, k := ParamDefTokens(f.params), TypeTokens(f.result);
    var tail := [Op(")"), Op("->")] + k;
    AtTwo(ts, p, Kw("fn"), Id(f.name), [Op("(")] + (ps + tail));
    AtCons(ts, p + 2, Op("("), ps + tail);
    AtCat(ts, p + 3, ps, tail);
    AtTwo(ts, p + 3 + |ps|, Op(")"), Op("->"), k);
  }

  /** A body is one expression, behind which the newlines stand that it takes, or a block
      behind a colon or an arrow. */
  datatype Shape = OneLine(lines: nat) | Block(arrow: bool, lay: Layout)

  ghost predicate BodyAt(ts: seq<Token>, body: seq<Stmt>, shape: Shape, p: nat) {
    match shape
    case OneLine(n) =>
      && KindAt(ts, p) == Operator("=>") && |body| == 1 && body[0].ExprStmt?
      && var e := body[0].value; var q := p + 1 + |Print(e, 0)|;
      && Printable(e) && Spelled(ts, p + 1, Print(e, 0)) && Followed(ts, e, q, n) && GrowLevel(KindAt(ts, q + n)) < 0
    case Block(arrow, lay) =>
      KindAt(ts, p) == (if arrow then Operator("=>") else Operator(":")) && BlockAt(ts, body, lay, p + 1)
  }

  lemma OneLineAt(ts: seq<Token>, body: seq<Stmt>, n: nat, p: nat)
    requires BodyAt(ts, body, OneLine(n), p)
    ensures |body| == 1 && body[0].ExprStmt? && Apart(body)
    ensures var w := Laid(ts, body[0].value, p + 1 + |Print(body[0].value, 0)|, n);
      Reads(ts, w, p + 1) && w.tree == body[0].value && !w.over && KindAt(ts, p + 1) != Indent
  {
    hide Print, Printable, Spelled, Followed, Expects, Form, GrowLevel;
    var e := body[0].value;
    LaidAt(ts, e, p + 1, n);
    NoLayoutBefore(ts, Laid(ts, e, p + 1 + |Print(e, 0)|, n), PIPE, p + 1);
  }

  /** A whole function: type definitions, header and body. */
  ghost predicate FunctionAt(ts: seq<Token>, f: FnDef, gaps: seq<nat>, shape: Shape, p: nat) {
    && TypeDefsAt(ts, f.types, gaps, p)
    && var q := p + TypeDefsLength(f.types, gaps);
    HeaderAt(ts, f, q) && BodyAt(ts, f.body, shape, q + |HeaderTokens(f)|)
  }
}
