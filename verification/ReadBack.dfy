/** From text to tree and from tree to text and back. */
module ReadBack {
  import opened Wrappers
  import opened Tokens
  import opened Scan
  import opened Lexer
  import opened Rendering
  import opened Writing
  import opened Grammar
  import opened Reading
  import opened Shapes
  import opened OpenTrees
  import opened Steps
  import opened Functions
  import P = Parser

  predicate AllConvert(ts: seq<Token>, converts: string -> bool) {
    forall i :: 0 <= i < |ts| && ts[i].kind in {Int, Float} ==> converts(ts[i].val)
  }

  /** The parser on a token list, as far as it reads.  Any printable tree that the list begins
      with, its connectives as words or as symbols, comes back, without errors, whatever stands
      after it, as long as that does not belong to the tree; a tree that ends in an `if` without
      `else`, or in a `match`, takes the `n` newlines after it too, and if an operator stands
      behind those, a tree with more in it comes back. */
  method ParseTokens(ts: seq<Token>, converts: string -> bool, ghost t: Option<Expr>, ghost n: nat)
      returns (e: Expr, end: nat, errors: seq<nat>)
    requires t.Some? ==> Printable(t.value) && Print(t.value, 0) <= Symbols(ts) && AllConvert(ts, converts)
    requires t.Some? ==> Followed(Symbols(ts), t.value, |Print(t.value, 0)|, n)
    ensures end > 0
    ensures t.Some? ==>
      if n > 0 && GrowLevel(KindAt(Symbols(ts), |Print(t.value, 0)| + n)) >= 0 then Weight(e) > Weight(t.value)
      else e == t.value && end == |Print(t.value, 0)| + n && errors == []
  {
    hide Print, Printable, Followed, Expects, Form, GrowLevel, Weight, Symbols;
    ghost var want: Option<Want>, us := None, Symbols(ts);
    if t.Some? {
      assert Spelled(us, 0, Print(t.value, 0));
      LaidAt(us, t.value, 0, n);
      want := Some(Laid(us, t.value, |Print(t.value, 0)|, n));
      TreeIsNotLaidOut(us, want.value);
    }
    SymbolsConvert(ts, converts);
    var p := new P.Parser(ts, converts);
    p.SkipNewlines();
    e := p.ParseExpr(want);
    end, errors := p.pos, p.errors;
  }

  lemma SymbolsConvert(ts: seq<Token>, converts: string -> bool)
    ensures AllConvert(Symbols(ts), converts) <==> AllConvert(ts, converts)
  {
    assert forall i :: 0 <= i < |ts| ==> Symbols(ts)[i] == Symbol(ts[i]);
  }

  lemma TreeIsNotLaidOut(ts: seq<Token>, w: Want)
    requires Expects(ts, w, PIPE, 0)
    ensures ts != [] && !ts[0].kind.Newline?
  {
    hide Expects;
    NoLayoutBefore(ts, w, PIPE, 0);
  }

  /** A text as an expression on its own: the errors of the tokenizer, then those of the
      parser. */
  method ParseExpression(src: string, converts: string -> bool, ghost t: Option<Expr>)
      returns (e: Expr, lexical: nat, errors: seq<nat>)
    requires t.Some? ==> (src == "" || !IsBlank(src[0])) && LineTokens(src, 0).Some? && AllConvert(LineTokens(src, 0).value, converts)
    requires t.Some? ==> Printable(t.value) && Symbols(LineTokens(src, 0).value) == Print(t.value, 0)
    ensures t.Some? ==> e == t.value && lexical == 0 && errors == []
  {
    hide Print, Printable, LineTokens, Balance, Nested;
    var tokens;
    tokens, lexical := Tokenize(src);
    if t.Some? {
      EndStops(Print(t.value, 0), t.value);
      SymbolsAtEnd(LineTokens(src, 0).value);
    }
    var end;
    e, end, errors := ParseTokens(tokens, converts, t, 0);
  }

  lemma SymbolsAtEnd(ts: seq<Token>)
    ensures Symbols(ts + [Token(EOF, "")]) == Symbols(ts) + [Token(EOF, "")]
  {
  }

  /** The end of the input goes on with nothing. */
  lemma EndStops(ts: seq<Token>, t: Expr)
    ensures Stops(ts + [Token(EOF, "")], |ts|, Whole(t), PIPE)
  {
    hide Stops;
    ClosesStops(ts + [Token(EOF, "")], |ts|, t);
  }

  /** Tokens that spell a tree, written on one line with its connectives as words or as
      symbols: parsing the text gives the tree. */
  method ParseWritten(ts: seq<Token>, converts: string -> bool, ghost t: Expr) returns (e: Expr, lexical: nat, errors: seq<nat>)
    requires AllRenderable(ts) && AllConvert(ts, converts) && Printable(t) && Symbols(ts) == Print(t, 0)
    ensures e == t && lexical == 0 && errors == []
  {
    hide Print, Printable, RenderLine, Renderable, LineTokens;
    var src := RenderLine(ts);
    assert LineAt(src, 0, ts) by { assert src[0..0 + |src|] == src; }
    Begins(t, 0);
    assert ts != [];
    hide Symbols;
    LineReadsBack(src, 0, ts);
    e, lexical, errors := ParseExpression(src, converts, Some(t));
  }

  /** Writing any printable tree whose names and literals can be written on one line and
      parsing the line gives the tree back. */
  method RoundTrip(t: Expr, converts: string -> bool) returns (e: Expr, lexical: nat, errors: seq<nat>)
    requires Printable(t) && Writable(t) && AllConvert(Print(t, 0), converts)
    ensures e == t && lexical == 0 && errors == []
  {
    hide Print, Printable, Writable, Renderable, Symbols;
    PrintWrites(t, 0);
    AreSymbols(Print(t, 0));
    e, lexical, errors := ParseWritten(Print(t, 0), converts, t);
  }

  lemma AreSymbols(ts: seq<Token>)
    requires AllWrite(ts)
    ensures Symbols(ts) == ts && AllRenderable(ts)
  {
    hide Renderable;
    assert forall i :: 0 <= i < |ts| ==> Writes(ts[i]);
  }

  // ----- loops that are read as something else -----

  /** A loop of printable parts, with nothing after it that could belong to it, comes back if
      and only if not both its iterable ends in a plain name and its body begins with a
      namespaced one. */
  method ParseLoop(ts: seq<Token>, converts: string -> bool, ghost t: Expr) returns (e: Expr, end: nat, errors: seq<nat>)
    requires t.For? && Printable(t.iterable) && Printable(t.each) && Raw(t) <= Symbols(ts) && AllConvert(ts, converts)
    requires Stops(Symbols(ts), |Raw(t)|, Whole(t), PIPE) && ts != [] && ts[0].kind == Keyword("for")
    ensures e == t && end == |Raw(t)| && errors == [] <==> !(EndsPlain(t.iterable, PIPE) && StartsScoped(t.each))
    ensures EndsPlain(t.iterable, PIPE) && StartsScoped(t.each) ==> e != t
  {
    hide Raw, Print, Printable, Stops, EndsPlain, StartsScoped, Expects, Form, HeadAt, Symbols;
    ghost var us := Symbols(ts);
    SymbolsConvert(ts, converts);
    assert Spelled(us, 0, Raw(t));
    ghost var x := Inner(t.iterable);
    if EndsPlain(t.iterable, PIPE) && StartsScoped(t.each) {
      x := Misnamed(t.iterable);
      MisreadStep(us, t, 0);
    } else {
      LoopPrintable(t);
      LoopAt(us, t);
      ForStep(us, Whole(t), 0);
    }
    var p := new P.Parser(ts, converts);
    e := p.ParseFor(Some(Whole(t)), Some(x), None, Layout(0, []));
    end, errors := p.pos, p.errors;
  }

  lemma LoopAt(ts: seq<Token>, t: Expr)
    requires t.For? && Printable(t) && Spelled(ts, 0, Raw(t)) && Stops(ts, |Raw(t)|, Whole(t), PIPE)
    ensures OpenAt(ts, Whole(t), 0) && Form(Whole(t), PIPE) == Raw(t)
  {
    hide Raw, Printable, Spelled, Stops;
  }

  lemma LoopPrintable(t: Expr)
    requires t.For? && Printable(t.iterable) && Printable(t.each) && !(EndsPlain(t.iterable, PIPE) && StartsScoped(t.each))
    ensures Printable(t)
  {
    hide EndsPlain, StartsScoped;
  }

  /** `xs: math::f(x)`, one scoped name with its argument. */
  const TAKEN: Expr := Call(Name("xs", Some("math"), ["f"]), [Var(Name("x", None, []))])

  const TAKEN_TOKENS: seq<Token> := [Id("xs"), Op(":"), Id("math"), Op("::"), Id("f"), Op("("), Id("x"), Op(")")]

  /** `for x in xs: math::f(x)` at the end of the input loses its colon to the iterable. */
  method ScopedBodyExample(converts: string -> bool) returns (e: Expr, errors: seq<nat>)
    ensures e.For? && e.variable == "x" && e.iterable == TAKEN && errors != []
  {
    hide LoopReads, Expects, Form, Print, Raw, Printable, LoopTokens, OpenAt, HeadAt, IterableAt;
    var ts := LoopTokens();
    ghost var t := For("x", "", TAKEN, NULL);
    TakenReads(ts, t);
    LoopSymbols();
    var p := new P.Parser(ts, converts);
    e := p.ParseFor(Some(Whole(t)), Some(Inner(TAKEN)), None, Layout(0, []));
    errors := p.errors;
  }

  function LoopTokens(): (ts: seq<Token>)
  {
    [Kw("for"), Id("x"), Kw("in")] + TAKEN_TOKENS + [Token(EOF, "")]
  }

  lemma LoopSymbols()
    ensures Symbols(LoopTokens()) == LoopTokens()
  {
  }

  lemma TakenName()
    ensures NameTokens(TAKEN.callee) == TAKEN_TOKENS[..5]
  {
    hide Print, Raw;
    assert SegTokens(["f"]) == [Op("::"), Id("f")];
  }

  lemma TakenArgument()
    ensures ListTokens(TAKEN.args) == [Id("x")]
  {
    hide Printable, Expects, Starts, Form;
    var x := TAKEN.args[0];
    assert NameTokens(x.name) == [Id("x")];
    assert Print(x, PIPE) == [Id("x")];
  }

  lemma TakenPrints()
    ensures Print(TAKEN, PIPE) == TAKEN_TOKENS
  {
    hide ListTokens, NameTokens, Printable;
    TakenName();
    TakenArgument();
    assert TAKEN_TOKENS == TAKEN_TOKENS[..5] + [Op("(")] + [Id("x")] + [Op(")")];
  }

  lemma TakenReads(ts: seq<Token>, t: Expr)
    requires ts == LoopTokens() && t == For("x", "", TAKEN, NULL)
    ensures ts != [] && ts[0].kind == Keyword("for") && forall i :: 0 <= i < |ts| ==> ts[i].kind !in {Int, Float}
    ensures LoopReads(ts, t, Inner(TAKEN), 0) && IterableAt(t, 0) == 3
    ensures KindAt(ts, 3 + |Form(Inner(TAKEN), PIPE)|) == EOF
  {
    hide Print, Raw, Expects, Starts, Form, Printable;
    TakenPrints();
    TakenPrintable();
    assert ts[3..11] == TAKEN_TOKENS;
    InnerExpects(ts, TAKEN, PIPE, 3);
    NoLayoutBefore(ts, Inner(TAKEN), PIPE, 3);
  }

  lemma TakenPrintable()
    ensures Printable(TAKEN)
  {
  }

  /** A loop whose body is a block comes back with the last statement of the block, or null
      if that is no expression; the statements before it are gone, without an error. */
  method ParseBlockLoop(ts: seq<Token>, converts: string -> bool, ghost t: Expr, ghost ss: seq<Stmt>, ghost lay: Layout)
      returns (e: Expr, errors: seq<nat>)
    requires BlockLoopAt(Symbols(ts), t, ss, lay, 0) && AllConvert(ts, converts)
    ensures Apart(ss) ==> errors == [] && e == For(t.variable, t.position, t.iterable,
      if ss != [] && ss[|ss| - 1].ExprStmt? then ss[|ss| - 1].value else Lit(Keyword("null"), "null"))
  {
    hide BlockAt, Printable, Print, Spelled, LoopReads, Apart, Symbols;
    SymbolsConvert(ts, converts);
    BlockLoopReads(Symbols(ts), t, ss, lay, 0);
    var p := new P.Parser(ts, converts);
    e := p.ParseFor(Some(Whole(t)), Some(Inner(t.iterable)), Some(ss), lay);
    errors := p.errors;
  }

  // ----- functions, and lines that are read as one -----

  /** A whole function on a token list comes back, without errors, if and only if no statement
      of its body is read as a part of the one before it. */
  method ParseDefinition(ts: seq<Token>, converts: string -> bool, ghost f: Option<FnDef>, ghost gaps: seq<nat>, ghost shape: Shape)
      returns (g: FnDef, errors: seq<nat>)
    requires f.Some? ==> FunctionAt(Symbols(ts), f.value, gaps, shape, 0) && AllConvert(ts, converts)
    ensures f.Some? ==> (g == f.value && errors == [] <==> Apart(f.value.body))
    ensures f.Some? && !Apart(f.value.body) ==> g != f.value
  {
    hide FunctionAt, Apart, Symbols;
    SymbolsConvert(ts, converts);
    var p := new P.Parser(ts, converts);
    g := p.ParseFunction(f, gaps, shape);
    errors := p.errors;
  }

  /** `if c then d` */
  const BRANCH: Stmt := ExprStmt(If(Var(Name("c", None, [])), Var(Name("d", None, [])), None))

  /** `[x]` */
  const SHORT_LIST: Stmt := ExprStmt(Array([Var(Name("x", None, []))]))

  const TWO_LINES: seq<Stmt> := [BRANCH, SHORT_LIST]

  const TWO_LINES_TOKENS: seq<Token> :=
    [Token(Indent, ""), Kw("if"), Id("c"), Kw("then"), Id("d"), NEWLINE, Op("["), Id("x"), Op("]"), NEWLINE, Token(Dedent, ""), Token(EOF, "")]

  /** The second of two lines, `[x]` behind `if c then d`, is read as a part of the first. */
  method MergedLinesExample(converts: string -> bool) returns (stmts: seq<Stmt>)
    ensures stmts != TWO_LINES
  {
    hide BlockAt, Apart;
    TwoLinesSpelled();
    TwoLinesMerge();
    assert Symbols(TWO_LINES_TOKENS) == TWO_LINES_TOKENS;
    var p := new P.Parser(TWO_LINES_TOKENS, converts);
    stmts := p.ParseBlock(Some(TWO_LINES), Layout(0, [1, 1]));
  }

  lemma TwoLinesMerge()
    ensures !Apart(TWO_LINES)
  {
    hide Printable;
    assert Print(SHORT_LIST.value, 0)[0] == Op("[");
    assert Merges(TWO_LINES[0], TWO_LINES[1]);
  }

  lemma PrintVar(x: string, l: nat)
    requires l <= PRIMARY
    ensures Print(Var(Name(x, None, [])), l) == [Id(x)] && Printable(Var(Name(x, None, [])))
  {
    var n := Name(x, None, []);
    assert NameTokens(n) == [Id(x)];
    assert Raw(Var(n)) == [Id(x)];
  }

  lemma TwoLinesTokens()
    ensures StmtTokens(BRANCH) == [Kw("if"), Id("c"), Kw("then"), Id("d")] && PrintableStmt(BRANCH)
    ensures StmtTokens(SHORT_LIST) == [Op("["), Id("x"), Op("]")] && PrintableStmt(SHORT_LIST)
  {
    PrintVar("c", PIPE);
    PrintVar("d", OPEN);
    PrintVar("x", OPEN);
    var c, d, x := Var(Name("c", None, [])), Var(Name("d", None, [])), Var(Name("x", None, []));
    assert BRANCH.value == If(c, d, None) && SHORT_LIST.value == Array([x]);
    hide NameTokens;
    assert Raw(BRANCH.value) == [Kw("if")] + (Print(c, PIPE) + ([Kw("then")] + Print(d, 0)));
    assert ListTokens([x]) == Print(x, 0);
    assert Raw(SHORT_LIST.value) == [Op("[")] + (ListTokens([x]) + [Op("]")]);
    assert PrintableAll([x]) && Printable(SHORT_LIST.value) by { assert [x][1..] == []; }
  }

  lemma TwoLinesSpelled()
    ensures BlockAt(TWO_LINES_TOKENS, TWO_LINES, Layout(0, [1, 1]), 0)
    ensures forall i :: 0 <= i < |TWO_LINES_TOKENS| ==> TWO_LINES_TOKENS[i].kind !in {Int, Float}
  {
    TwoLinesTokens();
    hide Print, Printable, StmtTokens, PrintableStmt;
    var ts := TWO_LINES_TOKENS;
    assert Lines(1) == [NEWLINE] && Lines(0) == [];
    assert ts[1..5] == StmtTokens(BRANCH) && ts[5..6] == [NEWLINE];
    assert ts[6..9] == StmtTokens(SHORT_LIST) && ts[9..10] == [NEWLINE];
    assert StmtAt(ts, BRANCH, 1, 1) && StmtAt(ts, SHORT_LIST, 6, 1);
    assert TWO_LINES[1..] == [SHORT_LIST] && [1, 1][1..] == [1] && [SHORT_LIST][1..] == [] && [1][1..] == [];
    var none: seq<Stmt>, gaps: seq<nat> := [], [];
    assert StmtsAt(ts, none, gaps, 10);
    assert StmtsAt(ts, [SHORT_LIST], [1], 6);
  }
}
