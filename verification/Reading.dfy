/** Where in a token list a tree is spelled, and what the parser finds there step by step. */
module Reading {
  import opened Wrappers
  import opened Tokens
  import opened Grammar

  ghost predicate Spelled(ts: seq<Token>, p: nat, s: seq<Token>) {
    p + |s| <= |ts| && ts[p..p + |s|] == s
  }

  lemma AtCat(ts: seq<Token>, p: nat, a: seq<Token>, b: seq<Token>)
    requires Spelled(ts, p, a + b)
    ensures Spelled(ts, p, a) && Spelled(ts, p + |a|, b) && |a + b| == |a| + |b|
  {
    assert ts[p..p + |a|] == (a + b)[..|a|] == a;
    assert ts[p + |a|..p + |a| + |b|] == (a + b)[|a|..] == b;
  }

  lemma AtCons(ts: seq<Token>, p: nat, x: Token, s: seq<Token>)
    requires Spelled(ts, p, [x] + s)
    ensures p < |ts| && ts[p] == x && Spelled(ts, p + 1, s) && |[x] + s| == 1 + |s|
  {
    AtCat(ts, p, [x], s);
    assert ts[p..p + 1][0] == x;
  }

  lemma AtTwo(ts: seq<Token>, p: nat, x: Token, y: Token, s: seq<Token>)
    requires Spelled(ts, p, [x, y] + s)
    ensures p + 1 < |ts| && ts[p] == x && ts[p + 1] == y && Spelled(ts, p + 2, s) && |[x, y] + s| == 2 + |s|
  {
    assert [x, y] + s == [x] + ([y] + s);
    AtCons(ts, p, x, [y] + s);
    AtCons(ts, p + 1, y, s);
  }

  lemma AtJoin(ts: seq<Token>, p: nat, a: seq<Token>, b: seq<Token>)
    requires Spelled(ts, p, a) && Spelled(ts, p + |a|, b)
    ensures Spelled(ts, p, a + b) && |a + b| == |a| + |b|
  {
  }

  lemma AtLast(ts: seq<Token>, p: nat, a: seq<Token>, x: Token)
    requires Spelled(ts, p, a + [x])
    ensures Spelled(ts, p, a) && p + |a| < |ts| && ts[p + |a|] == x && |a + [x]| == |a| + 1
  {
    AtCat(ts, p, a, [x]);
    assert ts[p + |a|..p + |a| + 1][0] == x;
  }

  // ----- how printed trees begin -----

  predicate OpensTree(k: TokenType) {
    k in {Keyword("if"), Keyword("match"), Keyword("try"), Keyword("for"), Keyword("raise")}
  }

  /** A token that a tree of level `l` can begin with. */
  predicate Starts(k: TokenType, l: nat) {
    || LitKind(k) || k.Ident? || k in {Operator("("), Operator("["), Operator("{"), Keyword("query"), StringStart}
    || (l <= NEG && k == Operator("-")) || (l <= NOT && k == Logic(Negation, false))
    || (l == OPEN && OpensTree(k))
  }

  lemma StartsMore(k: TokenType, l: nat, m: nat)
    requires Starts(k, l) && m <= l
    ensures Starts(k, m)
  {
  }

  lemma {:induction false} Begins(t: Expr, l: nat)
    requires Printable(t) && l <= PRIMARY
    ensures Print(t, l) != [] && Starts(Print(t, l)[0].kind, l)
    ensures Raw(t) != [] && Starts(Raw(t)[0].kind, Level(t))
    decreases t
  {
    if Chain(t) {
      Begins(First(t), Level(t));
    } else {
      match t {
        case Bin(op, a, _) => Begins(a, ADD); StartsMore(Print(a, ADD)[0].kind, ADD, COMPARE);
        case _ =>
      }
    }
    if l <= Level(t) { StartsMore(Raw(t)[0].kind, Level(t), l); }
  }

  /** After a name at the very front neither a comma comes nor a closing parenthesis. */
  predicate NoList(k: TokenType) {
    k != Operator(",") && k != Operator(")")
  }

  lemma SuffixBegins(t: Expr)
    requires Printable(t) && Chain(t)
    ensures Suffix(t) != [] && NoList(Suffix(t)[0].kind)
  {
    hide Print, ListTokens;
  }

  predicate FrontNoList(t: Expr) {
    Raw(t) != [] && Raw(t)[0].kind.Ident? ==> if |Raw(t)| == 1 then t.Var? else NoList(Raw(t)[1].kind)
  }

  lemma FrontGrows(t: Expr, a: Expr, l: nat, s: seq<Token>)
    requires Raw(t) == Print(a, l) + s && s != [] && NoList(s[0].kind) && Raw(a) != [] && FrontNoList(a)
    ensures FrontNoList(t)
  {
    hide Raw, Chain;
    if Level(a) < l {
      assert Raw(t)[0] == Op("(");
    } else {
      assert Raw(t)[0] == Raw(a)[0];
      assert Raw(t)[1] == if |Raw(a)| == 1 then s[0] else Raw(a)[1];
    }
  }

  lemma FrontOfName(n: Name, s: seq<Token>)
    ensures var r := NameTokens(n) + s; |r| >= 2 && s != [] && NoList(s[0].kind) ==> NoList(r[1].kind)
    ensures |NameTokens(n)| >= 2 ==> NoList(NameTokens(n)[1].kind)
  {
    if n.scope.None? && n.rest != [] {
      assert SegTokens(n.rest)[0] == Op("::");
      assert (ScopeTokens(n) + SegTokens(n.rest))[0] == Op("::");
    }
  }

  lemma {:induction false} Front(t: Expr)
    requires Printable(t)
    ensures FrontNoList(t)
    decreases t
  {
    if Chain(t) {
      Front(First(t)); Begins(First(t), 0); SuffixBegins(t);
      FrontGrows(t, First(t), Level(t), Suffix(t));
    } else {
      hide Print, ListTokens, FieldTokens, ArmTokens, ParamTokens, NameTokens;
      match t {
        case Bin(op, a, r) =>
          Front(a); Begins(a, 0);
          FrontGrows(t, a, ADD, [OpToken(op)] + Print(r, ADD));
        case Var(n) => FrontOfName(n, []);
        case Call(n, es) => FrontOfName(n, [Op("(")] + (ListTokens(es) + [Op(")")]));
        case _ =>
      }
    }
  }

  // ----- a tree at a place -----

  const NEWLINE: Token := Token(Newline, "\n")

  function Lines(n: nat): (s: seq<Token>)
    ensures |s| == n
  {
    if n == 0 then [] else [NEWLINE] + Lines(n - 1)
  }

  /** A tree together with how it is written: bare, or with parentheses where the level asks.
      After some bare trees `lines` newlines are taken in search of more.  `over` says that the
      parser will read past the tree: what follows makes the plain name at its end a scoped
      one, or goes on with the tree after the newlines. */
  datatype Want = Want(tree: Expr, bare: bool, over: bool, lines: nat)

  function Form(w: Want, l: nat): seq<Token> {
    if !w.bare then Print(w.tree, l)
    else if w.lines == 0 then Raw(w.tree)
    else Raw(w.tree) + Lines(w.lines)
  }

  function Whole(t: Expr): Want {
    Want(t, Open(t), false, 0)
  }

  function Inner(t: Expr): Want {
    Want(t, false, false, 0)
  }

  /** The plain name at the end goes on. */
  function Misnamed(t: Expr): Want {
    Want(t, false, true, 0)
  }

  function AsOperand(t: Expr, over: bool): Want {
    Want(t, false, over, 0)
  }

  /** The part that the open tree ends with. */
  function Tail(b: Expr, w: Want): Want {
    if Newline in Words(b) then Want(b, Open(b), w.over, w.lines) else Whole(b)
  }

  /** The token at `p` goes on with nothing that reads at level `l`. */
  ghost predicate Below(ts: seq<Token>, p: nat, l: nat) {
    GrowLevel(KindAt(ts, p)) < l && !NameTail(ts, p)
  }

  /** The token at `p` goes on with no tree at all. */
  ghost predicate Closes(ts: seq<Token>, p: nat) {
    Below(ts, p, 0) && KindAt(ts, p) !in {Newline, Keyword("else"), Keyword("catch"), Keyword("when")}
  }

  /** The token at `p` goes on with no name that the tree ends with. */
  ghost predicate NameStops(ts: seq<Token>, p: nat, w: Want, l: nat) {
    var n := Trailing(w.tree, if w.bare then PIPE else l, w.bare);
    n.Some? ==> NameEnds(n.value, ts, p)
  }

  /** The token at `p` cannot go on with the tree. */
  ghost predicate Stops(ts: seq<Token>, p: nat, w: Want, l: nat) {
    if w.over && !w.bare then EndsPlain(w.tree, l) && Scopes(ts, p)
    else if w.lines > 0 then
      w.bare && KindAt(ts, p) !in Words(w.tree) && (w.over <==> GrowLevel(KindAt(ts, p)) >= 0)
    else
      && !w.over && NameStops(ts, p, w, l)
      && if w.bare then GrowLevel(KindAt(ts, p)) < 0 && KindAt(ts, p) !in Words(w.tree)
         else Stuck(w.tree, l, GrowLevel(KindAt(ts, p)))
  }

  /** At `p` the wanted tree is spelled as level `l` asks, and what follows does not extend it. */
  ghost predicate Expects(ts: seq<Token>, w: Want, l: nat, p: nat) {
    && Printable(w.tree) && (w.bare ==> Open(w.tree)) && (w.lines > 0 ==> w.bare && Newline in Words(w.tree))
    && Spelled(ts, p, Form(w, l)) && Stops(ts, p + |Form(w, l)|, w, l)
  }

  lemma {:induction false} StuckBelow(t: Expr, l: nat, g: int)
    requires g < l
    ensures Stuck(t, l, g)
    decreases t
  {
    match t {
      case Bin(op, _, r) => if l <= OpLevel(op) { StuckBelow(r, OpLevel(op) + 1, g); }
      case Not(e) => if l <= NOT { StuckBelow(e, NOT, g); }
      case Neg(e) => if l <= NEG { StuckBelow(e, NEG, g); }
      case _ =>
    }
  }

  lemma TailStays(ts: seq<Token>, p: nat, n: Name)
    requires !NameTail(ts, p)
    ensures NameEnds(n, ts, p)
  {
  }

  lemma BelowStops(ts: seq<Token>, p: nat, t: Expr, l: nat)
    requires Below(ts, p, l)
    ensures Stops(ts, p, Inner(t), l)
  {
    hide Trailing, NameTail, NameEnds, GrowLevel;
    StuckBelow(t, l, GrowLevel(KindAt(ts, p)));
    var n := Trailing(t, l, false);
    if n.Some? { TailStays(ts, p, n.value); }
  }

  lemma {:induction false} WordsAre(t: Expr)
    ensures Words(t) <= {Newline, Keyword("else"), Keyword("catch"), Keyword("when")}
    decreases t
  {
    match t {
      case Lambda(_, b) => WordsAre(b);
      case If(_, a, b) => WordsAre(a); if b.Some? { WordsAre(b.value); }
      case Try(a, b) => WordsAre(a); if b.Some? { WordsAre(b.value); }
      case For(_, _, _, b) => WordsAre(b);
      case Raise(m) => WordsAre(m);
      case _ =>
    }
  }

  lemma ClosesStops(ts: seq<Token>, p: nat, t: Expr)
    requires Closes(ts, p)
    ensures Stops(ts, p, Whole(t), PIPE)
  {
    hide Trailing, NameTail, NameEnds, GrowLevel, Words, Stuck;
    WordsAre(t);
    StuckBelow(t, PIPE, GrowLevel(KindAt(ts, p)));
    var n := Trailing(t, PIPE, Open(t));
    if n.Some? { TailStays(ts, p, n.value); }
  }

  lemma WholeAt(ts: seq<Token>, t: Expr, p: nat)
    requires Printable(t) && Spelled(ts, p, Print(t, 0)) && Stops(ts, p + |Print(t, 0)|, Whole(t), PIPE)
    ensures Expects(ts, Whole(t), PIPE, p) && Form(Whole(t), PIPE) == Print(t, 0)
  {
    hide Raw, Printable, Spelled, Stops;
  }

  lemma WholeExpects(ts: seq<Token>, t: Expr, p: nat)
    requires Printable(t) && Spelled(ts, p, Print(t, 0)) && Closes(ts, p + |Print(t, 0)|)
    ensures Expects(ts, Whole(t), PIPE, p) && Form(Whole(t), PIPE) == Print(t, 0)
  {
    hide Raw, Print, Printable, Spelled, Stops, Closes;
    ClosesStops(ts, p + |Print(t, 0)|, t);
    WholeAt(ts, t, p);
  }

  lemma InnerAt(ts: seq<Token>, t: Expr, l: nat, p: nat, over: bool)
    requires Printable(t) && Spelled(ts, p, Print(t, l)) && Stops(ts, p + |Print(t, l)|, AsOperand(t, over), l)
    ensures Expects(ts, AsOperand(t, over), l, p) && Form(AsOperand(t, over), l) == Print(t, l)
  {
    hide Print, Raw, Printable, Spelled, Stops;
  }

  lemma InnerExpects(ts: seq<Token>, t: Expr, l: nat, p: nat)
    requires Printable(t) && Spelled(ts, p, Print(t, l)) && Below(ts, p + |Print(t, l)|, l)
    ensures Expects(ts, Inner(t), l, p) && Form(Inner(t), l) == Print(t, l)
  {
    hide Print, Raw, Printable, Spelled, Below, Stops;
    BelowStops(ts, p + |Print(t, l)|, t, l);
    InnerAt(ts, t, l, p, false);
  }

  lemma FormStarts(ts: seq<Token>, w: Want, l: nat, p: nat)
    requires Expects(ts, w, l, p) && l <= PRIMARY
    ensures p < |ts| && Form(w, l) != [] && ts[p] == Form(w, l)[0] && Starts(ts[p].kind, if w.bare then OPEN else l)
  {
    hide Raw, Print, Printable, Starts, Stops;
    Begins(w.tree, l);
  }

  lemma StuckDown(t: Expr, l: nat, g: int)
    requires Stuck(t, l, g) && Level(t) != l
    ensures Stuck(t, l + 1, g)
  {
    hide Level;
  }

  lemma TrailingDown(t: Expr, l: nat)
    requires Level(t) != l
    ensures Trailing(t, l, false) == Trailing(t, l + 1, false)
  {
    hide Level;
  }

  lemma StopsDown(ts: seq<Token>, p: nat, w: Want, l: nat)
    requires Stops(ts, p, w, l) && (w.bare || Level(w.tree) != l)
    ensures Stops(ts, p, w, l + 1)
  {
    hide Level, Stuck, Trailing, Words, NameEnds, GrowLevel, Scopes;
    if !w.bare {
      TrailingDown(w.tree, l);
      if !w.over { StuckDown(w.tree, l, GrowLevel(KindAt(ts, p))); }
    }
  }

  /** No level between the tree and `l`: the next level spells it alike. */
  lemma Down(ts: seq<Token>, w: Want, l: nat, p: nat)
    requires Expects(ts, w, l, p) && (w.bare || Level(w.tree) != l)
    ensures Expects(ts, w, l + 1, p) && Form(w, l + 1) == Form(w, l)
  {
    hide Raw, Printable, Spelled, Stops;
    StopsDown(ts, p + |Form(w, l)|, w, l);
  }

  /** The loop of this level does not go on after the tree. */
  lemma StopsHere(ts: seq<Token>, p: nat, w: Want, l: nat)
    requires Stops(ts, p, w, l) && !w.over && 0 < l <= PRIMARY && l != COMPARE
    ensures GrowLevel(KindAt(ts, p)) != l
  {
    hide GrowLevel, NameStops;
  }

  // ----- trees that grow to the right -----

  /** How often the tree grew at level `l`. */
  function Depth(t: Expr, l: nat): nat
    decreases t
  {
    if Chain(t) && Level(t) == l then 1 + Depth(First(t), l) else 0
  }

  /** The tree after growing `n` times. */
  function Spine(t: Expr, l: nat, n: nat): Expr
    requires n <= Depth(t, l)
    decreases t
  {
    if n == Depth(t, l) then t else Spine(First(t), l, n)
  }

  function Grown(w: Want, l: nat, n: nat): Want
    requires n <= Depth(w.tree, l)
  {
    if n == Depth(w.tree, l) then w else Want(Spine(w.tree, l, n), w.bare, false, 0)
  }

  lemma {:induction false} SpineOne(t: Expr, l: nat, n: nat)
    requires n < Depth(t, l)
    ensures var s := Spine(t, l, n + 1); Chain(s) && Level(s) == l && First(s) == Spine(t, l, n)
    ensures Printable(t) ==> Printable(Spine(t, l, n + 1)) && Printable(Spine(t, l, n))
    ensures n + 1 < Depth(t, l) ==> Spine(t, l, n + 1) == Spine(First(t), l, n + 1)
    decreases t
  {
    hide Printable;
    assert Printable(t) ==> Printable(First(t)) by { FirstPrintable(t); }
    if n + 1 < Depth(t, l) { SpineOne(First(t), l, n); }
  }

  lemma FirstPrintable(t: Expr)
    requires Chain(t)
    ensures Printable(t) ==> Printable(First(t))
  {
  }

  lemma {:induction false} SpineZero(t: Expr, l: nat)
    ensures var s := Spine(t, l, 0); !(Chain(s) && Level(s) == l)
    ensures Printable(t) ==> Printable(Spine(t, l, 0))
    ensures Depth(t, l) == 0 ==> Spine(t, l, 0) == t
    decreases t
  {
    hide Printable;
    if Depth(t, l) > 0 {
      FirstPrintable(t);
      SpineZero(First(t), l);
    }
  }

  lemma GrowsIsChain(t: Expr, l: nat)
    requires Grows(l) && Level(t) == l
    ensures Chain(t)
  {
  }

  /** The smaller spine is spelled first, at the same place. */
  lemma {:induction false} SpineAt(ts: seq<Token>, t: Expr, l: nat, n: nat, p: nat)
    requires Printable(t) && Grows(l) && n <= Depth(t, l) && Spelled(ts, p, Print(t, l))
    ensures Spelled(ts, p, Print(Spine(t, l, n), l))
    ensures n < Depth(t, l) ==>
      var s := Spine(t, l, n + 1); Chain(s) && Print(s, l) == Print(Spine(t, l, n), l) + Suffix(s) && Spelled(ts, p, Print(s, l))
    decreases t
  {
    if n < Depth(t, l) {
      assert Print(t, l) == Print(First(t), l) + Suffix(t) by { hide Print, Suffix, Depth, Spine; PrintGrown(t, l); }
      AtCat(ts, p, Print(First(t), l), Suffix(t));
      FirstPrintable(t);
      hide Print, Suffix, Raw, Printable, Spelled;
      SpineAt(ts, First(t), l, n, p);
      if n + 1 == Depth(t, l) {
        assert Spine(t, l, n) == First(t);
      } else {
        SpineOne(t, l, n);
      }
    }
  }

  lemma PrintGrown(t: Expr, l: nat)
    requires Chain(t) && Level(t) == l
    ensures Print(t, l) == Print(First(t), l) + Suffix(t)
  {
    hide Suffix;
  }

  lemma SuffixExtends(ts: seq<Token>, t: Expr, p: nat)
    requires Chain(t) && Spelled(ts, p, Suffix(t))
    ensures GrowLevel(KindAt(ts, p)) == Level(t) && Below(ts, p, Level(t) + 1) && p < |ts|
  {
    hide ListTokens, NameTokens, Print;
    assert ts[p] == Suffix(t)[0] by { assert ts[p..p + |Suffix(t)|][0] == ts[p]; }
    if t.Bin? { OpTokenReads(t.op); }
  }

  /** What the loop of a growing level finds after the `n`-th growth, at `q`: nothing that it
      would go on with, or the tokens of the next growth. */
  ghost predicate Onward(ts: seq<Token>, w: Want, l: nat, n: nat, q: nat)
    requires n <= Depth(w.tree, l)
  {
    if n == Depth(w.tree, l) then !w.over ==> GrowLevel(KindAt(ts, q)) != l
    else Growth(ts, Spine(w.tree, l, n), Spine(w.tree, l, n + 1), l, q, w.over && n + 1 == Depth(w.tree, l))
  }

  ghost predicate Growth(ts: seq<Token>, a: Expr, s: Expr, l: nat, q: nat, over: bool) {
    && Chain(s) && Level(s) == l && First(s) == a && Printable(s) && Spelled(ts, q, Suffix(s))
    && GrowLevel(KindAt(ts, q)) == l && RightStops(ts, q + |Suffix(s)|, s, l, over)
  }

  /** Behind a binary tree nothing goes on with its right operand. */
  ghost predicate RightStops(ts: seq<Token>, p: nat, s: Expr, l: nat, over: bool) {
    s.Bin? ==> Stops(ts, p, AsOperand(s.right, over), l + 1)
  }

  lemma Grow(ts: seq<Token>, w: Want, l: nat, p: nat, n: nat)
    requires Expects(ts, w, l, p) && Grows(l) && n <= Depth(w.tree, l)
    ensures Onward(ts, w, l, n, p + |Form(Grown(w, l, n), l)|)
    ensures n < Depth(w.tree, l) ==>
      |Form(Grown(w, l, n + 1), l)| == |Form(Grown(w, l, n), l)| + |Suffix(Spine(w.tree, l, n + 1))|
  {
    hide Print, Suffix, Raw, Printable, Spelled, Stops, GrowLevel, Below, RightStops;
    if n < Depth(w.tree, l) {
      hide Grows;
      assert !w.bare by { if w.bare { OpenNoChain(w.tree); } }
      SpineAt(ts, w.tree, l, n, p);
      SpineOne(w.tree, l, n);
      var s := Spine(w.tree, l, n + 1);
      GrowEnd(ts, w, l, p, n + 1);
      hide Spine, Depth, Level, Chain;
      AtCat(ts, p, Print(First(s), l), Suffix(s));
      SuffixExtends(ts, s, p + |Print(First(s), l)|);
    } else {
      assert Spine(w.tree, l, n) == w.tree;
      hide Spine, Depth, Level, Chain;
      if !w.over { StopsHere(ts, p + |Form(w, l)|, w, l); }
    }
  }

  lemma OpenNoChain(t: Expr)
    requires Open(t)
    ensures !Chain(t)
  {
  }

  /** Behind the `n`-th growth, the next operator or what follows the tree. */
  lemma GrowEnd(ts: seq<Token>, w: Want, l: nat, p: nat, n: nat)
    requires Expects(ts, w, l, p) && Grows(l) && n <= Depth(w.tree, l) && !w.bare
    ensures var s := Spine(w.tree, l, n);
      && (n < Depth(w.tree, l) ==> Below(ts, p + |Print(s, l)|, l + 1))
      && (n > 0 ==> RightStops(ts, p + |Print(s, l)|, s, l, w.over && n == Depth(w.tree, l)))
  {
    hide Print, Suffix, Raw, Printable, Spelled, Stops, GrowLevel, Below, Grows, RightStops;
    var s := Spine(w.tree, l, n);
    if n > 0 { SpineOne(w.tree, l, n - 1); }
    if n < Depth(w.tree, l) {
      SpineAt(ts, w.tree, l, n, p);
      SpineOne(w.tree, l, n);
      var s' := Spine(w.tree, l, n + 1);
      hide Spine, Depth, Level, Chain;
      AtCat(ts, p, Print(First(s'), l), Suffix(s'));
      SuffixExtends(ts, s', p + |Print(First(s'), l)|);
      RightBelow(ts, p + |Print(s, l)|, s, l);
    } else {
      assert s == w.tree;
      hide Spine, Depth;
      if n > 0 { LastRight(ts, p + |Print(s, l)|, w, l); }
    }
  }

  lemma RightBelow(ts: seq<Token>, p: nat, s: Expr, l: nat)
    requires Below(ts, p, l + 1)
    ensures RightStops(ts, p, s, l, false)
  {
    hide Below, Stops;
    if s.Bin? { BelowStops(ts, p, s.right, l + 1); }
  }

  lemma LastRight(ts: seq<Token>, p: nat, w: Want, l: nat)
    requires Stops(ts, p, w, l) && !w.bare && Level(w.tree) == l && Chain(w.tree)
    ensures RightStops(ts, p, w.tree, l, w.over)
  {
    hide GrowLevel, NameEnds, Scopes;
  }

  lemma GrowStart(ts: seq<Token>, w: Want, l: nat, p: nat)
    requires Expects(ts, w, l, p) && Grows(l)
    ensures w.bare ==> Depth(w.tree, l) == 0
    ensures Expects(ts, Grown(w, l, 0), l + 1, p) && Form(Grown(w, l, 0), l + 1) == Form(Grown(w, l, 0), l)
  {
    hide Print, Suffix, Raw, Printable, Spelled, Stops, Below;
    SpineZero(w.tree, l);
    if w.bare { OpenNoChain(w.tree); }
    var b := Spine(w.tree, l, 0);
    assert !w.bare ==> Level(b) != l by { if Level(b) == l { GrowsIsChain(b, l); } }
    hide Grows;
    if Depth(w.tree, l) == 0 {
      Down(ts, w, l, p);
    } else {
      SpineAt(ts, w.tree, l, 0, p);
      GrowEnd(ts, w, l, p, 0);
      hide Spine, Depth, Chain, Level;
      PrintAlike(b, l);
      InnerExpects(ts, b, l + 1, p);
    }
  }

  lemma PrintAlike(t: Expr, l: nat)
    requires Level(t) != l
    ensures Print(t, l) == Print(t, l + 1)
  {
    hide Raw, Level;
  }

  // ----- what each kind of tree looks like where it is spelled -----

  predicate Closer(k: TokenType) {
    k in {Operator(")"), Operator("]"), Operator("}"), Operator(",")}
  }

  lemma CloserCloses(ts: seq<Token>, p: nat)
    requires Closer(KindAt(ts, p))
    ensures Closes(ts, p) && !Starts(KindAt(ts, p), OPEN)
  {
  }

  /** Words that follow an inner expression of an open tree. */
  lemma WordsStop(ts: seq<Token>, p: nat)
    requires KindAt(ts, p) in {Keyword("then"), Keyword("else"), Keyword("catch"), Keyword("when")}
    ensures Below(ts, p, PIPE)
  {
  }

  /** A colon ends a tree, unless it makes a scoped name of the plain one at the end. */
  lemma ColonStops(ts: seq<Token>, p: nat, t: Expr)
    requires KindAt(ts, p) == Operator(":")
    ensures Stops(ts, p, Inner(t), PIPE) <==> !(EndsPlain(t, PIPE) && Scopes(ts, p))
    ensures Stops(ts, p, Misnamed(t), PIPE) <==> EndsPlain(t, PIPE) && Scopes(ts, p)
  {
    hide Trailing, Scopes;
    StuckBelow(t, PIPE, -1);
  }

  lemma OperandParts(ts: seq<Token>, a: Expr, s: Expr, l: nat, q: nat, over: bool)
    requires Growth(ts, a, s, l, q, over) && s.Bin?
    ensures q < |ts| && BinOpOf(ts[q].kind) == Some(s.op) && OpLevel(s.op) == l && s.left == a
    ensures Expects(ts, AsOperand(s.right, over), l + 1, q + 1)
    ensures |Suffix(s)| == 1 + |Form(AsOperand(s.right, over), l + 1)|
  {
    hide Print, Raw, Spelled, GrowLevel, BinOpOf, Stops;
    OpTokenReads(s.op);
    AtCons(ts, q, OpToken(s.op), Print(s.right, l + 1));
    InnerAt(ts, s.right, l + 1, q + 1, over);
  }

  predicate Compares(t: Expr) {
    t.Bin? && OpLevel(t.op) == COMPARE
  }

  /** The right operand of the comparison ends where the comparison ends. */
  function RightOf(w: Want): Want
    requires w.tree.Bin?
  {
    AsOperand(w.tree.right, w.over)
  }

  lemma CompareParts(ts: seq<Token>, w: Want, p: nat)
    requires Expects(ts, w, COMPARE, p) && Compares(w.tree)
    ensures var t := w.tree; var q := p + |Form(Inner(t.left), ADD)|;
      Expects(ts, Inner(t.left), ADD, p) && q < |ts| && BinOpOf(ts[q].kind) == Some(t.op) &&
      Expects(ts, RightOf(w), ADD, q + 1) &&
      |Form(w, COMPARE)| == |Form(Inner(t.left), ADD)| + 1 + |Form(RightOf(w), ADD)|
  {
    hide Print, Spelled, BinOpOf, Stops;
    var t := w.tree;
    assert Form(w, COMPARE) == Raw(t) == Print(t.left, ADD) + ([OpToken(t.op)] + Print(t.right, ADD)) by { RawCompare(w); }
    hide Raw;
    AtCat(ts, p, Print(t.left, ADD), [OpToken(t.op)] + Print(t.right, ADD));
    var q := p + |Print(t.left, ADD)|;
    AtCons(ts, q, OpToken(t.op), Print(t.right, ADD));
    OpTokenReads(t.op);
    OpBelow(ts, q, t.op);
    InnerExpects(ts, t.left, ADD, p);
    CompareRight(ts, p + |Form(w, COMPARE)|, w);
    InnerAt(ts, t.right, ADD, q + 1, w.over);
  }

  lemma OpBelow(ts: seq<Token>, q: nat, op: BinOp)
    requires KindAt(ts, q) == OpToken(op).kind && OpLevel(op) == COMPARE
    ensures Below(ts, q, ADD)
  {
  }

  lemma CompareRight(ts: seq<Token>, p: nat, w: Want)
    requires Stops(ts, p, w, COMPARE) && Compares(w.tree) && !w.bare
    ensures Stops(ts, p, RightOf(w), ADD)
  {
    hide GrowLevel, NameEnds, Scopes;
  }

  lemma RawCompare(w: Want)
    requires Compares(w.tree) && (w.bare ==> Open(w.tree))
    ensures Form(w, COMPARE) == Raw(w.tree) == Print(w.tree.left, ADD) + ([OpToken(w.tree.op)] + Print(w.tree.right, ADD))
  {
    assert Print(w.tree, COMPARE) == Raw(w.tree);
  }

  /** The operand ends where the tree ends. */
  function OperandWant(w: Want): Want
    requires w.tree.Not? || w.tree.Neg?
  {
    AsOperand(w.tree.operand, w.over)
  }

  lemma PrefixStops(ts: seq<Token>, p: nat, w: Want)
    requires (w.tree.Not? || w.tree.Neg?) && Stops(ts, p, w, Level(w.tree)) && !w.bare
    ensures Stops(ts, p, OperandWant(w), Level(w.tree))
  {
    hide GrowLevel, NameEnds, Scopes;
  }

  lemma PrefixParts(ts: seq<Token>, w: Want, p: nat)
    requires w.tree.Not? || w.tree.Neg?
    requires Expects(ts, w, Level(w.tree), p)
    ensures p < |ts| && ts[p].kind == if w.tree.Not? then Logic(Negation, false) else Operator("-")
    ensures Expects(ts, OperandWant(w), Level(w.tree), p + 1)
    ensures |Form(w, Level(w.tree))| == 1 + |Form(OperandWant(w), Level(w.tree))|
  {
    hide Spelled, Stops;
    var t := w.tree;
    var o := if t.Not? then Sign(Negation) else Op("-");
    assert Form(w, Level(t)) == Raw(t) == [o] + Print(t.operand, Level(t));
    hide Print, Raw;
    AtCons(ts, p, o, Print(t.operand, Level(t)));
    PrefixStops(ts, p + |Form(w, Level(t))|, w);
    InnerAt(ts, t.operand, Level(t), p + 1, w.over);
  }

  lemma FieldParts(ts: seq<Token>, a: Expr, s: Expr, q: nat, over: bool)
    requires Growth(ts, a, s, POSTFIX, q, over) && s.Field?
    ensures q + 1 < |ts| && |Suffix(s)| == 2 && ts[q + 1] == Id(s.field) && s.obj == a
    ensures ts[q].kind == if s.optional then Operator("?.") else Operator(".")
  {
    hide Print, Raw;
    assert ts[q] == ts[q..q + 2][0] && ts[q + 1] == ts[q..q + 2][1];
  }

  /** The tree is spelled at `p` and `k` follows it. */
  ghost predicate Enclosed(ts: seq<Token>, t: Expr, p: nat, k: TokenType) {
    Expects(ts, Whole(t), PIPE, p) && KindAt(ts, p + |Form(Whole(t), PIPE)|) == k
  }

  lemma EnclosedAt(ts: seq<Token>, t: Expr, p: nat, x: Token)
    requires Printable(t) && Spelled(ts, p, Print(t, 0) + [x]) && Closer(x.kind)
    ensures Enclosed(ts, t, p, x.kind) && |Print(t, 0) + [x]| == |Form(Whole(t), PIPE)| + 1
  {
    hide Print, Raw, Printable, Closer;
    AtLast(ts, p, Print(t, 0), x);
    CloserCloses(ts, p + |Print(t, 0)|);
    WholeExpects(ts, t, p);
  }

  lemma IndexParts(ts: seq<Token>, a: Expr, s: Expr, q: nat, over: bool)
    requires Growth(ts, a, s, POSTFIX, q, over) && s.Index?
    ensures q < |ts| && ts[q].kind == Operator("[") && s.obj == a
    ensures Enclosed(ts, s.index, q + 1, Operator("]")) && |Suffix(s)| == 2 + |Form(Whole(s.index), PIPE)|
  {
    hide Print, Raw, Spelled;
    AtCons(ts, q, Op("["), Print(s.index, 0) + [Op("]")]);
    EnclosedAt(ts, s.index, q + 1, Op("]"));
  }

  // ----- names and lists -----

  ghost predicate NameAt(ts: seq<Token>, n: Name, p: nat) {
    GoodName(n) && Spelled(ts, p, NameTokens(n)) &&
    KindAt(ts, p + |NameTokens(n)|) != Operator("::") && (PlainName(n) ==> !Scopes(ts, p + |NameTokens(n)|))
  }

  ghost predicate ListAt(ts: seq<Token>, es: seq<Expr>, p: nat, close: TokenType) {
    PrintableAll(es) && Spelled(ts, p, ListTokens(es)) && KindAt(ts, p + |ListTokens(es)|) == close
  }

  lemma ListClosed(ts: seq<Token>, es: seq<Expr>, p: nat, x: Token)
    requires PrintableAll(es) && Spelled(ts, p, ListTokens(es) + [x])
    ensures ListAt(ts, es, p, x.kind) && |ListTokens(es) + [x]| == |ListTokens(es)| + 1
  {
    hide ListTokens, PrintableAll;
    AtLast(ts, p, ListTokens(es), x);
  }

  /** A first element, and then the rest after a comma. */
  ghost predicate ListNext(ts: seq<Token>, es: seq<Expr>, p: nat, close: TokenType)
    requires es != []
  {
    var f := |Form(Whole(es[0]), PIPE)|;
    && Expects(ts, Whole(es[0]), PIPE, p)
    && Starts(KindAt(ts, p), OPEN)
    && (|es| == 1 ==> KindAt(ts, p + f) == close && |ListTokens(es)| == f)
    && (|es| > 1 ==> KindAt(ts, p + f) == Operator(",") && ListAt(ts, es[1..], p + f + 1, close)
                     && |ListTokens(es)| == f + 1 + |ListTokens(es[1..])|)
  }

  lemma ListStep(ts: seq<Token>, es: seq<Expr>, p: nat, close: TokenType)
    requires ListAt(ts, es, p, close) && es != [] && Closer(close)
    ensures ListNext(ts, es, p, close)
  {
    hide Print, Raw, Spelled, Printable, Closer, Starts, Closes, Expects, Form, Whole, PrintableAll, ListTokens, KindAt;
    var f := Print(es[0], 0);
    assert Printable(es[0]) && PrintableAll(es[1..]) by { AllPrintable(es); }
    ListSplit(es);
    if |es| > 1 {
      var r := [Op(",")] + ListTokens(es[1..]);
      AtCat(ts, p, f, r);
      AtCons(ts, p + |f|, Op(","), ListTokens(es[1..]));
      assert KindAt(ts, p + |f|) == Operator(",") by { KindIs(ts, p + |f|); }
      CommaCloses();
    }
    CloserCloses(ts, p + |f|);
    WholeExpects(ts, es[0], p);
    WholeStarts(ts, es[0], p);
  }

  lemma KindIs(ts: seq<Token>, p: nat)
    requires p < |ts|
    ensures KindAt(ts, p) == ts[p].kind
  {
  }

  lemma AllPrintable(es: seq<Expr>)
    requires PrintableAll(es) && es != []
    ensures Printable(es[0]) && PrintableAll(es[1..])
  {
  }

  lemma ListSplit(es: seq<Expr>)
    requires es != []
    ensures ListTokens(es) == if |es| == 1 then Print(es[0], 0) else Print(es[0], 0) + ([Op(",")] + ListTokens(es[1..]))
  {
    hide Print;
  }

  lemma CommaCloses()
    ensures Closer(Operator(","))
  {
  }

  lemma WholeStarts(ts: seq<Token>, t: Expr, p: nat)
    requires Expects(ts, Whole(t), PIPE, p)
    ensures Starts(KindAt(ts, p), OPEN) && Form(Whole(t), PIPE) != []
  {
    hide Raw, Print, Printable, Starts;
    FormStarts(ts, Whole(t), PIPE, p);
    if !Open(t) { StartsMore(ts[p].kind, PIPE, OPEN); }
  }

  /** The arguments of a call with their parentheses. */
  ghost predicate ArgsAt(ts: seq<Token>, es: seq<Expr>, p: nat) {
    p < |ts| && ts[p].kind == Operator("(") && ListAt(ts, es, p + 1, Operator(")"))
  }

  lemma CallParts(ts: seq<Token>, n: Name, es: seq<Expr>, p: nat)
    requires GoodName(n) && PrintableAll(es) && Spelled(ts, p, NameTokens(n) + ([Op("(")] + (ListTokens(es) + [Op(")")])))
    ensures NameAt(ts, n, p) && ArgsAt(ts, es, p + |NameTokens(n)|)
    ensures |NameTokens(n) + ([Op("(")] + (ListTokens(es) + [Op(")")]))| == |NameTokens(n)| + |ListTokens(es)| + 2
  {
    hide NameTokens, ListTokens, Spelled, PrintableAll, GoodName;
    AtCat(ts, p, NameTokens(n), [Op("(")] + (ListTokens(es) + [Op(")")]));
    AtCons(ts, p + |NameTokens(n)|, Op("("), ListTokens(es) + [Op(")")]);
    ListClosed(ts, es, p + |NameTokens(n)| + 1, Op(")"));
  }

  /** A name and its arguments after the bar. */
  function PipedTokens(n: Name, es: seq<Expr>): seq<Token> {
    NameTokens(n) + ([Op("(")] + (ListTokens(es) + [Op(")")]))
  }

  lemma PipeParts(ts: seq<Token>, a: Expr, s: Expr, q: nat, over: bool)
    requires Growth(ts, a, s, PIPE, q, over) && s.Pipe?
    ensures q < |ts| && ts[q].kind == Operator("|") && s.input == a && s.fn.Some?
    ensures Spelled(ts, q + 1, PipedTokens(s.fn.value, s.args)) && |Suffix(s)| == 1 + |PipedTokens(s.fn.value, s.args)|
  {
    hide Print, Raw, Spelled, NameTokens, ListTokens, GoodName, PrintableAll;
    var r := PipedTokens(s.fn.value, s.args);
    assert Suffix(s) == [Op("|")] + r;
    AtCons(ts, q, Op("|"), r);
  }
}
