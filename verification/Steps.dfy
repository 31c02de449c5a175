/** Which way each loop and branch of the parser goes where a tree is spelled. */
module Steps {
  import opened Wrappers
  import opened Tokens
  import opened Grammar
  import opened Reading
  import opened Shapes
  import opened OpenTrees

  predicate BinaryLevel(l: nat) {
    l in {COALESCE, OR, AND, ADD, MULTIPLY}
  }

  /** The right operand of the next growth. */
  ghost function Operand(want: Option<Want>, l: nat, n: nat): Option<Want> {
    if want.Some? && n < Depth(want.value.tree, l) && Spine(want.value.tree, l, n + 1).Bin?
    then Some(RightWant(want.value, l, n)) else None
  }

  function RightWant(w: Want, l: nat, n: nat): Want
    requires n < Depth(w.tree, l) && Spine(w.tree, l, n + 1).Bin?
  {
    AsOperand(Spine(w.tree, l, n + 1).right, w.over && n + 1 == Depth(w.tree, l))
  }

  /** The token behind the tree and the newlines it takes. */
  ghost function Behind(ts: seq<Token>, w: Want, l: nat, p: nat): TokenType {
    KindAt(ts, p + |Form(w, l)|)
  }

  /** Read at level `l` or below, the tree comes back with more in it.  A tree that takes the
      newlines itself does so only at the level of the operator behind them. */
  ghost predicate Beyond(ts: seq<Token>, w: Want, l: nat, p: nat) {
    w.over && (w.bare && Swallows(w.tree) ==> l <= GrowLevel(Behind(ts, w, l, p)))
  }

  /** The loop of level `l` has read past the tree after `n` growths. */
  ghost predicate Past(ts: seq<Token>, w: Want, l: nat, p: nat, n: nat) {
    w.over &&
    if w.bare && Swallows(w.tree)
    then l < GrowLevel(Behind(ts, w, l, p)) || (l == GrowLevel(Behind(ts, w, l, p)) && n > 0)
    else n >= Depth(w.tree, l)
  }

  /** What the loop of a level starts from is read past exactly if the loop starts past it. */
  lemma BasePast(ts: seq<Token>, w: Want, l: nat, p: nat)
    requires Expects(ts, w, l, p) && Grows(l)
    ensures Beyond(ts, Grown(w, l, 0), l + 1, p) <==> Past(ts, w, l, p, 0)
    ensures Grown(w, l, 0).tree == Spine(w.tree, l, 0) && (Past(ts, w, l, p, 0) ==> Grown(w, l, 0) == w)
  {
    hide Printable, Spelled, Raw, Print, Stops, GrowLevel, Words, Swallows;
    SpineZero(w.tree, l);
    if w.bare { OpenNoChain(w.tree); }
  }

  /** Once past, always past. */
  lemma PastMore(ts: seq<Token>, w: Want, l: nat, p: nat, n: nat)
    requires Expects(ts, w, l, p) && Past(ts, w, l, p, n)
    ensures Past(ts, w, l, p, n + 1) && Beyond(ts, w, l, p) && n >= Depth(w.tree, l)
  {
    BareDepth(ts, w, l, p);
    hide Swallows, GrowLevel, Form, Expects;
  }

  lemma BareDepth(ts: seq<Token>, w: Want, l: nat, p: nat)
    requires Expects(ts, w, l, p)
    ensures w.bare ==> Depth(w.tree, l) == 0
  {
    hide Printable, Spelled, Stops, Form;
    if w.bare { OpenNoChain(w.tree); }
  }

  /** At the lowest level what is read past is read past. */
  lemma OverBeyond(ts: seq<Token>, w: Want, p: nat)
    requires Expects(ts, w, PIPE, p)
    ensures Beyond(ts, w, PIPE, p) <==> w.over
  {
    hide Printable, Spelled, Raw, Print, Words, Swallows;
  }

  /** At the highest one only what its last part reads past. */
  lemma PrimaryBeyond(ts: seq<Token>, w: Want, p: nat)
    ensures Beyond(ts, w, PRIMARY, p) <==> w.over && !(w.bare && Swallows(w.tree))
  {
    hide Form, Swallows, GrowLevel;
    NoPrefixGrows(Behind(ts, w, PRIMARY, p));
  }

  /** Nothing goes on at the level of a prefix. */
  lemma NoPrefixGrows(k: TokenType)
    ensures GrowLevel(k) != NOT && GrowLevel(k) != NEG && GrowLevel(k) <= POSTFIX
  {
  }

  ghost predicate OperandNext(ts: seq<Token>, w: Want, l: nat, n: nat, q: nat) {
    && n < Depth(w.tree, l)
    && var s := Spine(w.tree, l, n + 1);
    && s.Bin? && s.left == Spine(w.tree, l, n) && BinOpOf(KindAt(ts, q)) == Some(s.op)
    && Expects(ts, RightWant(w, l, n), l + 1, q + 1) && KindAt(ts, q + 1) != Newline
    && |Form(Grown(w, l, n + 1), l)| == |Form(Grown(w, l, n), l)| + 1 + |Form(RightWant(w, l, n), l + 1)|
  }

  lemma OperandStep(ts: seq<Token>, w: Want, l: nat, p: nat, n: nat)
    requires Expects(ts, w, l, p) && BinaryLevel(l) && n <= Depth(w.tree, l) && !Past(ts, w, l, p, n)
    ensures var q := p + |Form(Grown(w, l, n), l)|;
      if !IsOp(KindAt(ts, q), l) then n == Depth(w.tree, l) && !Beyond(ts, w, l, p)
      else if n == Depth(w.tree, l) then Past(ts, w, l, p, n + 1)
      else OperandNext(ts, w, l, n, q) && (Beyond(ts, RightWant(w, l, n), l + 1, q + 1) <==> Past(ts, w, l, p, n + 1))
    ensures n == Depth(w.tree, l) ==> Grown(w, l, n) == w && Spine(w.tree, l, n) == w.tree
    ensures n < Depth(w.tree, l) && Past(ts, w, l, p, n + 1) ==> Spine(w.tree, l, n + 1) == w.tree
  {
    hide Expects, Form, GrowLevel, Spelled, Suffix, Chain, Depth, Spine, First, Printable, BinOpOf, Starts, RightStops, Swallows;
    Grow(ts, w, l, p, n);
    AllGrown(w, l);
    BareDepth(ts, w, l, p);
    var q := p + |Form(Grown(w, l, n), l)|;
    OpGrows(KindAt(ts, q), l);
    if n < Depth(w.tree, l) {
      var a, s := Spine(w.tree, l, n), Spine(w.tree, l, n + 1);
      BinaryTree(s, l);
      OperandParts(ts, a, s, l, q, w.over && n + 1 == Depth(w.tree, l));
      FormStarts(ts, RightWant(w, l, n), l + 1, q + 1);
      StartsNoLayout(ts[q + 1].kind, l + 1);
    }
  }

  /** One look of the loop, past the tree or not. */
  lemma OperandRound(ts: seq<Token>, w: Want, l: nat, p: nat, n: nat)
    requires Expects(ts, w, l, p) && BinaryLevel(l) && (Past(ts, w, l, p, n) || n <= Depth(w.tree, l))
    ensures Past(ts, w, l, p, n) ==> Past(ts, w, l, p, n + 1) && Beyond(ts, w, l, p) && n >= Depth(w.tree, l)
    ensures !Past(ts, w, l, p, n) ==>
      var q := p + |Form(Grown(w, l, n), l)|;
      if !IsOp(KindAt(ts, q), l) then n == Depth(w.tree, l) && !Beyond(ts, w, l, p)
      else if n == Depth(w.tree, l) then Past(ts, w, l, p, n + 1)
      else OperandNext(ts, w, l, n, q) && (Beyond(ts, RightWant(w, l, n), l + 1, q + 1) <==> Past(ts, w, l, p, n + 1))
    ensures n == Depth(w.tree, l) ==> Grown(w, l, n) == w && Spine(w.tree, l, n) == w.tree
    ensures !Past(ts, w, l, p, n) && n < Depth(w.tree, l) && Past(ts, w, l, p, n + 1) ==> Spine(w.tree, l, n + 1) == w.tree
  {
    hide *;
    if Past(ts, w, l, p, n) {
      PastMore(ts, w, l, p, n);
      AllGrown(w, l);
    } else {
      OperandStep(ts, w, l, p, n);
    }
  }

  lemma OpGrows(k: TokenType, l: nat)
    ensures IsOp(k, l) ==> GrowLevel(k) == l
    ensures BinaryLevel(l) && GrowLevel(k) == l ==> IsOp(k, l)
  {
  }

  lemma StartsNoLayout(k: TokenType, l: nat)
    requires Starts(k, l)
    ensures k !in {Newline, Indent, Dedent, EOF} && !Closer(k) && !IsOp(k, COMPARE)
  {
  }

  lemma BinaryTree(t: Expr, l: nat)
    requires Chain(t) && Level(t) == l && BinaryLevel(l)
    ensures t.Bin?
  {
  }

  /** A tree that is read past grew at no level by a suffix. */
  lemma OverNoSuffix(ts: seq<Token>, w: Want, l: nat, p: nat)
    requires Expects(ts, w, l, p) && w.over && (l == PIPE || l == POSTFIX)
    ensures Depth(w.tree, l) == 0
  {
    hide Print, Spelled, Printable, Scopes;
    if w.bare { OpenNoChain(w.tree); }
  }

  // ----- pipes -----

  ghost predicate PipeNext(ts: seq<Token>, w: Want, n: nat, q: nat) {
    && n < Depth(w.tree, PIPE)
    && var s := Spine(w.tree, PIPE, n + 1);
    && s.Pipe? && s.input == Spine(w.tree, PIPE, n) && s.fn.Some?
    && NameAt(ts, s.fn.value, q + 1) && KindAt(ts, q + 1).Ident? && ArgsAt(ts, s.args, q + 1 + |NameTokens(s.fn.value)|)
    && |Form(Grown(w, PIPE, n + 1), PIPE)| == |Form(Grown(w, PIPE, n), PIPE)| + 3 + |NameTokens(s.fn.value)| + |ListTokens(s.args)|
  }

  lemma PipeStep(ts: seq<Token>, w: Want, p: nat, n: nat)
    requires Expects(ts, w, PIPE, p) && n <= Depth(w.tree, PIPE) && !Past(ts, w, PIPE, p, n)
    ensures var q := p + |Form(Grown(w, PIPE, n), PIPE)|;
      if KindAt(ts, q) != Operator("|") then n == Depth(w.tree, PIPE) && !Beyond(ts, w, PIPE, p)
      else if n == Depth(w.tree, PIPE) then Past(ts, w, PIPE, p, n + 1)
      else PipeNext(ts, w, n, q) && !Past(ts, w, PIPE, p, n + 1)
    ensures n == Depth(w.tree, PIPE) ==> Grown(w, PIPE, n) == w && Spine(w.tree, PIPE, n) == w.tree
  {
    hide Expects, Form, GrowLevel, Spelled, Suffix, Chain, Depth, Spine, First, Printable, NameTokens, ListTokens, NameAt, ListAt, RightStops, Swallows;
    if w.over { OverNoSuffix(ts, w, PIPE, p); }
    Grow(ts, w, PIPE, p, n);
    AllGrown(w, PIPE);
    var q := p + |Form(Grown(w, PIPE, n), PIPE)|;
    if n < Depth(w.tree, PIPE) {
      var a, s := Spine(w.tree, PIPE, n), Spine(w.tree, PIPE, n + 1);
      PipeTree(s);
      PipeParts(ts, a, s, q, false);
      PipePrintable(s);
      CallParts(ts, s.fn.value, s.args, q + 1);
      NameStep(ts, s.fn.value, q + 1);
    } else {
      PipeGrows(KindAt(ts, q));
    }
  }

  lemma PipeRound(ts: seq<Token>, w: Want, p: nat, n: nat)
    requires Expects(ts, w, PIPE, p) && (Past(ts, w, PIPE, p, n) || n <= Depth(w.tree, PIPE))
    ensures Past(ts, w, PIPE, p, n) ==> Past(ts, w, PIPE, p, n + 1) && Beyond(ts, w, PIPE, p) && n >= Depth(w.tree, PIPE)
    ensures !Past(ts, w, PIPE, p, n) ==>
      var q := p + |Form(Grown(w, PIPE, n), PIPE)|;
      if KindAt(ts, q) != Operator("|") then n == Depth(w.tree, PIPE) && !Beyond(ts, w, PIPE, p)
      else if n == Depth(w.tree, PIPE) then Past(ts, w, PIPE, p, n + 1)
      else PipeNext(ts, w, n, q) && !Past(ts, w, PIPE, p, n + 1)
    ensures n == Depth(w.tree, PIPE) ==> Grown(w, PIPE, n) == w && Spine(w.tree, PIPE, n) == w.tree
  {
    hide *;
    if Past(ts, w, PIPE, p, n) {
      PastMore(ts, w, PIPE, p, n);
      AllGrown(w, PIPE);
    } else {
      PipeStep(ts, w, p, n);
    }
  }

  lemma PipePrintable(t: Expr)
    requires t.Pipe? && Printable(t)
    ensures t.fn.Some? && GoodName(t.fn.value) && PrintableAll(t.args)
  {
  }

  lemma PipeTree(t: Expr)
    requires Chain(t) && Level(t) == PIPE
    ensures t.Pipe?
  {
  }

  lemma PipeGrows(k: TokenType)
    ensures k == Operator("|") <==> GrowLevel(k) == PIPE
  {
  }

  // ----- field access and indexing -----

  ghost predicate AccessNext(ts: seq<Token>, w: Want, n: nat, q: nat) {
    && n < Depth(w.tree, POSTFIX)
    && var s := Spine(w.tree, POSTFIX, n + 1);
    && var grown := |Form(Grown(w, POSTFIX, n + 1), POSTFIX)| - |Form(Grown(w, POSTFIX, n), POSTFIX)|;
    if s.Field? then
      s.obj == Spine(w.tree, POSTFIX, n) && q + 1 < |ts| && ts[q + 1] == Id(s.field) && grown == 2 &&
      KindAt(ts, q) == (if s.optional then Operator("?.") else Operator("."))
    else
      s.Index? && s.obj == Spine(w.tree, POSTFIX, n) && KindAt(ts, q) == Operator("[") &&
      Enclosed(ts, s.index, q + 1, Operator("]")) && grown == 2 + |Form(Whole(s.index), PIPE)|
  }

  predicate Access(k: TokenType) {
    k in {Operator("."), Operator("?."), Operator("[")}
  }

  lemma AccessStep(ts: seq<Token>, w: Want, p: nat, n: nat)
    requires Expects(ts, w, POSTFIX, p) && n <= Depth(w.tree, POSTFIX) && !Past(ts, w, POSTFIX, p, n)
    ensures var q := p + |Form(Grown(w, POSTFIX, n), POSTFIX)|;
      && (if !Access(KindAt(ts, q)) then n == Depth(w.tree, POSTFIX) && !Beyond(ts, w, POSTFIX, p)
          else if n == Depth(w.tree, POSTFIX) then Past(ts, w, POSTFIX, p, n + 1)
          else AccessNext(ts, w, n, q) && !Past(ts, w, POSTFIX, p, n + 1))
      && (KindAt(ts, q) == Operator("(") ==> !Spine(w.tree, POSTFIX, n).Var?)
    ensures n == Depth(w.tree, POSTFIX) ==> Grown(w, POSTFIX, n) == w && Spine(w.tree, POSTFIX, n) == w.tree
  {
    hide Expects, Form, GrowLevel, Spelled, Suffix, Chain, Depth, Spine, First, Printable, Enclosed, RightStops, Swallows;
    if w.over { OverNoSuffix(ts, w, POSTFIX, p); }
    Grow(ts, w, POSTFIX, p, n);
    AllGrown(w, POSTFIX);
    var q := p + |Form(Grown(w, POSTFIX, n), POSTFIX)|;
    AccessGrows(KindAt(ts, q));
    if n < Depth(w.tree, POSTFIX) {
      var a, s := Spine(w.tree, POSTFIX, n), Spine(w.tree, POSTFIX, n + 1);
      AccessTree(s);
      if s.Field? { FieldParts(ts, a, s, q, false); } else { IndexParts(ts, a, s, q, false); }
    } else {
      if w.tree.Var? { VarNoCall(ts, w, p); }
    }
  }

  /** No parenthesis comes right after a name that is no call. */
  lemma VarNoCall(ts: seq<Token>, w: Want, p: nat)
    requires Expects(ts, w, POSTFIX, p) && (w.over ==> w.bare) && w.tree.Var?
    ensures KindAt(ts, p + |Form(w, POSTFIX)|) != Operator("(")
  {
    hide Print, Spelled, Printable, GrowLevel;
  }

  lemma AccessTree(t: Expr)
    requires Chain(t) && Level(t) == POSTFIX
    ensures t.Field? || t.Index?
  {
  }

  lemma AccessGrows(k: TokenType)
    ensures Access(k) <==> GrowLevel(k) == POSTFIX
    ensures k == Operator("(") ==> GrowLevel(k) == -1
  {
  }

  // ----- parentheses -----

  /** What stands between and behind the parentheses of a lambda with a list of parameters,
      or of any other tree. */
  ghost predicate GroupNext(ts: seq<Token>, w: Want, p: nat) {
    if w.bare then
      && w.tree.Lambda? && |w.tree.params| != 1
      && ParamsAt(ts, w.tree.params, p + 1)
      && var q := p + 1 + |ParamTokens(w.tree.params)|;
      && KindAt(ts, q) == Operator(")") && KindAt(ts, q + 1) == Operator("=>") && Reads(ts, Tail(w.tree.body, w), q + 2)
      && (w.tree.params == [] <==> KindAt(ts, p + 1) == Operator(")")) && (w.tree.params == [] ==> q == p + 1)
      && |Form(w, PRIMARY)| == 3 + |ParamTokens(w.tree.params)| + |Form(Tail(w.tree.body, w), PIPE)|
    else
      && Expects(ts, Whole(w.tree), PIPE, p + 1) && KindAt(ts, p + 1 + |Form(Whole(w.tree), PIPE)|) == Operator(")")
      && |Form(w, PRIMARY)| == 2 + |Form(Whole(w.tree), PIPE)|
      && KindAt(ts, p + 1) != Operator(")") && (KindAt(ts, p + 1).Ident? ==> NoList(KindAt(ts, p + 2)))
  }

  lemma GroupStep(ts: seq<Token>, w: Want, p: nat)
    requires Expects(ts, w, PRIMARY, p) && KindAt(ts, p) == Operator("(")
    ensures GroupNext(ts, w, p)
  {
    hide Expects, Form, Raw, OpenAt, ParamTokens, ParamsAt, Enclosed;
    GroupCase(ts, w, p);
    if w.bare {
      var ps := w.tree.params;
      LambdaParts(ts, w, p);
      NoLayoutBefore(ts, Tail(w.tree.body, w), PIPE, p + 3 + |ParamTokens(ps)|);
      ParamStep(ts, ps, p + 1);
      ParamsEnd(ts, ps, p + 1);
    } else {
      GroupParts(ts, w, p);
      EnclosedStops(ts, w.tree, p + 1, Operator(")"));
    }
  }

  lemma ParamsEnd(ts: seq<Token>, ps: seq<string>, p: nat)
    requires ParamsAt(ts, ps, p)
    ensures KindAt(ts, p + |ParamTokens(ps)|) == Operator(")")
  {
  }

  // ----- prefixes and comparisons -----

  predicate NotWord(k: TokenType) {
    k.Logic? && k.connective.Negation?
  }

  lemma NotStep(ts: seq<Token>, w: Want, p: nat)
    requires Expects(ts, w, NOT, p)
    ensures p < |ts| && (NotWord(ts[p].kind) <==> w.tree.Not?)
    ensures w.tree.Not? ==> Expects(ts, OperandWant(w), NOT, p + 1) && |Form(w, NOT)| == 1 + |Form(OperandWant(w), NOT)|
    ensures !w.tree.Not? ==> Expects(ts, w, COMPARE, p) && Form(w, COMPARE) == Form(w, NOT)
    ensures !w.tree.Not? ==> (Beyond(ts, w, NOT, p) <==> Beyond(ts, w, COMPARE, p))
    ensures w.tree.Not? ==> !w.bare
  {
    hide Expects, Form, GrowLevel, Swallows, Level;
    LevelsOf(w.tree);
    if w.tree.Not? {
      PrefixParts(ts, w, p);
      PrefixClosed(ts, w, NOT, p);
    } else {
      NoPrefixGrows(Behind(ts, w, NOT, p));
      Down(ts, w, NOT, p);
      NoPrefix(ts, w, COMPARE, p);
    }
  }

  lemma PrefixClosed(ts: seq<Token>, w: Want, l: nat, p: nat)
    requires Expects(ts, w, l, p) && (w.tree.Not? || w.tree.Neg?)
    ensures !w.bare
  {
    hide Printable, Spelled, Stops;
  }

  lemma LevelsOf(t: Expr)
    ensures (Level(t) == NOT <==> t.Not?) && (Level(t) == NEG <==> t.Neg?) && (Level(t) == COMPARE <==> Compares(t))
  {
  }

  /** Above the level of a prefix no tree begins with it. */
  lemma NoPrefix(ts: seq<Token>, w: Want, l: nat, p: nat)
    requires Expects(ts, w, l, p) && COMPARE <= l <= PRIMARY
    ensures p < |ts| && !NotWord(ts[p].kind) && (l > NEG ==> ts[p].kind != Operator("-"))
  {
    if w.bare {
      assert Expects(ts, w, PRIMARY, p);
      hide Expects, Form, Level;
      PrimaryLeads(ts, w, p);
    } else {
      hide Expects, Form, Level;
      FormStarts(ts, w, l, p);
    }
  }

  lemma UnaryStep(ts: seq<Token>, w: Want, p: nat)
    requires Expects(ts, w, NEG, p)
    ensures p < |ts| && ts[p].kind != Logic(Negation, false) && (ts[p].kind == Operator("-") <==> w.tree.Neg?)
    ensures w.tree.Neg? ==> Expects(ts, OperandWant(w), NEG, p + 1) && |Form(w, NEG)| == 1 + |Form(OperandWant(w), NEG)|
    ensures !w.tree.Neg? ==> Expects(ts, w, POSTFIX, p) && Form(w, POSTFIX) == Form(w, NEG)
    ensures !w.tree.Neg? ==> (Beyond(ts, w, NEG, p) <==> Beyond(ts, w, POSTFIX, p))
    ensures w.tree.Neg? ==> !w.bare
  {
    hide Expects, Form, GrowLevel, Swallows, Level;
    LevelsOf(w.tree);
    if w.tree.Neg? {
      PrefixParts(ts, w, p);
      PrefixClosed(ts, w, NEG, p);
    } else {
      NoPrefixGrows(Behind(ts, w, NEG, p));
      Down(ts, w, NEG, p);
      NoPrefix(ts, w, POSTFIX, p);
    }
  }

  /** The left operand of a comparison, or the whole tree where there is none. */
  function LeftOf(w: Want): Want {
    if Compares(w.tree) then Inner(w.tree.left) else w
  }

  lemma CompareStep(ts: seq<Token>, w: Want, p: nat)
    requires Expects(ts, w, COMPARE, p)
    ensures Expects(ts, LeftOf(w), ADD, p)
    ensures var q := p + |Form(LeftOf(w), ADD)|;
      if Compares(w.tree) then
        BinOpOf(KindAt(ts, q)) == Some(w.tree.op) && Expects(ts, RightOf(w), ADD, q + 1) && KindAt(ts, q + 1) != Newline &&
        |Form(w, COMPARE)| == |Form(LeftOf(w), ADD)| + 1 + |Form(RightOf(w), ADD)|
      else Form(w, COMPARE) == Form(w, ADD) && if Beyond(ts, w, ADD, p) then Beyond(ts, w, COMPARE, p)
           else Beyond(ts, w, COMPARE, p) <==> IsOp(KindAt(ts, q), COMPARE)
  {
    hide Expects, Form, BinOpOf, GrowLevel, Starts, Level, Swallows, IsOp;
    LevelsOf(w.tree);
    if Compares(w.tree) {
      CompareParts(ts, w, p);
      var q := p + |Form(LeftOf(w), ADD)|;
      FormStarts(ts, RightOf(w), ADD, q + 1);
      StartsNoLayout(ts[q + 1].kind, ADD);
    } else {
      Down(ts, w, COMPARE, p);
      CompareGrows(KindAt(ts, p + |Form(w, COMPARE)|));
      if !w.over { NoCompare(ts, p, w); }
    }
  }

  lemma NoCompare(ts: seq<Token>, p: nat, w: Want)
    requires Expects(ts, w, COMPARE, p) && !w.over && (w.bare || Level(w.tree) != COMPARE)
    ensures GrowLevel(Behind(ts, w, COMPARE, p)) != COMPARE
  {
    hide GrowLevel, NameStops, Printable, Spelled, Raw, Print;
  }

  lemma CompareGrows(k: TokenType)
    ensures IsOp(k, COMPARE) <==> GrowLevel(k) == COMPARE
    ensures GrowLevel(k) >= ADD || GrowLevel(k) <= COMPARE
  {
  }

  // ----- lists -----

  predicate IsLayout(k: TokenType) {
    k in {Newline, Indent, Dedent}
  }

  /** A token at which an element of a list starts, and none at which the list ends. */
  predicate Proper(k: TokenType) {
    !IsLayout(k) && !k.EOF? && !Closer(k) && !IsOp(k, COMPARE)
  }

  ghost predicate ElementNext(ts: seq<Token>, es: seq<Expr>, i: nat, p: nat, close: TokenType)
    requires i < |es|
  {
    var q := p + |Form(Whole(es[i]), PIPE)|;
    && Expects(ts, Whole(es[i]), PIPE, p) && Proper(KindAt(ts, p)) && !IsLayout(KindAt(ts, q))
    && (i + 1 == |es| ==> KindAt(ts, q) == close && |ListTokens(es[i..])| == q - p && |ListTokens(es[i + 1..])| == 0)
    && (i + 1 < |es| ==> KindAt(ts, q) == Operator(",") && ListAt(ts, es[i + 1..], q + 1, close)
                         && |ListTokens(es[i..])| == q + 1 - p + |ListTokens(es[i + 1..])| && Proper(KindAt(ts, q + 1)))
  }

  lemma ElementStep(ts: seq<Token>, es: seq<Expr>, i: nat, p: nat, close: TokenType)
    requires i < |es| && ListAt(ts, es[i..], p, close) && Closer(close)
    ensures ElementNext(ts, es, i, p, close)
  {
    hide ListAt, Expects, Form, Starts, Closer, ListTokens, IsOp;
    ListStep(ts, es[i..], p, close);
    assert es[i..][1..] == es[i + 1..];
    StartsNoLayout(KindAt(ts, p), OPEN);
    var q := p + |Form(Whole(es[i]), PIPE)|;
    if i + 1 < |es| {
      ListStep(ts, es[i + 1..], q + 1, close);
      StartsNoLayout(KindAt(ts, q + 1), OPEN);
    } else {
      assert |ListTokens(es[i + 1..])| == 0 by { NoTokens(es[i + 1..]); }
      CloserNoLayout(close);
    }
  }

  lemma NoTokens(es: seq<Expr>)
    requires es == []
    ensures ListTokens(es) == []
  {
  }

  lemma CloserNoLayout(k: TokenType)
    requires Closer(k)
    ensures !IsLayout(k) && !k.EOF?
  {
  }

  ghost predicate EntryNext(ts: seq<Token>, fs: seq<Entry>, i: nat, p: nat)
    requires i < |fs|
  {
    var q := p + 2 + |Form(Whole(fs[i].value), PIPE)|;
    && KindAt(ts, p).String? && ts[p].val == fs[i].key && KindAt(ts, p + 1) == Operator(":")
    && Expects(ts, Whole(fs[i].value), PIPE, p + 2) && Proper(KindAt(ts, p + 2)) && !IsLayout(KindAt(ts, q))
    && (i + 1 == |fs| ==> KindAt(ts, q) == Operator("}") && |FieldTokens(fs[i..])| == q - p && |FieldTokens(fs[i + 1..])| == 0)
    && (i + 1 < |fs| ==> KindAt(ts, q) == Operator(",") && FieldsAt(ts, fs[i + 1..], q + 1)
                         && |FieldTokens(fs[i..])| == q + 1 - p + |FieldTokens(fs[i + 1..])| && KindAt(ts, q + 1).String?)
  }

  lemma EntryStep(ts: seq<Token>, fs: seq<Entry>, i: nat, p: nat)
    requires i < |fs| && FieldsAt(ts, fs[i..], p)
    ensures EntryNext(ts, fs, i, p)
  {
    hide FieldsAt, Expects, Form, Starts, Closer, FieldTokens, IsOp;
    FieldsStep(ts, fs[i..], p);
    assert fs[i..][1..] == fs[i + 1..];
    StartsNoLayout(KindAt(ts, p + 2), OPEN);
    var q := p + 2 + |Form(Whole(fs[i].value), PIPE)|;
    if i + 1 < |fs| {
      FieldsStep(ts, fs[i + 1..], q + 1);
    } else {
      assert |FieldTokens(fs[i + 1..])| == 0 by { NoFieldTokens(fs[i + 1..]); }
    }
  }

  lemma NoFieldTokens(fs: seq<Entry>)
    requires fs == []
    ensures FieldTokens(fs) == []
  {
  }

  // ----- small facts for the parser's methods -----

  lemma AllGrown(w: Want, l: nat)
    ensures Grown(w, l, Depth(w.tree, l)) == w && Spine(w.tree, l, Depth(w.tree, l)) == w.tree
  {
  }

  ghost function OperandOf(want: Option<Want>): Option<Want> {
    if want.Some? && (want.value.tree.Not? || want.value.tree.Neg?) then Some(OperandWant(want.value)) else None
  }

  ghost function Element(es: Option<seq<Expr>>, i: nat): Option<Want> {
    if es.Some? && i < |es.value| then Some(Whole(es.value[i])) else None
  }

  ghost function WholeOf(t: Option<Expr>): Option<Want> {
    if t.Some? then Some(Whole(t.value)) else None
  }

  lemma EnclosedStops(ts: seq<Token>, t: Expr, p: nat, k: TokenType)
    requires Enclosed(ts, t, p, k)
    ensures Expects(ts, Whole(t), PIPE, p) && KindAt(ts, p + |Form(Whole(t), PIPE)|) == k
  {
  }

  /** Nothing laid out comes before a tree. */
  lemma NoLayoutBefore(ts: seq<Token>, w: Want, l: nat, p: nat)
    requires Expects(ts, w, l, p) && l <= PRIMARY
    ensures p < |ts| && Proper(ts[p].kind)
  {
    hide Expects, Starts;
    FormStarts(ts, w, l, p);
    StartsNoLayout(ts[p].kind, if w.bare then OPEN else l);
  }

  /** The iterable of a loop. */
  ghost function IterableOf(want: Option<Want>): Option<Want> {
    if want.Some? && want.value.tree.For? then Some(Inner(want.value.tree.iterable)) else None
  }

  ghost function IndexTree(want: Option<Want>, n: nat): Option<Expr> {
    if want.Some? && n < Depth(want.value.tree, POSTFIX) && Spine(want.value.tree, POSTFIX, n + 1).Index?
    then Some(Spine(want.value.tree, POSTFIX, n + 1).index) else None
  }

  lemma ListBegins(ts: seq<Token>, es: seq<Expr>, p: nat, close: TokenType)
    requires ListAt(ts, es, p, close) && Closer(close)
    ensures !IsLayout(KindAt(ts, p)) && (if es == [] then KindAt(ts, p) == close else Proper(KindAt(ts, p)))
    ensures es == [] ==> |ListTokens(es)| == 0
  {
    hide Expects, Form, ListTokens, Closer;
    if es == [] {
      NoTokens(es);
      CloserNoLayout(close);
    } else {
      assert es[0..] == es;
      ElementStep(ts, es, 0, p, close);
    }
  }

  lemma Brackets()
    ensures Closer(Operator(")")) && Closer(Operator("]"))
  {
  }

  ghost function EntryHint(fs: Option<seq<Entry>>, i: nat): Option<Want> {
    if fs.Some? && i < |fs.value| then Some(Whole(fs.value[i].value)) else None
  }

  lemma FieldsBegin(ts: seq<Token>, fs: seq<Entry>, p: nat)
    requires FieldsAt(ts, fs, p)
    ensures !IsLayout(KindAt(ts, p)) && (if fs == [] then KindAt(ts, p) == Operator("}") else KindAt(ts, p).String?) && (fs == [] ==> |FieldTokens(fs)| == 0)
  {
    hide Expects, Form, FieldTokens, Closer, Spelled;
    if fs == [] {
      NoFieldTokens(fs);
    } else {
      assert fs[0..] == fs;
      EntryStep(ts, fs, 0, p);
    }
  }

  // ----- open trees -----

  ghost predicate Reads(ts: seq<Token>, w: Want, p: nat) {
    Expects(ts, w, PIPE, p) && Proper(KindAt(ts, p))
  }

  /** Exactly `n` newlines. */
  ghost predicate LinesHere(ts: seq<Token>, n: nat, p: nat) {
    (n > 0 ==> Spelled(ts, p, Lines(n))) && KindAt(ts, p + n) != Newline
  }

  lemma LinesAll(ts: seq<Token>, p: nat, n: nat)
    requires Spelled(ts, p, Lines(n))
    ensures p + n <= |ts| && forall i :: p <= i < p + n ==> ts[i].kind == Newline
    decreases n
  {
    if n > 0 {
      FirstLine(ts, p, n);
      LinesAll(ts, p + 1, n - 1);
    }
  }

  /** An `if` is read without parentheses. */
  lemma BareIf(ts: seq<Token>, w: Want, p: nat)
    requires Expects(ts, w, PIPE, p) && w.tree.If? && w.bare == Open(w.tree)
    ensures OpenAt(ts, w, p)
  {
    hide Expects;
  }

  /** Newlines behind a lambda are its body's. */
  lemma LambdaTail(ts: seq<Token>, w: Want, p: nat)
    requires Expects(ts, w, PRIMARY, p) && w.bare && w.tree.Lambda?
    ensures !Swallows(w.tree) && Tail(w.tree.body, w).over == w.over && Tail(w.tree.body, w).tree == w.tree.body
  {
    hide Printable, Spelled, Raw;
  }

  ghost predicate IfReads(ts: seq<Token>, w: Want, p: nat)
    requires w.tree.If?
  {
    var t := w.tree;
    var a := if t.els.Some? then Inner(t.thn) else Tail(t.thn, w);
    var q := p + 1 + |Form(Inner(t.cond), PIPE)|;
    var r := q + 1 + |Form(a, PIPE)|;
    && Reads(ts, Inner(t.cond), p + 1) && KindAt(ts, q) == Keyword("then") && Reads(ts, a, q + 1)
    && if t.els.None? then ElseAbsent(ts, w, p, r)
       else KindAt(ts, r) == Keyword("else") && Reads(ts, Tail(t.els.value, w), r + 1) &&
            (KindAt(ts, r + 1) == Keyword("if") <==> t.els.value.If?) && |Form(w, PIPE)| == r + 1 - p + |Form(Tail(t.els.value, w), PIPE)|
  }

  /** Behind the branch come the newlines that the `if` takes itself, and no `else`. */
  ghost predicate ElseAbsent(ts: seq<Token>, w: Want, p: nat, r: nat) {
    var n := if Takes(w.tree) then w.lines else 0;
    p + |Form(w, PIPE)| == r + n && LinesHere(ts, n, r) && KindAt(ts, r + n) != Keyword("else")
  }

  lemma NoWord(ts: seq<Token>, w: Want, p: nat)
    requires OpenAt(ts, w, p)
    ensures Behind(ts, w, PIPE, p) !in Words(w.tree)
  {
    hide Words, Raw, Printable, Spelled, NameStops;
    OpenStops(ts, w, p);
  }

  lemma IfStep(ts: seq<Token>, w: Want, p: nat)
    requires OpenAt(ts, w, p) && w.tree.If?
    ensures IfReads(ts, w, p)
  {
    hide Expects, Form, Raw, Spelled, Printable, OpenAt, Tail;
    IfParts(ts, w, p);
    NoWord(ts, w, p);
    var t := w.tree;
    var q := p + 1 + |Form(Inner(t.cond), PIPE)|;
    var a := if t.els.Some? then Inner(t.thn) else Tail(t.thn, w);
    NoLayoutBefore(ts, Inner(t.cond), PIPE, p + 1);
    NoLayoutBefore(ts, a, PIPE, q + 1);
    var r := q + 1 + |Form(a, PIPE)|;
    if t.els.Some? {
      NoLayoutBefore(ts, Tail(t.els.value, w), PIPE, r + 1);
      TailBare(t.els.value, w);
      WholeIf(ts, Tail(t.els.value, w), r + 1);
    } else {
      IfTakes(t);
    }
  }

  lemma IfTakes(t: Expr)
    requires t.If? && t.els.None?
    ensures Newline in Words(t) && Keyword("else") in Words(t)
  {
  }

  lemma IfWeight(t: Expr, e: Expr)
    requires t.If? && e.If?
    ensures t.els.None? && Weight(e.thn) > Weight(t.thn) ==> Weight(e) > Weight(t)
    ensures t.els.Some? && e.els.Some? && e.thn == t.thn && Weight(e.els.value) > Weight(t.els.value) ==> Weight(e) > Weight(t)
  {
  }

  /** What the parts of an `if` are read as: the first branch, the `else` part, and how many
      newlines the `if` takes behind its branch. */
  lemma IfHints(ts: seq<Token>, w: Want, p: nat) returns (a: Want, b: Option<Want>, n: nat)
    requires OpenAt(ts, w, p) && w.tree.If?
    ensures var t := w.tree; var q := p + 1 + |Form(Inner(t.cond), PIPE)|;
      && Reads(ts, Inner(t.cond), p + 1) && KindAt(ts, q) == Keyword("then") && Reads(ts, a, q + 1) && a.tree == t.thn
      && var r := q + 1 + |Form(a, PIPE)|;
      if t.els.None? then
        && b.None? && LinesHere(ts, n, r) && KindAt(ts, r + n) != Keyword("else") && p + |Form(w, PIPE)| == r + n
        && (a.over <==> w.over && !Swallows(t))
      else
        && b.Some? && n == 0 && !a.over && KindAt(ts, r) == Keyword("else") && Reads(ts, b.value, r + 1)
        && b.value.tree == t.els.value && b.value.bare == Open(t.els.value)
        && (KindAt(ts, r + 1) == Keyword("if") <==> t.els.value.If?)
        && p + |Form(w, PIPE)| == r + 1 + |Form(b.value, PIPE)|
        && (ReadOn(b.value) <==> w.over && !Swallows(t))
  {
    hide Expects, Form, Raw, OpenAt, Words, Lines;
    var t := w.tree;
    IfStep(ts, w, p);
    if t.els.Some? {
      a, b, n := Inner(t.thn), Some(Tail(t.els.value, w)), 0;
      TailLines(ts, w, p, t.els.value);
      TailBare(t.els.value, w);
    } else {
      a, b, n := Tail(t.thn, w), None, if Takes(t) then w.lines else 0;
      TailLines(ts, w, p, t.thn);
      TailBare(t.thn, w);
    }
  }

  /** What is known to be read past behind an `else`. */
  ghost predicate ReadOn(w: Want) {
    w.over && !(w.tree.If? && Swallows(w.tree))
  }

  lemma TailBare(b: Expr, w: Want)
    ensures Tail(b, w).tree == b && Tail(b, w).bare == Open(b)
  {
  }

  ghost predicate TryReads(ts: seq<Token>, w: Want, p: nat)
    requires w.tree.Try?
  {
    var t := w.tree;
    var a := if t.default.Some? then Inner(t.tried) else Tail(t.tried, w);
    var q := p + 1 + |Form(a, PIPE)|;
    && Expects(ts, a, PIPE, p + 1)
    && if t.default.None? then KindAt(ts, q) != Keyword("catch") && |Form(w, PIPE)| == q - p
       else KindAt(ts, q) == Keyword("catch") && Expects(ts, Tail(t.default.value, w), PIPE, q + 1) &&
            |Form(w, PIPE)| == q + 1 - p + |Form(Tail(t.default.value, w), PIPE)|
  }

  lemma TryStep(ts: seq<Token>, w: Want, p: nat)
    requires OpenAt(ts, w, p) && w.tree.Try?
    ensures TryReads(ts, w, p)
  {
    hide Expects, Form, Raw, Spelled, Printable, OpenAt, Tail;
    TryParts(ts, w, p);
    NoWord(ts, w, p);
  }

  /** Where the iterable of a loop begins. */
  function IterableAt(t: Expr, p: nat): nat
    requires t.For?
  {
    p + 3 + |IndexTokens(t.position)|
  }

  /** The variables of the loop `t` and an iterable. */
  ghost predicate LoopReads(ts: seq<Token>, t: Expr, x: Want, p: nat)
    requires t.For?
  {
    HeadAt(ts, t, p) && ts[p + 1].kind.Ident? && Reads(ts, x, IterableAt(t, p))
  }

  /** What the beginning of a loop shows. */
  lemma LoopStarts(ts: seq<Token>, t: Expr, x: Want, p: nat)
    requires t.For? && LoopReads(ts, t, x, p)
    ensures HeadAt(ts, t, p) && p + 1 < |ts| && ts[p + 1].kind.Ident? && Reads(ts, x, IterableAt(t, p))
  {
  }

  lemma ForStep(ts: seq<Token>, w: Want, p: nat)
    requires OpenAt(ts, w, p) && w.tree.For?
    ensures LoopReads(ts, w.tree, Inner(w.tree.iterable), p)
    ensures var t := w.tree; var q := IterableAt(t, p) + |Form(Inner(t.iterable), PIPE)|;
      KindAt(ts, q) == Operator(":") && Reads(ts, Tail(t.each, w), q + 1) && |Form(w, PIPE)| == q + 1 - p + |Form(Tail(t.each, w), PIPE)|
  {
    hide Expects, Form, Raw, OpenAt, Tail;
    ForParts(ts, w, p);
    var t := w.tree;
    var i := IterableAt(t, p);
    NoLayoutBefore(ts, Inner(t.iterable), PIPE, i);
    NoLayoutBefore(ts, Tail(t.each, w), PIPE, i + 1 + |Form(Inner(t.iterable), PIPE)|);
  }

  /** A loop whose iterable ends in a plain name and whose body begins with a namespaced one. */
  ghost predicate Misread(ts: seq<Token>, t: Expr, p: nat) {
    && t.For? && Printable(t.iterable) && Printable(t.each) && EndsPlain(t.iterable, PIPE) && StartsScoped(t.each)
    && Spelled(ts, p, Raw(t))
  }

  /** Where such a loop is spelled, its colon reads as the scope of the plain name. */
  lemma MisreadStep(ts: seq<Token>, t: Expr, p: nat)
    requires Misread(ts, t, p)
    ensures LoopReads(ts, t, Misnamed(t.iterable), p)
  {
    hide Print, Raw, Spelled, Printable, Expects, Scopes, EndsPlain, StartsScoped, LoopHead, HeadAt;
    var b, i := Print(t.each, 0), IterableAt(t, p);
    RawFor(t);
    HeadParts(ts, t, p, Print(t.iterable, PIPE) + ([Op(":")] + b));
    AtCat(ts, i, Print(t.iterable, PIPE), [Op(":")] + b);
    var q := i + |Print(t.iterable, PIPE)|;
    AtCons(ts, q, Op(":"), b);
    BodyScopes(ts, t.each, q);
    ColonStops(ts, q, t.iterable);
    InnerAt(ts, t.iterable, PIPE, i, true);
    NoLayoutBefore(ts, Misnamed(t.iterable), PIPE, i);
    HeadNames(ts, t, p);
  }

  lemma HeadNames(ts: seq<Token>, t: Expr, p: nat)
    requires t.For? && HeadAt(ts, t, p)
    ensures p + 1 < |ts| && ts[p + 1].kind.Ident?
  {
  }

  // ----- patterns -----

  ghost predicate LitAt(ts: seq<Token>, l: Expr, p: nat) {
    p < |ts| && LitKind(ts[p].kind) && l == Lit(ts[p].kind, ts[p].val)
  }

  ghost predicate PatternReads(ts: seq<Token>, x: Pattern, p: nat) {
    p < |ts| &&
    match x
    case Wildcard => ts[p] == Id("_") && |PatternTokens(x)| == 1
    case LitPattern(l) => LitAt(ts, l, p) && KindAt(ts, p + 1) != Operator("..") && |PatternTokens(x)| == 1
    case Comparison(op, v) =>
      BinOpOf(ts[p].kind) == Some(op) && OpLevel(op) == COMPARE && ts[p].kind.Operator? && LitAt(ts, v, p + 1) && |PatternTokens(x)| == 2
    case Range(a, b) =>
      LitAt(ts, a, p) && KindAt(ts, p + 1) == Operator("..") && LitAt(ts, b, p + 2) && |PatternTokens(x)| == 3
  }

  lemma PatternStep(ts: seq<Token>, x: Pattern, p: nat)
    requires PatternAt(ts, x, p)
    ensures PatternReads(ts, x, p) && KindAt(ts, p + |PatternTokens(x)|) == Operator("=>")
  {
    hide Spelled, BinOpOf, LitKind;
    PatternParts(ts, x, p);
    var t := PatternTokens(x);
    assert ts[p + 0] == t[0];
    match x {
      case Comparison(op, _) => assert ts[p + 1] == t[1]; OpTokenReads(op);
      case Range(_, _) => assert ts[p + 1] == t[1] && ts[p + 2] == t[2];
      case _ =>
    }
  }
}
