/** What the parser meets, token by token, where a name or a tree of a given kind is spelled. */
module Shapes {
  import opened Wrappers
  import opened Tokens
  import opened Grammar
  import opened Reading

  // ----- names -----

  ghost predicate SegsAt(ts: seq<Token>, rest: seq<string>, p: nat) {
    Spelled(ts, p, SegTokens(rest)) && KindAt(ts, p + |SegTokens(rest)|) != Operator("::")
  }

  lemma SegStep(ts: seq<Token>, rest: seq<string>, p: nat)
    requires SegsAt(ts, rest, p)
    ensures rest == [] ==> KindAt(ts, p) != Operator("::") && |SegTokens(rest)| == 0
    ensures rest != [] ==> p + 1 < |ts| && ts[p].kind == Operator("::") && ts[p + 1] == Id(rest[0]) &&
                           SegsAt(ts, rest[1..], p + 2) && |SegTokens(rest)| == 2 + |SegTokens(rest[1..])|
  {
    hide Spelled;
    if rest != [] {
      AtTwo(ts, p, Op("::"), Id(rest[0]), SegTokens(rest[1..]));
    } else {
      assert SegTokens(rest) == [];
    }
  }

  /** A head, possibly a scope, and then the segments. */
  ghost predicate NameNext(ts: seq<Token>, n: Name, p: nat) {
    && p < |ts| && ts[p] == Id(n.head)
    && (n.scope.Some? ==> Scopes(ts, p + 1) && p + 2 < |ts| && ts[p + 2] == Id(n.scope.value) && SegsAt(ts, n.rest, p + 3)
                          && |NameTokens(n)| == 3 + |SegTokens(n.rest)|)
    && (n.scope.None? ==> !Scopes(ts, p + 1) && SegsAt(ts, n.rest, p + 1) && |NameTokens(n)| == 1 + |SegTokens(n.rest)|)
  }

  lemma NameStep(ts: seq<Token>, n: Name, p: nat)
    requires NameAt(ts, n, p)
    ensures NameNext(ts, n, p)
  {
    hide Spelled;
    AtCons(ts, p, Id(n.head), ScopeTokens(n) + SegTokens(n.rest));
    if n.scope.Some? {
      assert ScopeTokens(n) == [Op(":"), Id(n.scope.value)];
      AtTwo(ts, p + 1, Op(":"), Id(n.scope.value), SegTokens(n.rest));
      SegStep(ts, n.rest, p + 3);
    } else {
      assert ScopeTokens(n) + SegTokens(n.rest) == SegTokens(n.rest);
      SegStep(ts, n.rest, p + 1);
    }
  }

  /** No arrow comes right after the head of a name unless one comes after a plain name. */
  lemma NameNoArrow(ts: seq<Token>, n: Name, p: nat)
    requires NameAt(ts, n, p) && (PlainName(n) ==> KindAt(ts, p + |NameTokens(n)|) != Operator("=>"))
    ensures KindAt(ts, p).Ident? && KindAt(ts, p + 1) != Operator("=>")
  {
    hide NameTokens;
    NameStep(ts, n, p);
    if n.scope.None? {
      SegStep(ts, n.rest, p + 1);
    }
  }

  // ----- lambdas -----

  ghost predicate ParamsAt(ts: seq<Token>, ps: seq<string>, p: nat) {
    Spelled(ts, p, ParamTokens(ps)) && KindAt(ts, p + |ParamTokens(ps)|) == Operator(")")
  }

  lemma ParamStep(ts: seq<Token>, ps: seq<string>, p: nat)
    requires ParamsAt(ts, ps, p)
    ensures ps == [] ==> KindAt(ts, p) == Operator(")") && |ParamTokens(ps)| == 0
    ensures ps != [] ==> p < |ts| && ts[p] == Id(ps[0])
    ensures |ps| == 1 ==> KindAt(ts, p + 1) == Operator(")") && |ParamTokens(ps)| == 1
    ensures |ps| > 1 ==> KindAt(ts, p + 1) == Operator(",") && ParamsAt(ts, ps[1..], p + 2) &&
                         |ParamTokens(ps)| == 2 + |ParamTokens(ps[1..])|
  {
    hide Spelled;
    if |ps| > 1 {
      AtTwo(ts, p, Id(ps[0]), Op(","), ParamTokens(ps[1..]));
    } else if |ps| == 1 {
      assert ParamTokens(ps) == [Id(ps[0])] + [];
      AtCons(ts, p, Id(ps[0]), []);
    } else {
      assert ParamTokens(ps) == [];
    }
  }

  /** An open tree written without parentheses, with the newlines after it that it takes, and
      then nothing that could belong to it, unless `w` says so. */
  ghost predicate OpenAt(ts: seq<Token>, w: Want, p: nat) {
    w.bare && Expects(ts, w, PIPE, p)
  }

  lemma BareIsOpen(ts: seq<Token>, w: Want, l: nat, p: nat)
    requires w.bare && Expects(ts, w, l, p)
    ensures OpenAt(ts, w, p) && Form(w, l) == Form(w, PIPE)
  {
    hide Printable, Spelled, Raw, Open, Trailing, Words, NameEnds, GrowLevel, Lines;
  }

  lemma OpenSpelled(ts: seq<Token>, w: Want, p: nat)
    requires OpenAt(ts, w, p)
    ensures Printable(w.tree) && Open(w.tree) && Spelled(ts, p, Raw(w.tree)) && Spelled(ts, p + |Raw(w.tree)|, Lines(w.lines))
    ensures |Form(w, PIPE)| == |Raw(w.tree)| + w.lines
  {
    hide Printable, Raw, Open, Stops, Lines;
    if w.lines > 0 {
      hide Spelled;
      AtCat(ts, p, Raw(w.tree), Lines(w.lines));
    } else {
      assert Lines(w.lines) == [];
    }
  }

  /** The part that an open tree ends with. */
  function LastOf(t: Expr): Option<Expr> {
    match t
    case Lambda(_, b) => Some(b)
    case If(_, a, b) => if b.Some? then b else Some(a)
    case Try(a, b) => if b.Some? then b else Some(a)
    case For(_, _, _, b) => Some(b)
    case Raise(m) => Some(m)
    case _ => None
  }

  /** What cannot go on with an open tree cannot go on with its last part. */
  lemma LastStops(ts: seq<Token>, p: nat, w: Want, b: Expr)
    requires OpenAt(ts, w, p) && LastOf(w.tree) == Some(b)
    ensures Stops(ts, p + |Raw(w.tree)| + Tail(b, w).lines, Tail(b, w), PIPE)
  {
    hide Printable, Raw, Spelled, Expects;
    OpenSpelled(ts, w, p);
    var q := p + |Raw(w.tree)|;
    assert Stops(ts, q + w.lines, w, PIPE) by { OpenStops(ts, w, p); }
    hide OpenAt;
    if Newline !in Words(b) && w.lines > 0 {
      FirstLine(ts, q, w.lines);
      NewlineStops(ts, q, b);
    } else {
      SameStops(ts, q + w.lines, w, b);
    }
  }

  lemma OpenStops(ts: seq<Token>, w: Want, p: nat)
    requires OpenAt(ts, w, p)
    ensures Stops(ts, p + |Form(w, PIPE)|, w, PIPE)
  {
    hide Printable, Raw, Spelled, Stops;
  }

  lemma FirstLine(ts: seq<Token>, q: nat, n: nat)
    requires Spelled(ts, q, Lines(n)) && n > 0
    ensures q < |ts| && ts[q] == NEWLINE && KindAt(ts, q) == Newline && Spelled(ts, q + 1, Lines(n - 1))
  {
    hide Spelled;
    AtCons(ts, q, NEWLINE, Lines(n - 1));
  }

  /** A newline ends every tree that does not take it. */
  lemma NewlineStops(ts: seq<Token>, q: nat, b: Expr)
    requires KindAt(ts, q) == Newline && Newline !in Words(b)
    ensures Stops(ts, q, Whole(b), PIPE)
  {
    hide Trailing, Words, Stuck;
    StuckBelow(b, PIPE, -1);
  }

  lemma SameStops(ts: seq<Token>, p: nat, w: Want, b: Expr)
    requires Stops(ts, p, w, PIPE) && w.bare && LastOf(w.tree) == Some(b) && (w.lines > 0 ==> Newline in Words(b))
    ensures Stops(ts, p, Tail(b, w), PIPE)
  {
    hide NameEnds, GrowLevel, Stuck, Scopes;
    if Words(b) != {} { WordsOpen(b); }
    if w.lines == 0 { StuckBelow(b, PIPE, GrowLevel(KindAt(ts, p))); }
  }

  lemma WordsOpen(b: Expr)
    requires Words(b) != {}
    ensures Open(b)
  {
  }

  lemma LastAt(ts: seq<Token>, w: Want, b: Expr, p: nat, q: nat)
    requires OpenAt(ts, w, p) && LastOf(w.tree) == Some(b) && Printable(b)
    requires Spelled(ts, q, Print(b, 0)) && q + |Print(b, 0)| == p + |Raw(w.tree)|
    ensures Expects(ts, Tail(b, w), PIPE, q) && |Form(Tail(b, w), PIPE)| == |Print(b, 0)| + Tail(b, w).lines
  {
    hide Raw, Print, Printable, Spelled, OpenAt, Stops, LastOf, Expects, Words, Lines;
    OpenSpelled(ts, w, p);
    LastStops(ts, p, w, b);
    TailAt(ts, w, b, q);
  }

  lemma TailAt(ts: seq<Token>, w: Want, b: Expr, q: nat)
    requires Printable(b) && Spelled(ts, q, Print(b, 0)) && Spelled(ts, q + |Print(b, 0)|, Lines(w.lines))
    requires Stops(ts, q + |Print(b, 0)| + Tail(b, w).lines, Tail(b, w), PIPE)
    ensures Expects(ts, Tail(b, w), PIPE, q) && |Form(Tail(b, w), PIPE)| == |Print(b, 0)| + Tail(b, w).lines
  {
    hide Raw, Printable, Stops, Words, Lines, Spelled;
    if Newline in Words(b) && w.lines > 0 {
      WordsOpen(b);
      assert Print(b, 0) == Raw(b);
      AtJoin(ts, q, Raw(b), Lines(w.lines));
    } else if Newline in Words(b) {
      WordsOpen(b);
    }
  }

  // ----- a whole tree and the newlines behind it -----

  /** From `q` on, right behind the tree, stand the `n` newlines that the tree takes, and then
      nothing that belongs to it. */
  ghost predicate Followed(ts: seq<Token>, t: Expr, q: nat, n: nat) {
    if n == 0 then Stops(ts, q, Whole(t), PIPE)
    else Newline in Words(t) && Spelled(ts, q, Lines(n)) && KindAt(ts, q + n) !in Words(t)
  }

  /** The tree with what is known of the token behind those newlines. */
  ghost function Laid(ts: seq<Token>, t: Expr, q: nat, n: nat): Want {
    Want(t, Open(t), n > 0 && GrowLevel(KindAt(ts, q + n)) >= 0, n)
  }

  lemma LaidAt(ts: seq<Token>, t: Expr, p: nat, n: nat)
    requires Printable(t) && Spelled(ts, p, Print(t, 0)) && Followed(ts, t, p + |Print(t, 0)|, n)
    ensures var w := Laid(ts, t, p + |Print(t, 0)|, n);
      Expects(ts, w, PIPE, p) && |Form(w, PIPE)| == |Print(t, 0)| + n
  {
    hide Raw, Printable, Spelled, GrowLevel, Words, Lines;
    if n == 0 {
      WholeAt(ts, t, p);
    } else {
      WordsOpen(t);
      assert Print(t, 0) == Raw(t);
      AtJoin(ts, p, Raw(t), Lines(n));
    }
  }

  lemma BareParts(ts: seq<Token>, w: Want, p: nat)
    requires OpenAt(ts, w, p) && w.tree.Lambda? && |w.tree.params| == 1
    ensures p + 1 < |ts| && ts[p] == Id(w.tree.params[0]) && ts[p + 1].kind == Operator("=>")
    ensures Expects(ts, Tail(w.tree.body, w), PIPE, p + 2) && |Form(w, PIPE)| == 2 + |Form(Tail(w.tree.body, w), PIPE)|
  {
    hide Spelled, OpenAt, Print, Expects, Form;
    OpenSpelled(ts, w, p);
    var t := w.tree;
    var b := Print(t.body, 0);
    assert Raw(t) == [Id(t.params[0]), Op("=>")] + b;
    hide Raw;
    AtTwo(ts, p, Id(t.params[0]), Op("=>"), b);
    LastAt(ts, w, t.body, p, p + 2);
    TailLines(ts, w, p, t.body);
  }

  /** Unless the tree takes the newlines itself, its last part takes them all. */
  lemma TailLines(ts: seq<Token>, w: Want, p: nat, b: Expr)
    requires OpenAt(ts, w, p) && LastOf(w.tree) == Some(b)
    ensures !Takes(w.tree) ==> Tail(b, w).lines == w.lines && Tail(b, w).over == w.over
    ensures Takes(w.tree) ==> Tail(b, w) == Whole(b)
  {
    hide Spelled, Printable, Raw;
  }

  lemma LambdaParts(ts: seq<Token>, w: Want, p: nat)
    requires OpenAt(ts, w, p) && w.tree.Lambda? && |w.tree.params| != 1
    ensures p < |ts| && ts[p].kind == Operator("(") && ParamsAt(ts, w.tree.params, p + 1)
    ensures var q := p + 1 + |ParamTokens(w.tree.params)|;
      KindAt(ts, q + 1) == Operator("=>") && Expects(ts, Tail(w.tree.body, w), PIPE, q + 2)
    ensures |Form(w, PIPE)| == 3 + |ParamTokens(w.tree.params)| + |Form(Tail(w.tree.body, w), PIPE)|
  {
    hide Spelled, OpenAt, Print, Raw, ParamTokens, Expects, Form, Tail, Lines, Words;
    OpenSpelled(ts, w, p);
    var t := w.tree;
    LambdaSpelled(ts, t, p);
    LambdaPrintable(t);
    LastAt(ts, w, t.body, p, p + 3 + |ParamTokens(t.params)|);
    TailLines(ts, w, p, t.body);
  }

  lemma LambdaPrintable(t: Expr)
    requires t.Lambda?
    ensures Printable(t) ==> Printable(t.body)
    ensures !Takes(t) && LastOf(t) == Some(t.body)
  {
  }

  /** The parameters, the arrow and the body, token by token. */
  lemma LambdaSpelled(ts: seq<Token>, t: Expr, p: nat)
    requires t.Lambda? && |t.params| != 1 && Spelled(ts, p, Raw(t))
    ensures p < |ts| && ts[p].kind == Operator("(") && ParamsAt(ts, t.params, p + 1)
    ensures var q := p + 1 + |ParamTokens(t.params)|;
      KindAt(ts, q + 1) == Operator("=>") && Spelled(ts, q + 2, Print(t.body, 0)) && p + |Raw(t)| == q + 2 + |Print(t.body, 0)|
  {
    hide Spelled, Print, ParamTokens;
    var b, ps := Print(t.body, 0), ParamTokens(t.params);
    LambdaRaw(t);
    hide Raw;
    var tail := [Op(")"), Op("=>")] + b;
    AtCons(ts, p, Op("("), ps + tail);
    AtCat(ts, p + 1, ps, tail);
    AtTwo(ts, p + 1 + |ps|, Op(")"), Op("=>"), b);
  }

  lemma LambdaRaw(t: Expr)
    requires t.Lambda? && |t.params| != 1
    ensures Raw(t) == [Op("(")] + (ParamTokens(t.params) + ([Op(")"), Op("=>")] + Print(t.body, 0)))
  {
    hide Print, ParamTokens;
    var ps, arrow, b := ParamTokens(t.params), [Op(")"), Op("=>")], Print(t.body, 0);
    assert ([Op("(")] + (ps + arrow)) + b == [Op("(")] + (ps + (arrow + b));
  }

  /** A parenthesised tree: what follows the parenthesis is no list of parameters. */
  lemma GroupParts(ts: seq<Token>, w: Want, p: nat)
    requires Expects(ts, w, PRIMARY, p) && !w.bare && Level(w.tree) < PRIMARY
    ensures p < |ts| && ts[p].kind == Operator("(") && Enclosed(ts, w.tree, p + 1, Operator(")"))
    ensures |Form(w, PRIMARY)| == 2 + |Form(Whole(w.tree), PIPE)|
    ensures KindAt(ts, p + 1) != Operator(")") && (KindAt(ts, p + 1).Ident? ==> NoList(KindAt(ts, p + 2)))
  {
    hide Raw, Printable;
    var t := w.tree;
    assert Form(w, PRIMARY) == [Op("(")] + (Raw(t) + [Op(")")]) && Print(t, 0) == Raw(t);
    hide Print;
    AtCons(ts, p, Op("("), Raw(t) + [Op(")")]);
    EnclosedAt(ts, t, p + 1, Op(")"));
    AtLast(ts, p + 1, Raw(t), Op(")"));
    GroupFront(ts, t, p + 1);
  }

  lemma GroupFront(ts: seq<Token>, t: Expr, p: nat)
    requires Printable(t) && Level(t) < PRIMARY && Spelled(ts, p, Raw(t))
    ensures KindAt(ts, p) != Operator(")") && (KindAt(ts, p).Ident? ==> NoList(KindAt(ts, p + 1)))
  {
    hide Printable, Raw;
    Begins(t, 0);
    Front(t);
    assert ts[p] == Raw(t)[0];
    if |Raw(t)| >= 2 {
      assert ts[p + 1] == ts[p..p + |Raw(t)|][1] == Raw(t)[1];
    }
  }

  // ----- primary trees -----

  /** The kind of token that each kind of tree begins with. */
  ghost predicate Leads(w: Want, k: TokenType) {
    if !w.bare && Level(w.tree) < PRIMARY then k == Operator("(")
    else match w.tree
      case Lit(kind, _) => k == kind && LitKind(k)
      case Var(_) => k.Ident?
      case Call(_, _) => k.Ident?
      case Lambda(ps, _) => if |ps| == 1 then k.Ident? else k == Operator("(")
      case Array(_) => k == Operator("[")
      case Object(_) => k == Operator("{")
      case Query(_) => k == Keyword("query")
      case Interpolated(_) => k == StringStart
      case If(_, _, _) => k == Keyword("if")
      case Match(_, _) => k == Keyword("match")
      case Try(_, _) => k == Keyword("try")
      case For(_, _, _, _) => k == Keyword("for")
      case Raise(_) => k == Keyword("raise")
      case _ => false
  }

  lemma PrimaryLeads(ts: seq<Token>, w: Want, p: nat)
    requires Expects(ts, w, PRIMARY, p)
    ensures p < |ts| && Leads(w, ts[p].kind)
  {
    hide ListTokens, FieldTokens, ArmTokens, Starts, ParamTokens, SegTokens, ScopeTokens;
    FormStarts(ts, w, PRIMARY, p);
    var f := Form(w, PRIMARY);
    assert ts[p] == f[0];
    if !w.bare && Level(w.tree) < PRIMARY {
      assert f[0] == Op("(");
    } else {
      assert Raw(w.tree) != [] by { Begins(w.tree, 0); }
      assert f[0] == Raw(w.tree)[0];
    }
  }

  /** Only an `if` begins with that word. */
  lemma WholeIf(ts: seq<Token>, w: Want, p: nat)
    requires Expects(ts, w, PIPE, p) && w.bare == Open(w.tree)
    ensures p < |ts| && (ts[p].kind == Keyword("if") <==> w.tree.If?)
  {
    hide Printable, Spelled, Raw, Print, Starts;
    if w.bare {
      assert Expects(ts, w, PRIMARY, p);
      PrimaryLeads(ts, w, p);
    } else {
      FormStarts(ts, w, PIPE, p);
      NotIf(ts[p].kind);
    }
  }

  lemma NotIf(k: TokenType)
    requires Starts(k, PIPE)
    ensures k != Keyword("if")
  {
  }

  /** A tree that is spelled as it is, not in parentheses. */
  ghost predicate Plain(ts: seq<Token>, w: Want, p: nat) {
    Expects(ts, w, PRIMARY, p) && !w.bare && !w.over && Level(w.tree) == PRIMARY
  }

  lemma PlainRaw(ts: seq<Token>, w: Want, p: nat)
    requires Plain(ts, w, p)
    ensures Form(w, PRIMARY) == Raw(w.tree) && Spelled(ts, p, Raw(w.tree))
  {
    hide Raw, Spelled, Printable;
  }

  lemma LitParts(ts: seq<Token>, w: Want, p: nat)
    requires Plain(ts, w, p) && w.tree.Lit?
    ensures p < |ts| && ts[p] == Token(w.tree.kind, w.tree.text) && |Form(w, PRIMARY)| == 1
  {
    hide Closes;
    PlainRaw(ts, w, p);
    assert Raw(w.tree) == [Token(w.tree.kind, w.tree.text)] + [];
    AtCons(ts, p, Token(w.tree.kind, w.tree.text), []);
  }

  lemma VarParts(ts: seq<Token>, w: Want, p: nat)
    requires Plain(ts, w, p) && w.tree.Var?
    ensures NameAt(ts, w.tree.name, p) && |Form(w, PRIMARY)| == |NameTokens(w.tree.name)|
    ensures var k := KindAt(ts, p + |NameTokens(w.tree.name)|);
      k != Operator("(") && (PlainName(w.tree.name) ==> k != Operator("=>"))
  {
    hide Spelled, NameTokens;
    PlainRaw(ts, w, p);
    assert Raw(w.tree) == NameTokens(w.tree.name);
  }

  /** A plain name that goes on as a scoped one. */
  lemma OverName(ts: seq<Token>, w: Want, p: nat)
    requires Expects(ts, w, PRIMARY, p) && w.over && !w.bare
    ensures p < |ts| && ts[p].kind.Ident? && w.tree.Var? && PlainName(w.tree.name) && Scopes(ts, p + 1)
  {
    hide Spelled;
    PrimaryLeads(ts, w, p);
    assert Raw(w.tree) == NameTokens(w.tree.name) == [Id(w.tree.name.head)] + ([] + []);
  }

  lemma CallTree(ts: seq<Token>, w: Want, p: nat)
    requires Plain(ts, w, p) && w.tree.Call?
    ensures var n := w.tree.callee; NameAt(ts, n, p) && ArgsAt(ts, w.tree.args, p + |NameTokens(n)|) && !IsQuery(n, w.tree.args)
    ensures |Form(w, PRIMARY)| == |NameTokens(w.tree.callee)| + |ListTokens(w.tree.args)| + 2
  {
    hide Spelled, NameTokens, ListTokens;
    PlainRaw(ts, w, p);
    assert Raw(w.tree) == NameTokens(w.tree.callee) + ([Op("(")] + (ListTokens(w.tree.args) + [Op(")")]));
    CallParts(ts, w.tree.callee, w.tree.args, p);
  }

  lemma ArrayParts(ts: seq<Token>, w: Want, p: nat)
    requires Plain(ts, w, p) && w.tree.Array?
    ensures p < |ts| && ts[p].kind == Operator("[") && ListAt(ts, w.tree.elems, p + 1, Operator("]"))
    ensures |Form(w, PRIMARY)| == |ListTokens(w.tree.elems)| + 2
  {
    hide Spelled, ListTokens;
    PlainRaw(ts, w, p);
    assert Raw(w.tree) == [Op("[")] + (ListTokens(w.tree.elems) + [Op("]")]);
    AtCons(ts, p, Op("["), ListTokens(w.tree.elems) + [Op("]")]);
    ListClosed(ts, w.tree.elems, p + 1, Op("]"));
  }

  lemma QueryParts(ts: seq<Token>, w: Want, p: nat)
    requires Plain(ts, w, p) && w.tree.Query?
    ensures p + 1 < |ts| && ts[p].kind == Keyword("query") && ts[p + 1].kind == Operator("(")
    ensures Enclosed(ts, w.tree.dataset, p + 2, Operator(")")) && |Form(w, PRIMARY)| == 3 + |Form(Whole(w.tree.dataset), PIPE)|
  {
    hide Spelled;
    var d := Print(w.tree.dataset, 0) + [Op(")")];
    PlainRaw(ts, w, p);
    assert Raw(w.tree) == [Kw("query"), Op("(")] + d;
    hide Print, Raw;
    AtTwo(ts, p, Kw("query"), Op("("), d);
    EnclosedAt(ts, w.tree.dataset, p + 2, Op(")"));
  }

  // ----- strings with embedded expressions -----

  ghost predicate PartsAt(ts: seq<Token>, ps: seq<Expr>, p: nat) {
    PrintableAll(ps) && Spelled(ts, p, PartTokens(ps)) && KindAt(ts, p + |PartTokens(ps)|) == StringEnd
  }

  lemma InterpolatedParts(ts: seq<Token>, w: Want, p: nat)
    requires Plain(ts, w, p) && w.tree.Interpolated?
    ensures p < |ts| && ts[p] == Token(StringStart, "") && PartsAt(ts, w.tree.parts, p + 1)
    ensures var q := p + 1 + |PartTokens(w.tree.parts)|; q < |ts| && ts[q] == Token(StringEnd, "")
    ensures |Form(w, PRIMARY)| == |PartTokens(w.tree.parts)| + 2
  {
    hide Spelled, PartTokens;
    PlainRaw(ts, w, p);
    var ps := PartTokens(w.tree.parts);
    assert Raw(w.tree) == [Token(StringStart, "")] + (ps + [Token(StringEnd, "")]);
    AtCons(ts, p, Token(StringStart, ""), ps + [Token(StringEnd, "")]);
    AtLast(ts, p + 1, ps, Token(StringEnd, ""));
  }

  /** A piece of text, or an expression in braces, and then the rest. */
  ghost predicate PartNext(ts: seq<Token>, ps: seq<Expr>, p: nat)
    requires ps != []
  {
    if IsText(ps[0]) then
      p < |ts| && ts[p] == Token(StringPart, ps[0].text) && PartsAt(ts, ps[1..], p + 1)
      && |PartTokens(ps)| == 1 + |PartTokens(ps[1..])|
    else
      var q := p + 1 + |Form(Whole(ps[0]), PIPE)|;
      && KindAt(ts, p) == InterpStart && Expects(ts, Whole(ps[0]), PIPE, p + 1) && KindAt(ts, q) == InterpEnd
      && PartsAt(ts, ps[1..], q + 1) && |PartTokens(ps)| == q + 1 - p + |PartTokens(ps[1..])|
  }

  lemma PartStep(ts: seq<Token>, ps: seq<Expr>, p: nat)
    requires PartsAt(ts, ps, p) && ps != []
    ensures PartNext(ts, ps, p)
  {
    hide Print, Raw, Spelled, Printable, PrintableAll, Expects, Form, PartTokens;
    AllPrintable(ps);
    PartsSplit(ps);
    if IsText(ps[0]) {
      AtCons(ts, p, Token(StringPart, ps[0].text), PartTokens(ps[1..]));
    } else {
      HoleStep(ts, ps[0], p, PartTokens(ps[1..]));
    }
  }

  /** An expression in braces. */
  lemma HoleStep(ts: seq<Token>, e: Expr, p: nat, rest: seq<Token>)
    requires Printable(e) && Spelled(ts, p, [Token(InterpStart, "{")] + (Print(e, 0) + ([Token(InterpEnd, "}")] + rest)))
    ensures var q := p + 1 + |Form(Whole(e), PIPE)|;
      && KindAt(ts, p) == InterpStart && Expects(ts, Whole(e), PIPE, p + 1) && KindAt(ts, q) == InterpEnd
      && Spelled(ts, q + 1, rest)
    ensures |[Token(InterpStart, "{")] + (Print(e, 0) + ([Token(InterpEnd, "}")] + rest))| == |Form(Whole(e), PIPE)| + 2 + |rest|
  {
    hide Print, Raw, Spelled, Printable, Expects, Form;
    var x := Print(e, 0);
    AtCons(ts, p, Token(InterpStart, "{"), x + ([Token(InterpEnd, "}")] + rest));
    AtCat(ts, p + 1, x, [Token(InterpEnd, "}")] + rest);
    AtCons(ts, p + 1 + |x|, Token(InterpEnd, "}"), rest);
    HoleCloses(ts, p + 1 + |x|);
    WholeExpects(ts, e, p + 1);
  }

  lemma HoleCloses(ts: seq<Token>, p: nat)
    requires KindAt(ts, p) == InterpEnd
    ensures Closes(ts, p)
  {
  }

  lemma PartsSplit(ps: seq<Expr>)
    requires ps != []
    ensures PartTokens(ps) ==
      if IsText(ps[0]) then [Token(StringPart, ps[0].text)] + PartTokens(ps[1..])
      else [Token(InterpStart, "{")] + (Print(ps[0], 0) + ([Token(InterpEnd, "}")] + PartTokens(ps[1..])))
  {
    hide Print;
  }

  /** Parts are left exactly while the string has not ended. */
  lemma PartsHere(ts: seq<Token>, ps: seq<Expr>, p: nat)
    requires PartsAt(ts, ps, p)
    ensures KindAt(ts, p) == StringEnd <==> ps == []
    ensures KindAt(ts, p) in {StringEnd, StringPart, InterpStart}
    ensures ps != [] ==> (KindAt(ts, p) == StringPart <==> IsText(ps[0]))
  {
    hide Print, Raw, Spelled, Printable, PrintableAll, Expects, Form, PartTokens;
    if ps == [] {
      NoParts(ps);
    } else {
      PartStep(ts, ps, p);
    }
  }

  lemma NoParts(ps: seq<Expr>)
    requires ps == []
    ensures PartTokens(ps) == []
  {
  }

  // ----- objects -----

  ghost predicate FieldsAt(ts: seq<Token>, fs: seq<Entry>, p: nat) {
    PrintableFields(fs) && Spelled(ts, p, FieldTokens(fs)) && KindAt(ts, p + |FieldTokens(fs)|) == Operator("}")
  }

  lemma ObjectParts(ts: seq<Token>, w: Want, p: nat)
    requires Plain(ts, w, p) && w.tree.Object?
    ensures p < |ts| && ts[p].kind == Operator("{") && FieldsAt(ts, w.tree.fields, p + 1)
    ensures |Form(w, PRIMARY)| == |FieldTokens(w.tree.fields)| + 2
  {
    hide Spelled, FieldTokens;
    PlainRaw(ts, w, p);
    assert Raw(w.tree) == [Op("{")] + (FieldTokens(w.tree.fields) + [Op("}")]);
    AtCons(ts, p, Op("{"), FieldTokens(w.tree.fields) + [Op("}")]);
    AtLast(ts, p + 1, FieldTokens(w.tree.fields), Op("}"));
  }

  /** A key, a colon, a value, and then the rest after a comma. */
  ghost predicate FieldsNext(ts: seq<Token>, fs: seq<Entry>, p: nat)
    requires fs != []
  {
    var v := fs[0].value;
    var f := |Form(Whole(v), PIPE)|;
    && p + 1 < |ts| && ts[p] == Token(String, fs[0].key) && ts[p + 1].kind == Operator(":")
    && Expects(ts, Whole(v), PIPE, p + 2)
    && Starts(KindAt(ts, p + 2), OPEN)
    && (|fs| == 1 ==> KindAt(ts, p + 2 + f) == Operator("}") && |FieldTokens(fs)| == f + 2)
    && (|fs| > 1 ==> KindAt(ts, p + 2 + f) == Operator(",") && FieldsAt(ts, fs[1..], p + f + 3)
                     && |FieldTokens(fs)| == f + 3 + |FieldTokens(fs[1..])|)
  }

  /** The first entry, and what comes after its value. */
  ghost predicate FieldRead(ts: seq<Token>, fs: seq<Entry>, p: nat, q: nat)
    requires fs != []
  {
    && p + 1 < |ts| && ts[p] == Token(String, fs[0].key) && ts[p + 1].kind == Operator(":")
    && Spelled(ts, p + 2, Print(fs[0].value, 0)) && q == p + 2 + |Print(fs[0].value, 0)|
  }

  lemma FieldsRead(ts: seq<Token>, fs: seq<Entry>, p: nat)
    requires FieldsAt(ts, fs, p) && fs != []
    ensures var q := p + 2 + |Print(fs[0].value, 0)|;
      FieldRead(ts, fs, p, q) &&
      if |fs| == 1 then KindAt(ts, q) == Operator("}") && |FieldTokens(fs)| == q - p
      else KindAt(ts, q) == Operator(",") && FieldsAt(ts, fs[1..], q + 1) && |FieldTokens(fs)| == q + 1 - p + |FieldTokens(fs[1..])|
  {
    hide *;
    if |fs| == 1 { FieldsOne(ts, fs, p); } else { FieldsMore(ts, fs, p); }
  }

  lemma FieldsOne(ts: seq<Token>, fs: seq<Entry>, p: nat)
    requires FieldsAt(ts, fs, p) && |fs| == 1
    ensures var q := p + 2 + |Print(fs[0].value, 0)|;
      FieldRead(ts, fs, p, q) && KindAt(ts, q) == Operator("}") && |FieldTokens(fs)| == q - p
  {
    hide Print, Spelled, Printable, PrintableFields, FieldTokens, KindAt;
    FieldsSplit(fs);
    AtTwo(ts, p, Token(String, fs[0].key), Op(":"), Print(fs[0].value, 0));
  }

  lemma FieldsUnfold(ts: seq<Token>, fs: seq<Entry>, p: nat)
    requires Spelled(ts, p, FieldTokens(fs)) && |fs| > 1
    ensures var v, rest := Print(fs[0].value, 0), FieldTokens(fs[1..]);
      Spelled(ts, p, [Token(String, fs[0].key), Op(":")] + (v + ([Op(",")] + rest))) && |FieldTokens(fs)| == 3 + |v| + |rest|
  {
    hide Print, Spelled, FieldTokens;
    FieldsSplit(fs);
  }

  lemma FieldsMore(ts: seq<Token>, fs: seq<Entry>, p: nat)
    requires FieldsAt(ts, fs, p) && |fs| > 1
    ensures var q := p + 2 + |Print(fs[0].value, 0)|;
      FieldRead(ts, fs, p, q) && KindAt(ts, q) == Operator(",") && FieldsAt(ts, fs[1..], q + 1) &&
      |FieldTokens(fs)| == q + 1 - p + |FieldTokens(fs[1..])|
  {
    hide Print, Spelled, Printable, PrintableFields, FieldTokens, KindAt;
    FieldsPrintable(fs);
    var v, rest := Print(fs[0].value, 0), FieldTokens(fs[1..]);
    FieldsUnfold(ts, fs, p);
    AtTwo(ts, p, Token(String, fs[0].key), Op(":"), v + ([Op(",")] + rest));
    AtCat(ts, p + 2, v, [Op(",")] + rest);
    AtCons(ts, p + 2 + |v|, Op(","), rest);
    KindIs(ts, p + 2 + |v|);
  }

  lemma FieldsNone(ts: seq<Token>, p: nat)
    requires FieldsAt(ts, [], p)
    ensures KindAt(ts, p) == Operator("}") && |FieldTokens([])| == 0
  {
  }

  lemma ValueRead(ts: seq<Token>, t: Expr, p: nat)
    requires Printable(t) && Spelled(ts, p, Print(t, 0)) && KindAt(ts, p + |Print(t, 0)|) in {Operator(","), Operator("}")}
    ensures Expects(ts, Whole(t), PIPE, p) && Form(Whole(t), PIPE) == Print(t, 0) && Starts(KindAt(ts, p), OPEN)
  {
    hide *;
    FieldEnds(KindAt(ts, p + |Print(t, 0)|));
    CloserCloses(ts, p + |Print(t, 0)|);
    WholeExpects(ts, t, p);
    WholeStarts(ts, t, p);
  }

  lemma FieldsStep(ts: seq<Token>, fs: seq<Entry>, p: nat)
    requires FieldsAt(ts, fs, p)
    ensures fs == [] ==> KindAt(ts, p) == Operator("}") && |FieldTokens(fs)| == 0
    ensures fs != [] ==> FieldsNext(ts, fs, p)
  {
    hide Print, Raw, Spelled, Printable, Closer, Starts, Expects, Form, Whole, FieldsAt, FieldTokens, KindAt, PrintableFields;
    if fs == [] {
      FieldsNone(ts, p);
    } else {
      FieldsRead(ts, fs, p);
      assert Printable(fs[0].value) by { FieldsGood(ts, fs, p); }
      ValueRead(ts, fs[0].value, p + 2);
    }
  }

  lemma FieldsGood(ts: seq<Token>, fs: seq<Entry>, p: nat)
    requires FieldsAt(ts, fs, p) && fs != []
    ensures Printable(fs[0].value)
  {
  }

  lemma FieldEnds(k: TokenType)
    requires k in {Operator(","), Operator("}")}
    ensures Closer(k)
  {
  }

  lemma FieldsPrintable(fs: seq<Entry>)
    requires PrintableFields(fs) && fs != []
    ensures Printable(fs[0].value) && PrintableFields(fs[1..])
  {
  }

  lemma FieldsSplit(fs: seq<Entry>)
    requires fs != []
    ensures FieldTokens(fs) == [Token(String, fs[0].key), Op(":")] +
      (if |fs| == 1 then Print(fs[0].value, 0) else Print(fs[0].value, 0) + ([Op(",")] + FieldTokens(fs[1..])))
  {
    hide Print;
  }

  // ----- from the first token to the kind of tree -----

  lemma LitCase(ts: seq<Token>, w: Want, p: nat)
    requires Expects(ts, w, PRIMARY, p) && (w.over ==> w.bare) && LitKind(KindAt(ts, p))
    ensures w.tree == Lit(ts[p].kind, ts[p].val) && |Form(w, PRIMARY)| == 1 && !w.over
  {
    PrimaryLeads(ts, w, p);
    assert w.tree.Lit?;
    assert !w.bare && Level(w.tree) == PRIMARY;
    LitParts(ts, w, p);
  }

  /** The word that such a tree begins with. */
  predicate OpenedBy(t: Expr, k: TokenType) {
    match t
    case If(_, _, _) => k == Keyword("if")
    case Match(_, _) => k == Keyword("match")
    case Try(_, _) => k == Keyword("try")
    case For(_, _, _, _) => k == Keyword("for")
    case Raise(_) => k == Keyword("raise")
    case _ => false
  }

  lemma OpenCase(ts: seq<Token>, w: Want, p: nat)
    requires Expects(ts, w, PRIMARY, p) && OpensTree(KindAt(ts, p))
    ensures p < |ts| && OpenAt(ts, w, p) && Form(w, PRIMARY) == Form(w, PIPE)
    ensures OpenedBy(w.tree, ts[p].kind)
  {
    hide Expects, Form;
    PrimaryLeads(ts, w, p);
    assert w.bare;
    BareIsOpen(ts, w, PRIMARY, p);
  }

  ghost predicate ArrowNext(ts: seq<Token>, w: Want, p: nat) {
    OpenAt(ts, w, p) && w.tree.Lambda? && |w.tree.params| == 1 && Form(w, PRIMARY) == Form(w, PIPE)
  }

  lemma NameCase(ts: seq<Token>, w: Want, p: nat)
    requires Expects(ts, w, PRIMARY, p) && (w.over ==> w.bare) && KindAt(ts, p).Ident?
    ensures if KindAt(ts, p + 1) == Operator("=>") then ArrowNext(ts, w, p) else Plain(ts, w, p) && (w.tree.Var? || w.tree.Call?)
  {
    PrimaryLeads(ts, w, p);
    hide Form, Leads, Expects, NameTokens, NameAt, ListAt, Spelled, Raw, Printable;
    if w.bare || Level(w.tree) < PRIMARY {
      assert w.bare && w.tree.Lambda? && |w.tree.params| == 1 by { NameLeads(ts, w, p); }
      BareIsOpen(ts, w, PRIMARY, p);
      BareParts(ts, w, p);
    } else {
      assert w.tree.Var? || w.tree.Call? by { NameLeads(ts, w, p); }
      if w.tree.Var? {
        VarParts(ts, w, p);
        NameNoArrow(ts, w.tree.name, p);
      } else {
        CallTree(ts, w, p);
        NameNoArrow(ts, w.tree.callee, p);
      }
    }
  }

  lemma NameLeads(ts: seq<Token>, w: Want, p: nat)
    requires Leads(w, KindAt(ts, p)) && KindAt(ts, p).Ident? && (w.bare ==> Open(w.tree)) && Printable(w.tree)
    ensures if w.bare || Level(w.tree) < PRIMARY then w.bare && w.tree.Lambda? && |w.tree.params| == 1
            else w.tree.Var? || w.tree.Call?
  {
  }

  lemma GroupCase(ts: seq<Token>, w: Want, p: nat)
    requires Expects(ts, w, PRIMARY, p) && KindAt(ts, p) == Operator("(")
    ensures if w.bare then OpenAt(ts, w, p) && w.tree.Lambda? && |w.tree.params| != 1 && Form(w, PRIMARY) == Form(w, PIPE)
            else Level(w.tree) < PRIMARY
  {
    PrimaryLeads(ts, w, p);
    if w.bare {
      hide Expects, Form;
      BareIsOpen(ts, w, PRIMARY, p);
    }
  }

  predicate OpensBracket(k: TokenType) {
    k in {Operator("["), Operator("{"), Keyword("query"), StringStart}
  }

  predicate BracketedBy(t: Expr, k: TokenType) {
    match t
    case Array(_) => k == Operator("[")
    case Object(_) => k == Operator("{")
    case Query(_) => k == Keyword("query")
    case Interpolated(_) => k == StringStart
    case _ => false
  }

  lemma BracketCase(ts: seq<Token>, w: Want, p: nat)
    requires Expects(ts, w, PRIMARY, p) && (w.over ==> w.bare) && OpensBracket(KindAt(ts, p))
    ensures p < |ts| && Plain(ts, w, p) && BracketedBy(w.tree, ts[p].kind)
  {
    hide Form;
    PrimaryLeads(ts, w, p);
    hide Expects;
  }
}
