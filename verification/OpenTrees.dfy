/** What the parser meets where an `if`, `match`, `try`, `for` or `raise` is spelled. */
module OpenTrees {
  import opened Tokens
  import opened Grammar
  import opened Reading
  import opened Shapes

  /** An inner expression that a word or a colon ends. */
  ghost predicate Before(ts: seq<Token>, t: Expr, p: nat, k: TokenType) {
    Expects(ts, Inner(t), PIPE, p) && KindAt(ts, p + |Form(Inner(t), PIPE)|) == k
  }

  /** A word that ends an inner expression. */
  predicate Word(k: TokenType) {
    k in {Keyword("then"), Keyword("else"), Keyword("catch"), Keyword("when")}
  }

  lemma BeforeWord(ts: seq<Token>, t: Expr, p: nat, x: Token, s: seq<Token>)
    requires Printable(t) && Spelled(ts, p, Print(t, PIPE) + ([x] + s)) && Word(x.kind)
    ensures Before(ts, t, p, x.kind) && Spelled(ts, p + |Form(Inner(t), PIPE)| + 1, s)
    ensures |Print(t, PIPE) + ([x] + s)| == |Form(Inner(t), PIPE)| + 1 + |s|
  {
    hide Raw, Print, Printable, Spelled, Stops, Below;
    AtCat(ts, p, Print(t, PIPE), [x] + s);
    var q := p + |Print(t, PIPE)|;
    AtCons(ts, q, x, s);
    WordsStop(ts, q);
    InnerExpects(ts, t, PIPE, p);
  }

  lemma BeforeColon(ts: seq<Token>, t: Expr, p: nat, s: seq<Token>)
    requires Printable(t) && Spelled(ts, p, Print(t, PIPE) + ([Op(":")] + s))
    requires !(EndsPlain(t, PIPE) && Scopes(ts, p + |Print(t, PIPE)|))
    ensures Before(ts, t, p, Operator(":")) && Spelled(ts, p + |Form(Inner(t), PIPE)| + 1, s)
    ensures |Print(t, PIPE) + ([Op(":")] + s)| == |Form(Inner(t), PIPE)| + 1 + |s|
  {
    hide Raw, Print, Printable, Spelled, Stops, Scopes, EndsPlain;
    AtCat(ts, p, Print(t, PIPE), [Op(":")] + s);
    var q := p + |Print(t, PIPE)|;
    AtCons(ts, q, Op(":"), s);
    ColonStops(ts, q, t);
    InnerAt(ts, t, PIPE, p, false);
  }

  /** The newlines that the tree takes itself, behind its last part. */
  ghost predicate Taken(ts: seq<Token>, w: Want, p: nat, r: nat) {
    if Takes(w.tree) then Spelled(ts, r, Lines(w.lines)) && p + |Form(w, PIPE)| == r + w.lines
    else p + |Form(w, PIPE)| == r
  }

  ghost predicate IfAt(ts: seq<Token>, w: Want, p: nat)
    requires w.tree.If?
  {
    var t := w.tree;
    var q := p + 2 + |Form(Inner(t.cond), PIPE)|;
    p < |ts| && ts[p].kind == Keyword("if") && Before(ts, t.cond, p + 1, Keyword("then")) &&
    match t.els
    case None => Expects(ts, Tail(t.thn, w), PIPE, q) && Taken(ts, w, p, q + |Form(Tail(t.thn, w), PIPE)|)
    case Some(e) =>
      var r := q + 1 + |Form(Inner(t.thn), PIPE)|;
      Before(ts, t.thn, q, Keyword("else")) && Expects(ts, Tail(e, w), PIPE, r) && |Form(w, PIPE)| == r - p + |Form(Tail(e, w), PIPE)|
  }

  lemma IfParts(ts: seq<Token>, w: Want, p: nat)
    requires OpenAt(ts, w, p) && w.tree.If?
    ensures IfAt(ts, w, p)
  {
    hide Print, Spelled, OpenAt, Raw, Printable, Expects, Form, KindAt, Tail, Words, Lines;
    var t := w.tree;
    var s := IfTail(t);
    OpenSpelled(ts, w, p);
    RawIf(t);
    IfPrintable(t);
    AtCons(ts, p, Kw("if"), Print(t.cond, PIPE) + ([Kw("then")] + s));
    BeforeWord(ts, t.cond, p + 1, Kw("then"), s);
    var q := p + 2 + |Form(Inner(t.cond), PIPE)|;
    match t.els {
      case None =>
        LastAt(ts, w, t.thn, p, q);
        TailLines(ts, w, p, t.thn);
        WholeLines(t.thn);
      case Some(e) =>
        BeforeWord(ts, t.thn, q, Kw("else"), Print(e, 0));
        LastAt(ts, w, e, p, q + 1 + |Form(Inner(t.thn), PIPE)|);
        TailLines(ts, w, p, e);
    }
  }

  lemma WholeLines(t: Expr)
    ensures Whole(t).lines == 0
  {
  }

  function IfTail(t: Expr): seq<Token>
    requires t.If?
  {
    if t.els.None? then Print(t.thn, 0) else Print(t.thn, PIPE) + ([Kw("else")] + Print(t.els.value, 0))
  }

  lemma RawIf(t: Expr)
    requires t.If?
    ensures Raw(t) == [Kw("if")] + (Print(t.cond, PIPE) + ([Kw("then")] + IfTail(t)))
  {
    hide Print;
  }

  lemma IfPrintable(t: Expr)
    requires t.If? && Printable(t)
    ensures Printable(t.cond) && Printable(t.thn) && (t.els.Some? ==> Printable(t.els.value))
  {
  }

  ghost predicate TryAt(ts: seq<Token>, w: Want, p: nat)
    requires w.tree.Try?
  {
    var t := w.tree;
    p < |ts| && ts[p].kind == Keyword("try") &&
    match t.default
    case None => Expects(ts, Tail(t.tried, w), PIPE, p + 1) && |Form(w, PIPE)| == 1 + |Form(Tail(t.tried, w), PIPE)|
    case Some(d) =>
      var q := p + 2 + |Form(Inner(t.tried), PIPE)|;
      Before(ts, t.tried, p + 1, Keyword("catch")) && Expects(ts, Tail(d, w), PIPE, q) && |Form(w, PIPE)| == q - p + |Form(Tail(d, w), PIPE)|
  }

  lemma TryParts(ts: seq<Token>, w: Want, p: nat)
    requires OpenAt(ts, w, p) && w.tree.Try?
    ensures TryAt(ts, w, p)
  {
    hide Print, Spelled, OpenAt, Expects, Form, Tail, Lines;
    OpenSpelled(ts, w, p);
    var t := w.tree;
    var s := if t.default.None? then Print(t.tried, 0) else Print(t.tried, PIPE) + ([Kw("catch")] + Print(t.default.value, 0));
    assert Raw(t) == [Kw("try")] + s;
    assert Printable(t.tried) && (t.default.Some? ==> Printable(t.default.value));
    hide Raw, Printable;
    AtCons(ts, p, Kw("try"), s);
    match t.default {
      case None =>
        LastAt(ts, w, t.tried, p, p + 1);
        TailLines(ts, w, p, t.tried);
      case Some(d) =>
        BeforeWord(ts, t.tried, p + 1, Kw("catch"), Print(d, 0));
        LastAt(ts, w, d, p, p + 2 + |Form(Inner(t.tried), PIPE)|);
        TailLines(ts, w, p, d);
    }
  }

  lemma RaiseParts(ts: seq<Token>, w: Want, p: nat)
    requires OpenAt(ts, w, p) && w.tree.Raise?
    ensures p < |ts| && ts[p].kind == Keyword("raise") && Expects(ts, Tail(w.tree.message, w), PIPE, p + 1)
    ensures |Form(w, PIPE)| == 1 + |Form(Tail(w.tree.message, w), PIPE)|
  {
    hide Print, Spelled, OpenAt, Expects, Form, Tail, Lines;
    OpenSpelled(ts, w, p);
    var t := w.tree;
    assert Raw(t) == [Kw("raise")] + Print(t.message, 0);
    assert Printable(t.message);
    hide Raw, Printable;
    AtCons(ts, p, Kw("raise"), Print(t.message, 0));
    LastAt(ts, w, t.message, p, p + 1);
    TailLines(ts, w, p, t.message);
  }

  // ----- loops -----

  function IndexTokens(i: string): seq<Token> {
    if i == "" then [] else [Op(","), Id(i)]
  }

  /** The variables of the loop and the word `in`. */
  function LoopHead(t: Expr): seq<Token>
    requires t.For?
  {
    [Kw("for"), Id(t.variable)] + (IndexTokens(t.position) + [Kw("in")])
  }

  ghost predicate HeadAt(ts: seq<Token>, t: Expr, p: nat)
    requires t.For?
  {
    && p + 1 < |ts| && ts[p].kind == Keyword("for") && ts[p + 1] == Id(t.variable)
    && (if t.position == "" then KindAt(ts, p + 2) == Keyword("in")
        else KindAt(ts, p + 2) == Operator(",") && p + 3 < |ts| && ts[p + 3] == Id(t.position))
    && KindAt(ts, p + 2 + |IndexTokens(t.position)|) == Keyword("in")
  }

  lemma HeadParts(ts: seq<Token>, t: Expr, p: nat, s: seq<Token>)
    requires t.For? && Spelled(ts, p, LoopHead(t) + s)
    ensures HeadAt(ts, t, p) && Spelled(ts, p + 3 + |IndexTokens(t.position)|, s)
    ensures |LoopHead(t)| == 3 + |IndexTokens(t.position)|
  {
    hide Spelled;
    var x := IndexTokens(t.position);
    assert LoopHead(t) + s == [Kw("for"), Id(t.variable)] + (x + ([Kw("in")] + s));
    AtTwo(ts, p, Kw("for"), Id(t.variable), x + ([Kw("in")] + s));
    AtCat(ts, p + 2, x, [Kw("in")] + s);
    if t.position != "" {
      AtTwo(ts, p + 2, Op(","), Id(t.position), []) by { assert [Op(","), Id(t.position)] + [] == x; }
    }
    AtCons(ts, p + 2 + |x|, Kw("in"), s);
  }

  ghost predicate ForAt(ts: seq<Token>, w: Want, p: nat)
    requires w.tree.For?
  {
    var t := w.tree;
    var i := p + 2 + |IndexTokens(t.position)|;
    var q := i + 2 + |Form(Inner(t.iterable), PIPE)|;
    && HeadAt(ts, t, p)
    && Before(ts, t.iterable, i + 1, Operator(":"))
    && Expects(ts, Tail(t.each, w), PIPE, q)
    && |Form(w, PIPE)| == q - p + |Form(Tail(t.each, w), PIPE)|
  }

  lemma ForParts(ts: seq<Token>, w: Want, p: nat)
    requires OpenAt(ts, w, p) && w.tree.For?
    ensures ForAt(ts, w, p)
  {
    hide Print, Spelled, OpenAt, Raw, Printable, Expects, Scopes, Form, Tail, Open, LoopHead, HeadAt, Lines;
    OpenSpelled(ts, w, p);
    var t := w.tree;
    var b := Print(t.each, 0);
    var s := Print(t.iterable, PIPE) + ([Op(":")] + b);
    RawFor(t);
    HeadParts(ts, t, p, s);
    var i := p + 2 + |IndexTokens(t.position)|;
    ForBody(ts, w, p, i + 1);
    BeforeColon(ts, t.iterable, i + 1, b);
    LastAt(ts, w, t.each, p, i + 2 + |Form(Inner(t.iterable), PIPE)|);
    TailLines(ts, w, p, t.each);
  }

  lemma RawFor(t: Expr)
    requires t.For?
    ensures Raw(t) == LoopHead(t) + (Print(t.iterable, PIPE) + ([Op(":")] + Print(t.each, 0)))
    ensures Printable(t) ==> Printable(t.iterable) && Printable(t.each)
  {
    hide Print;
    var s := Print(t.iterable, PIPE) + ([Op(":")] + Print(t.each, 0));
    var x := IndexTokens(t.position);
    assert LoopHead(t) + s == [Kw("for"), Id(t.variable)] + (x + ([Kw("in")] + s));
  }

  /** The colon before a body that begins with a namespaced name reads as one before a scope,
      unless what follows the body completes that name. */
  lemma BodyScopes(ts: seq<Token>, b: Expr, q: nat)
    requires Printable(b) && KindAt(ts, q) == Operator(":") && Spelled(ts, q + 1, Print(b, 0))
    ensures StartsScoped(b) ==> Scopes(ts, q)
    ensures Scopes(ts, q) ==> StartsScoped(b) || (|Print(b, 0)| == 1 && KindAt(ts, q + 2) == Operator("::"))
  {
    var x := Raw(b);
    assert Print(b, 0) == x && x != [] by { Begins(b, 0); }
    hide Raw, Print, Printable;
    assert ts[q + 1] == x[0] by { assert ts[q + 1..q + 1 + |x|][0] == ts[q + 1]; }
    if |x| > 1 {
      assert ts[q + 2] == x[1] by { assert ts[q + 1..q + 1 + |x|][1] == ts[q + 2]; }
    }
  }

  /** The colon before the body is not taken for the scope of a name. */
  lemma ForBody(ts: seq<Token>, w: Want, p: nat, i: nat)
    requires OpenAt(ts, w, p) && w.tree.For? && i + |Print(w.tree.iterable, PIPE)| + 1 + |Print(w.tree.each, 0)| == p + |Raw(w.tree)|
    requires Spelled(ts, i, Print(w.tree.iterable, PIPE) + ([Op(":")] + Print(w.tree.each, 0)))
    ensures !(EndsPlain(w.tree.iterable, PIPE) && Scopes(ts, i + |Print(w.tree.iterable, PIPE)|))
  {
    hide Print, Spelled, OpenAt, EndsPlain, StartsScoped, Scopes, Lines;
    OpenSpelled(ts, w, p);
    var t := w.tree;
    var b, q := Print(t.each, 0), i + |Print(t.iterable, PIPE)|;
    AtCat(ts, i, Print(t.iterable, PIPE), [Op(":")] + b);
    AtCons(ts, q, Op(":"), b);
    BodyScopes(ts, t.each, q);
    if |b| == 1 && KindAt(ts, q + 1).Ident? {
      OneName(ts, q, w, p);
    }
    if Scopes(ts, q) { ScopesNeed(ts, q); }
  }

  lemma ScopesNeed(ts: seq<Token>, q: nat)
    requires Scopes(ts, q)
    ensures KindAt(ts, q + 1).Ident? && KindAt(ts, q + 2) == Operator("::")
  {
  }

  /** A body that is a single name is not followed by a double colon. */
  lemma OneName(ts: seq<Token>, q: nat, w: Want, p: nat)
    requires OpenAt(ts, w, p) && w.tree.For? && p + |Raw(w.tree)| == q + 2
    requires Printable(w.tree.each) && |Print(w.tree.each, 0)| == 1 && Spelled(ts, q + 1, Print(w.tree.each, 0))
    requires KindAt(ts, q + 1).Ident?
    ensures KindAt(ts, q + 2) != Operator("::")
  {
    hide OpenAt;
    var b := w.tree.each;
    LastStops(ts, p, w, b);
    Begins(b, 0);
    assert ts[q + 1] == Raw(b)[0] by { assert ts[q + 1..q + 2][0] == ts[q + 1]; }
    Front(b);
    assert b.Var?;
  }

  // ----- match -----

  ghost predicate PatternAt(ts: seq<Token>, x: Pattern, p: nat) {
    GoodPattern(x) && Spelled(ts, p, PatternTokens(x)) && KindAt(ts, p + |PatternTokens(x)|) == Operator("=>")
  }

  /** The arms, and `n` newlines behind them that the match takes. */
  ghost predicate ArmsAt(ts: seq<Token>, arms: seq<Arm>, p: nat, n: nat) {
    PrintableArms(arms) && Spelled(ts, p, ArmTokens(arms)) && ArmsStop(ts, p + |ArmTokens(arms)|, arms, n)
  }

  /** What stands at `p` goes on with no arm, and not with the last result. */
  ghost predicate ArmsStop(ts: seq<Token>, p: nat, arms: seq<Arm>, n: nat) {
    && Spelled(ts, p, Lines(n)) && KindAt(ts, p + n) !in {Newline, Keyword("when")}
    && (arms != [] ==> Stops(ts, p, Inner(arms[|arms| - 1].result), PIPE))
  }

  ghost predicate ArmNext(ts: seq<Token>, arms: seq<Arm>, p: nat, n: nat)
    requires arms != []
  {
    var m := p + 1 + |PatternTokens(arms[0].pattern)|;
    var q := m + 1 + |Form(Inner(arms[0].result), PIPE)|;
    && KindAt(ts, p) == Keyword("when") && PatternAt(ts, arms[0].pattern, p + 1)
    && Expects(ts, Inner(arms[0].result), PIPE, m + 1)
    && ArmsAt(ts, arms[1..], q, n)
    && |ArmTokens(arms)| == q - p + |ArmTokens(arms[1..])|
  }

  lemma ArmsPrintable(arms: seq<Arm>)
    requires PrintableArms(arms) && arms != []
    ensures GoodPattern(arms[0].pattern) && Printable(arms[0].result) && PrintableArms(arms[1..])
  {
  }

  lemma ArmsSplit(arms: seq<Arm>)
    requires arms != []
    ensures ArmTokens(arms) == [Kw("when")] +
      (PatternTokens(arms[0].pattern) + ([Op("=>")] + (Print(arms[0].result, PIPE) + ArmTokens(arms[1..]))))
  {
    hide Print, PatternTokens;
    var a, r := PatternTokens(arms[0].pattern), Print(arms[0].result, PIPE) + ArmTokens(arms[1..]);
    assert [Kw("when")] + (a + [Op("=>")]) + r == [Kw("when")] + (a + ([Op("=>")] + r));
  }

  lemma ArmsEnd(ts: seq<Token>, arms: seq<Arm>, p: nat, n: nat)
    requires ArmsAt(ts, arms, p, n)
    ensures arms == [] ==> |ArmTokens(arms)| == 0 && Spelled(ts, p, Lines(n)) && KindAt(ts, p + n) !in {Newline, Keyword("when")}
    ensures arms != [] ==> KindAt(ts, p) == Keyword("when")
  {
    if arms != [] {
      hide PatternTokens, Print, Spelled, ArmTokens, PrintableArms, ArmsStop;
      ArmsSplit(arms);
      AtCons(ts, p, Kw("when"), PatternTokens(arms[0].pattern) + ([Op("=>")] + (Print(arms[0].result, PIPE) + ArmTokens(arms[1..]))));
    }
  }

  /** What follows the first result: another arm, or what follows them all. */
  lemma ResultStops(ts: seq<Token>, arms: seq<Arm>, q: nat, n: nat)
    requires arms != [] && ArmsAt(ts, arms[1..], q, n) && ArmsStop(ts, q + |ArmTokens(arms[1..])|, arms, n)
    ensures Stops(ts, q, Inner(arms[0].result), PIPE)
  {
    hide PatternTokens, Print, Spelled, ArmTokens, PrintableArms, ArmsStop, Stops;
    ArmsEnd(ts, arms[1..], q, n);
    if |arms| > 1 {
      WordsStop(ts, q);
      BelowStops(ts, q, arms[0].result, PIPE);
    } else {
      OneArm(ts, arms, q, n);
    }
  }

  lemma OneArm(ts: seq<Token>, arms: seq<Arm>, q: nat, n: nat)
    requires |arms| == 1 && ArmsStop(ts, q, arms, n)
    ensures Stops(ts, q, Inner(arms[0].result), PIPE)
  {
    hide Stops, Spelled;
  }

  lemma ArmsStopMore(ts: seq<Token>, arms: seq<Arm>, q: nat, n: nat)
    requires arms != [] && ArmsStop(ts, q, arms, n)
    ensures ArmsStop(ts, q, arms[1..], n)
  {
    hide Stops, Spelled;
  }

  lemma ArmStep(ts: seq<Token>, arms: seq<Arm>, p: nat, n: nat)
    requires ArmsAt(ts, arms, p, n) && arms != []
    ensures ArmNext(ts, arms, p, n)
  {
    hide PatternTokens, Print, Raw, Spelled, ArmTokens, PrintableArms, Printable, GoodPattern, ArmsStop, Stops;
    var a, r, s := PatternTokens(arms[0].pattern), Print(arms[0].result, PIPE), ArmTokens(arms[1..]);
    ArmsPrintable(arms);
    ArmsSplit(arms);
    AtCons(ts, p, Kw("when"), a + ([Op("=>")] + (r + s)));
    AtCat(ts, p + 1, a, [Op("=>")] + (r + s));
    AtCons(ts, p + 1 + |a|, Op("=>"), r + s);
    AtCat(ts, p + 2 + |a|, r, s);
    ArmsStopMore(ts, arms, p + |ArmTokens(arms)|, n);
    ResultStops(ts, arms, p + 2 + |a| + |r|, n);
    InnerAt(ts, arms[0].result, PIPE, p + 2 + |a|, false);
  }

  lemma MatchParts(ts: seq<Token>, w: Want, p: nat)
    requires OpenAt(ts, w, p) && w.tree.Match?
    ensures p < |ts| && ts[p].kind == Keyword("match") && Before(ts, w.tree.subject, p + 1, Operator(":"))
    ensures ArmsAt(ts, w.tree.arms, p + 2 + |Form(Inner(w.tree.subject), PIPE)|, w.lines) && w.tree.arms != []
    ensures |Form(w, PIPE)| == 2 + |Form(Inner(w.tree.subject), PIPE)| + |ArmTokens(w.tree.arms)| + w.lines
  {
    hide Print, Spelled, OpenAt, ArmTokens, PrintableArms, ArmsStop, Scopes, EndsPlain, Lines;
    OpenSpelled(ts, w, p);
    var t := w.tree;
    var s := Print(t.subject, PIPE) + ([Op(":")] + ArmTokens(t.arms));
    assert Raw(t) == [Kw("match")] + s;
    assert Printable(t.subject) && PrintableArms(t.arms) && t.arms != [];
    hide Raw, Printable;
    MatchStops(ts, w, p);
    AtCons(ts, p, Kw("match"), s);
    var q := p + 2 + |Print(t.subject, PIPE)|;
    AtCat(ts, p + 1, Print(t.subject, PIPE), [Op(":")] + ArmTokens(t.arms));
    AtCons(ts, q - 1, Op(":"), ArmTokens(t.arms));
    ArmsEnd(ts, t.arms, q, w.lines);
    NoScope(ts, q - 1);
    BeforeColon(ts, t.subject, p + 1, ArmTokens(t.arms));
  }

  lemma MatchStops(ts: seq<Token>, w: Want, p: nat)
    requires OpenAt(ts, w, p) && w.tree.Match?
    ensures ArmsStop(ts, p + |Raw(w.tree)|, w.tree.arms, w.lines)
  {
    hide NameEnds, Stuck, Spelled, Raw, Printable;
    OpenSpelled(ts, w, p);
    OpenStops(ts, w, p);
    var q := p + |Raw(w.tree)|;
    if w.lines > 0 { FirstLine(ts, q, w.lines); }
    if w.tree.arms != [] {
      var b := w.tree.arms[|w.tree.arms| - 1].result;
      ResultEnds(ts, w, q, b);
    }
  }

  lemma ResultEnds(ts: seq<Token>, w: Want, q: nat, b: Expr)
    requires w.tree.Match? && w.tree.arms != [] && w.tree.arms[|w.tree.arms| - 1].result == b && w.bare
    requires if w.lines > 0 then KindAt(ts, q) == Newline else Stops(ts, q, w, PIPE)
    ensures Stops(ts, q, Inner(b), PIPE)
  {
    hide Stuck;
    StuckBelow(b, PIPE, GrowLevel(KindAt(ts, q)));
  }

  lemma NoScope(ts: seq<Token>, q: nat)
    requires KindAt(ts, q + 1) == Keyword("when")
    ensures !Scopes(ts, q)
  {
  }

  lemma PatternParts(ts: seq<Token>, x: Pattern, p: nat)
    requires PatternAt(ts, x, p)
    ensures p + |PatternTokens(x)| <= |ts| && |PatternTokens(x)| > 0
    ensures forall i :: 0 <= i < |PatternTokens(x)| ==> ts[p + i] == PatternTokens(x)[i]
  {
    hide PatternTokens, GoodPattern;
    PatternLength(x);
    forall i | 0 <= i < |PatternTokens(x)| ensures ts[p + i] == PatternTokens(x)[i] {
      assert ts[p + i] == ts[p..p + |PatternTokens(x)|][i];
    }
  }

  lemma PatternLength(x: Pattern)
    ensures |PatternTokens(x)| == match x case Wildcard => 1 case LitPattern(_) => 1 case Comparison(_, _) => 2 case Range(_, _) => 3
  {
  }
}
