/** Trees that can be written as text: what has to be true of the names and literals in a
    tree for all its tokens to be ones that a line can hold. */
module Writing {
  import opened Tokens
  import opened Rendering
  import opened Grammar

  /** A token that a line can hold; its connectives are symbols. */
  predicate Writes(t: Token) { Renderable(t) && Symbol(t) == t }

  predicate AllWrite(ts: seq<Token>) {
    forall i :: 0 <= i < |ts| ==> Writes(ts[i])
  }

  predicate WritableName(n: Name) {
    Writes(Id(n.head)) && (n.scope.Some? ==> Writes(Id(n.scope.value))) && WritableIds(n.rest)
  }

  predicate WritableIds(names: seq<string>) {
    forall i :: 0 <= i < |names| ==> Writes(Id(names[i]))
  }

  predicate WritablePattern(p: Pattern) {
    match p
    case Wildcard => true
    case LitPattern(l) => l.Lit? && Writes(Token(l.kind, l.text))
    case Comparison(_, v) => v.Lit? && Writes(Token(v.kind, v.text))
    case Range(a, b) => a.Lit? && b.Lit? && Writes(Token(a.kind, a.text)) && Writes(Token(b.kind, b.text))
  }

  /** No string with embedded expressions, every name a name, and every number digits. */
  predicate Writable(t: Expr)
    decreases t, 1
  {
    match t
    case Lit(k, text) => Writes(Token(k, text))
    case Var(n) => WritableName(n)
    case Bin(_, l, r) => Writable(l) && Writable(r)
    case Not(e) => Writable(e)
    case Neg(e) => Writable(e)
    case Pipe(i, n, es) => Writable(i) && (n.Some? ==> WritableName(n.value)) && WritableAll(es)
    case Call(n, es) => WritableName(n) && WritableAll(es)
    case Lambda(ps, b) => WritableIds(ps) && Writable(b)
    case Array(es) => WritableAll(es)
    case Field(o, f, _) => Writable(o) && Writes(Id(f))
    case Index(o, i) => Writable(o) && Writable(i)
    case Object(fs) => WritableFields(fs)
    case If(c, a, b) => Writable(c) && Writable(a) && (b.Some? ==> Writable(b.value))
    case Match(s, arms) => Writable(s) && WritableArms(arms)
    case Try(e, d) => Writable(e) && (d.Some? ==> Writable(d.value))
    case For(v, i, it, b) => Writes(Id(v)) && (i == "" || Writes(Id(i))) && Writable(it) && Writable(b)
    case Raise(m) => Writable(m)
    case Query(d) => Writable(d)
    case Interpolated(_) => false
  }

  predicate WritableAll(es: seq<Expr>)
    decreases es, 0
  {
    es != [] ==> Writable(es[0]) && WritableAll(es[1..])
  }

  predicate WritableFields(fs: seq<Entry>)
    decreases fs, 0
  {
    fs != [] ==> Writable(fs[0].value) && WritableFields(fs[1..])
  }

  predicate WritableArms(arms: seq<Arm>)
    decreases arms, 0
  {
    arms != [] ==> WritablePattern(arms[0].pattern) && Writable(BodyOf(arms[0])) && WritableArms(arms[1..])
  }

  // ----- single tokens -----

  /** Every word of the grammar is a keyword for the tokenizer. */
  lemma WordsWrite(w: string)
    requires w in {
      "fn", "let", "return", "if", "then", "else", "match", "when", "try", "catch", "true", "false", "null",
      "query", "for", "in", "raise", "use", "record", "type"}
    ensures Writes(Kw(w))
  {
  }

  lemma SignsWrite(o: string)
    requires o in {"(", ")", "[", "]", "{", "}", ",", ":", "::", "=>", "|", ".", "?.", "..", "-"}
    ensures Writes(Op(o))
  {
  }

  lemma OperatorWrites(op: BinOp)
    ensures Writes(OpToken(op))
  {
  }

  lemma NegationWrites()
    ensures Writes(Sign(Negation))
  {
  }

  lemma Both(a: seq<Token>, b: seq<Token>)
    requires AllWrite(a) && AllWrite(b)
    ensures AllWrite(a + b)
  {
    hide Writes;
  }

  lemma Around(a: Token, mid: seq<Token>, b: Token)
    requires Writes(a) && AllWrite(mid) && Writes(b)
    ensures AllWrite([a] + (mid + [b]))
  {
    hide Writes;
  }

  lemma Ahead(a: Token, rest: seq<Token>)
    requires Writes(a) && AllWrite(rest)
    ensures AllWrite([a] + rest)
  {
    hide Writes;
  }

  lemma Through(a: seq<Token>, m: Token, b: seq<Token>)
    requires AllWrite(a) && Writes(m) && AllWrite(b)
    ensures AllWrite(a + ([m] + b))
  {
    hide Writes;
  }

  // ----- whole trees -----

  lemma {:induction false} SegmentsWrite(rest: seq<string>)
    requires WritableIds(rest)
    ensures AllWrite(SegTokens(rest))
    decreases rest
  {
    if rest != [] {
      SegmentsWrite(rest[1..]);
      SignsWrite("::");
      hide Writes;
    }
  }

  lemma {:induction false} NameWrites(n: Name)
    requires WritableName(n)
    ensures AllWrite(NameTokens(n))
  {
    SegmentsWrite(n.rest);
    SignsWrite(":");
    hide Writes, SegTokens;
  }

  lemma {:induction false} ParamsWrite(ps: seq<string>)
    requires WritableIds(ps)
    ensures AllWrite(ParamTokens(ps))
    decreases ps
  {
    if ps != [] {
      ParamsWrite(ps[1..]);
      SignsWrite(",");
      hide Writes;
    }
  }

  lemma HeadWrites(ps: seq<string>)
    requires WritableIds(ps)
    ensures AllWrite(LambdaHead(ps))
  {
    ParamsWrite(ps);
    SignsWrite("(");
    SignsWrite(")");
    SignsWrite("=>");
    hide Writes, ParamTokens;
  }

  lemma PatternWrites(p: Pattern)
    requires WritablePattern(p)
    ensures AllWrite(PatternTokens(p))
  {
    SignsWrite("..");
    UnderscoreWrites();
    if p.Comparison? { OperatorWrites(p.cmp); }
    hide Writes;
  }

  lemma UnderscoreWrites()
    ensures Writes(Id("_"))
  {
  }

  lemma {:induction false} PrintWrites(t: Expr, l: nat)
    requires Writable(t)
    ensures AllWrite(Print(t, l))
    decreases t, 4
  {
    RawWrites(t);
    SignsWrite("(");
    SignsWrite(")");
    hide Writes, Raw, Writable;
    Around(Op("("), Raw(t), Op(")"));
  }

  lemma {:induction false} RawWrites(t: Expr)
    requires Writable(t)
    ensures AllWrite(Raw(t))
    decreases t, 3
  {
    if Chain(t) {
      PrintWrites(First(t), Level(t));
      SuffixWrites(t);
      hide *;
      Both(Print(First(t), Level(t)), Suffix(t));
      RawChain(t);
    } else if t.If? || t.Match? || t.Try? || t.For? || t.Raise? {
      OpenWrites(t);
    } else {
      ClosedWrites(t);
    }
  }

  lemma RawChain(t: Expr)
    requires Chain(t)
    ensures Raw(t) == Print(First(t), Level(t)) + Suffix(t)
  {
  }

  lemma {:induction false} ClosedWrites(t: Expr)
    requires Writable(t) && !Chain(t) && !(t.If? || t.Match? || t.Try? || t.For? || t.Raise?)
    ensures AllWrite(Raw(t))
    decreases t, 2
  {
    if t.Bin? || t.Not? || t.Neg? {
      OperationWrites(t);
    } else if t.Call? || t.Array? || t.Object? || t.Query? {
      BracketWrites(t);
    } else {
      match t {
        case Lit(k, text) =>
        case Var(n) => NameWrites(n);
        case Lambda(ps, b) =>
          HeadWrites(ps);
          PrintWrites(b, 0);
          hide Writes, LambdaHead, Print;
          Both(LambdaHead(ps), Print(b, 0));
        case _ =>
      }
    }
  }

  lemma {:induction false} OperationWrites(t: Expr)
    requires Writable(t) && !Chain(t) && (t.Bin? || t.Not? || t.Neg?)
    ensures AllWrite(Raw(t))
    decreases t, 1
  {
    hide Writes, Print;
    match t {
      case Bin(op, l, r) =>
        PrintWrites(l, ADD);
        PrintWrites(r, ADD);
        OperatorWrites(op);
        Through(Print(l, ADD), OpToken(op), Print(r, ADD));
      case Not(e) => PrintWrites(e, NOT); NegationWrites(); Ahead(Sign(Negation), Print(e, NOT));
      case Neg(e) => PrintWrites(e, NEG); SignsWrite("-"); Ahead(Op("-"), Print(e, NEG));
    }
  }

  lemma {:induction false} BracketWrites(t: Expr)
    requires Writable(t) && (t.Call? || t.Array? || t.Object? || t.Query?)
    ensures AllWrite(Raw(t))
    decreases t, 1
  {
    SignsWrite("(");
    SignsWrite(")");
    hide Writes, NameTokens, ListTokens, FieldTokens, Print;
    match t {
      case Call(n, es) =>
        NameWrites(n);
        ListWrites(es);
        Around(Op("("), ListTokens(es), Op(")"));
        Both(NameTokens(n), [Op("(")] + (ListTokens(es) + [Op(")")]));
      case Array(es) => ListWrites(es); SignsWrite("["); SignsWrite("]"); Around(Op("["), ListTokens(es), Op("]"));
      case Object(fs) => FieldsWrite(fs); SignsWrite("{"); SignsWrite("}"); Around(Op("{"), FieldTokens(fs), Op("}"));
      case Query(d) =>
        PrintWrites(d, 0);
        WordsWrite("query");
        Around(Op("("), Print(d, 0), Op(")"));
        Ahead(Kw("query"), [Op("(")] + (Print(d, 0) + [Op(")")]));
        assert [Kw("query")] + ([Op("(")] + (Print(d, 0) + [Op(")")])) == [Kw("query"), Op("(")] + (Print(d, 0) + [Op(")")]);
    }
  }

  lemma {:induction false} OpenWrites(t: Expr)
    requires Writable(t) && (t.If? || t.Match? || t.Try? || t.For? || t.Raise?)
    ensures AllWrite(Raw(t))
    decreases t, 2
  {
    match t
    case If(c, a, b) => IfWrites(t);
    case Match(s, arms) =>
      PrintWrites(s, PIPE);
      ArmsWrite(arms);
      WordsWrite("match");
      SignsWrite(":");
      hide Writes, Print, ArmTokens;
      Through(Print(s, PIPE), Op(":"), ArmTokens(arms));
      Ahead(Kw("match"), Print(s, PIPE) + ([Op(":")] + ArmTokens(arms)));
    case Try(e, d) => TryWrites(t);
    case For(v, i, it, b) => ForWrites(t);
    case Raise(m) =>
      PrintWrites(m, 0);
      WordsWrite("raise");
      hide Writes, Print;
      Ahead(Kw("raise"), Print(m, 0));
  }

  lemma {:induction false} IfWrites(t: Expr)
    requires Writable(t) && t.If?
    ensures AllWrite(Raw(t))
    decreases t, 1
  {
    var c, a := t.cond, t.thn;
    PrintWrites(c, PIPE);
    PrintWrites(a, 0);
    PrintWrites(a, PIPE);
    WordsWrite("if");
    WordsWrite("then");
    WordsWrite("else");
    if t.els.Some? {
      PrintWrites(t.els.value, 0);
      hide Writes, Print, Writable;
      var rest := Print(a, PIPE) + ([Kw("else")] + Print(t.els.value, 0));
      Through(Print(a, PIPE), Kw("else"), Print(t.els.value, 0));
      Through(Print(c, PIPE), Kw("then"), rest);
      Ahead(Kw("if"), Print(c, PIPE) + ([Kw("then")] + rest));
    } else {
      hide Writes, Print, Writable;
      Through(Print(c, PIPE), Kw("then"), Print(a, 0));
      Ahead(Kw("if"), Print(c, PIPE) + ([Kw("then")] + Print(a, 0)));
    }
  }

  lemma {:induction false} TryWrites(t: Expr)
    requires Writable(t) && t.Try?
    ensures AllWrite(Raw(t))
    decreases t, 1
  {
    var e := t.tried;
    WordsWrite("try");
    WordsWrite("catch");
    PrintWrites(e, 0);
    PrintWrites(e, PIPE);
    if t.default.Some? {
      PrintWrites(t.default.value, 0);
      hide Writes, Print, Writable;
      Through(Print(e, PIPE), Kw("catch"), Print(t.default.value, 0));
      Ahead(Kw("try"), Print(e, PIPE) + ([Kw("catch")] + Print(t.default.value, 0)));
    } else {
      hide Writes, Print, Writable;
      Ahead(Kw("try"), Print(e, 0));
    }
  }

  lemma {:induction false} ForWrites(t: Expr)
    requires Writable(t) && t.For?
    ensures AllWrite(Raw(t))
    decreases t, 1
  {
    var it, b := t.iterable, t.each;
    WordsWrite("for");
    WordsWrite("in");
    SignsWrite(",");
    SignsWrite(":");
    PrintWrites(it, PIPE);
    PrintWrites(b, 0);
    var index := if t.position == "" then [] else [Op(","), Id(t.position)];
    assert AllWrite([Kw("for"), Id(t.variable)]) && AllWrite(index) by { hide Writable, Print; hide Writes; }
    hide Writes, Print, Writable;
    var rest := Print(it, PIPE) + ([Op(":")] + Print(b, 0));
    Through(Print(it, PIPE), Op(":"), Print(b, 0));
    Ahead(Kw("in"), rest);
    Both(index, [Kw("in")] + rest);
    Both([Kw("for"), Id(t.variable)], index + ([Kw("in")] + rest));
  }

  lemma {:induction false} SuffixWrites(t: Expr)
    requires Chain(t) && Writable(t)
    ensures AllWrite(Suffix(t))
    decreases t, 2
  {
    match t
    case Pipe(_, n, es) =>
      ListWrites(es);
      SignsWrite("|");
      SignsWrite("(");
      SignsWrite(")");
      if n.Some? { NameWrites(n.value); }
      var name := if n.Some? then NameTokens(n.value) else [];
      hide Writes, ListTokens, NameTokens;
      Around(Op("("), ListTokens(es), Op(")"));
      Both(name, [Op("(")] + (ListTokens(es) + [Op(")")]));
      Ahead(Op("|"), name + ([Op("(")] + (ListTokens(es) + [Op(")")])));
    case Bin(op, _, r) =>
      PrintWrites(r, OpLevel(op) + 1);
      OperatorWrites(op);
      hide Writes, Print;
      Ahead(OpToken(op), Print(r, OpLevel(op) + 1));
    case Field(_, f, optional) =>
      SignsWrite(".");
      SignsWrite("?.");
      hide Writes;
    case Index(_, i) =>
      PrintWrites(i, 0);
      SignsWrite("[");
      SignsWrite("]");
      hide Writes, Print;
      Around(Op("["), Print(i, 0), Op("]"));
  }

  lemma {:induction false} ListWrites(es: seq<Expr>)
    requires WritableAll(es)
    ensures AllWrite(ListTokens(es))
    decreases es, 0
  {
    if es != [] {
      PrintWrites(es[0], 0);
      ListWrites(es[1..]);
      SignsWrite(",");
      hide Writes, Print;
      Through(Print(es[0], 0), Op(","), ListTokens(es[1..]));
    }
  }

  lemma {:induction false} FieldsWrite(fs: seq<Entry>)
    requires WritableFields(fs)
    ensures AllWrite(FieldTokens(fs))
    decreases fs, 0
  {
    if fs != [] {
      PrintWrites(fs[0].value, 0);
      FieldsWrite(fs[1..]);
      SignsWrite(",");
      KeyWrites(fs[0]);
      hide Writes, Print, KeyTokens;
      var v := Print(fs[0].value, 0);
      Both(KeyTokens(fs[0]), v);
      Through(v, Op(","), FieldTokens(fs[1..]));
      Both(KeyTokens(fs[0]), v + ([Op(",")] + FieldTokens(fs[1..])));
    }
  }

  lemma KeyWrites(f: Entry)
    ensures AllWrite(KeyTokens(f))
  {
    SignsWrite(":");
  }

  lemma {:induction false} ArmsWrite(arms: seq<Arm>)
    requires WritableArms(arms)
    ensures AllWrite(ArmTokens(arms))
    decreases arms, 0
  {
    if arms != [] {
      var b := BodyOf(arms[0]);
      PrintWrites(b, PIPE);
      ArmsWrite(arms[1..]);
      ArmHeadWrites(arms[0]);
      hide Writes, Print, ArmHead;
      Both(Print(b, PIPE), ArmTokens(arms[1..]));
      Both(ArmHead(arms[0]), Print(b, PIPE) + ArmTokens(arms[1..]));
    }
  }

  lemma ArmHeadWrites(a: Arm)
    requires WritablePattern(a.pattern)
    ensures AllWrite(ArmHead(a))
  {
    PatternWrites(a.pattern);
    WordsWrite("when");
    SignsWrite("=>");
    hide Writes, PatternTokens;
    Both(PatternTokens(a.pattern), [Op("=>")]);
    Ahead(Kw("when"), PatternTokens(a.pattern) + [Op("=>")]);
  }
}
