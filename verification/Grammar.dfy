/** Expression trees, the tokens that spell them with as few parentheses as possible, and
    where in a token list a tree is spelled. */
module Grammar {
  import opened Wrappers
  import opened Tokens

  /** A possibly namespaced name: `head`, an optional `:scope`, and `::` segments. */
  datatype Name = Name(head: string, scope: Option<string>, rest: seq<string>)

  datatype BinOp = Coalesce | Or | And | Eq | Ne | Lt | Gt | Le | Ge | In | Add | Sub | Concat | Mul | Div | Mod

  datatype Expr =
    | Lit(kind: TokenType, text: string)
    | Var(name: Name)
    | Bin(op: BinOp, left: Expr, right: Expr)
    | Not(operand: Expr)
    | Neg(operand: Expr)
    | Pipe(input: Expr, fn: Option<Name>, args: seq<Expr>)
    | Call(callee: Name, args: seq<Expr>)
    | Lambda(params: seq<string>, body: Expr)
    | Array(elems: seq<Expr>)
    | Field(obj: Expr, field: string, optional: bool)
    | Index(obj: Expr, index: Expr)
    | Object(fields: seq<Entry>)
    | If(cond: Expr, thn: Expr, els: Option<Expr>)
    | Match(subject: Expr, arms: seq<Arm>)
    | Try(tried: Expr, default: Option<Expr>)
    | For(variable: string, position: string, iterable: Expr, each: Expr)
    | Raise(message: Expr)
    | Query(dataset: Expr)
    | Interpolated(parts: seq<Expr>)

  datatype Entry = Entry(key: string, value: Expr)

  datatype Arm = Arm(pattern: Pattern, result: Expr)

  datatype Pattern =
    | Wildcard
    | LitPattern(lit: Expr)
    | Comparison(cmp: BinOp, value: Expr)
    | Range(low: Expr, high: Expr)

  const NULL: Expr := Lit(Keyword("null"), "null")

  // ----- tokens -----

  function Op(s: string): Token { Token(Operator(s), s) }

  function Kw(s: string): Token { Token(Keyword(s), s) }

  function Id(s: string): Token { Token(Ident, s) }

  /** A connective as a symbol. */
  function Sign(c: Connective): Token { Token(Logic(c, false), SymbolText(c)) }

  /** The words `or`, `and` and `not` as symbols. */
  function Symbol(t: Token): Token {
    if t.kind.Logic? then Sign(t.kind.connective) else t
  }

  function Symbols(ts: seq<Token>): seq<Token> {
    seq(|ts|, i requires 0 <= i < |ts| => Symbol(ts[i]))
  }

  function OpToken(op: BinOp): Token {
    match op
    case Coalesce => Op("??")
    case Or => Sign(Disjunction)
    case And => Sign(Conjunction)
    case Eq => Op("==")
    case Ne => Op("!=")
    case Lt => Op("<")
    case Gt => Op(">")
    case Le => Op("<=")
    case Ge => Op(">=")
    case In => Kw("in")
    case Add => Op("+")
    case Sub => Op("-")
    case Concat => Op("++")
    case Mul => Op("*")
    case Div => Op("/")
    case Mod => Op("%")
  }

  /** The binary operator a token stands for; `or` and `and` have two spellings. */
  function BinOpOf(k: TokenType): Option<BinOp> {
    match k
    case Operator(s) =>
      if s == "??" then Some(Coalesce)
      else if s == "==" then Some(Eq) else if s == "!=" then Some(Ne) else if s == "<" then Some(Lt)
      else if s == ">" then Some(Gt) else if s == "<=" then Some(Le) else if s == ">=" then Some(Ge)
      else if s == "+" then Some(Add) else if s == "-" then Some(Sub) else if s == "++" then Some(Concat)
      else if s == "*" then Some(Mul) else if s == "/" then Some(Div) else if s == "%" then Some(Mod)
      else None
    case Keyword(s) => if s == "in" then Some(In) else None
    case Logic(c, _) => if c.Disjunction? then Some(Or) else if c.Conjunction? then Some(And) else None
    case _ => None
  }

  lemma OpTokenReads(op: BinOp)
    ensures BinOpOf(OpToken(op).kind) == Some(op)
  {
  }

  // ----- precedence -----

  const OPEN: nat := 0
  const PIPE: nat := 1
  const COALESCE: nat := 2
  const OR: nat := 3
  const AND: nat := 4
  const NOT: nat := 5
  const COMPARE: nat := 6
  const ADD: nat := 7
  const MULTIPLY: nat := 8
  const NEG: nat := 9
  const POSTFIX: nat := 10
  const PRIMARY: nat := 11

  function OpLevel(op: BinOp): nat {
    match op
    case Coalesce => COALESCE
    case Or => OR
    case And => AND
    case Add => ADD
    case Sub => ADD
    case Concat => ADD
    case Mul => MULTIPLY
    case Div => MULTIPLY
    case Mod => MULTIPLY
    case _ => COMPARE
  }

  function BodyOf(a: Arm): (r: Expr)
    ensures r < a
  {
    a.result
  }

  predicate IsOp(k: TokenType, l: nat) {
    BinOpOf(k).Some? && OpLevel(BinOpOf(k).value) == l
  }

  // ----- the operators that the parser looks for at each level -----

  predicate Coalesces(k: TokenType) { k == Operator("??") }

  predicate Disjoins(k: TokenType) { k.Logic? && k.connective.Disjunction? }

  predicate Conjoins(k: TokenType) { k.Logic? && k.connective.Conjunction? }

  predicate Relates(k: TokenType) {
    k in {Operator("=="), Operator("!="), Operator("<"), Operator(">"), Operator("<="), Operator(">=")}
  }

  predicate Sums(k: TokenType) { k in {Operator("+"), Operator("-"), Operator("++")} }

  predicate Multiplies(k: TokenType) { k in {Operator("*"), Operator("/"), Operator("%")} }

  lemma CoalesceTokens()
    ensures forall k :: Coalesces(k) <==> IsOp(k, COALESCE)
  {
  }

  lemma OrTokens()
    ensures forall k :: Disjoins(k) <==> IsOp(k, OR)
  {
  }

  lemma AndTokens()
    ensures forall k :: Conjoins(k) <==> IsOp(k, AND)
  {
  }

  lemma CompareTokens()
    ensures forall k :: Relates(k) || k == Keyword("in") <==> IsOp(k, COMPARE)
  {
  }

  lemma AddTokens()
    ensures forall k :: Sums(k) <==> IsOp(k, ADD)
  {
  }

  lemma MultiplyTokens()
    ensures forall k :: Multiplies(k) <==> IsOp(k, MULTIPLY)
  {
  }

  /** Trees that reach as far to the right as they can. */
  predicate Open(t: Expr) {
    t.Lambda? || t.If? || t.Match? || t.Try? || t.For? || t.Raise?
  }

  /** How tightly a tree binds. */
  function Level(t: Expr): nat {
    match t
    case Pipe(_, _, _) => PIPE
    case Bin(op, _, _) => OpLevel(op)
    case Not(_) => NOT
    case Neg(_) => NEG
    case Field(_, _, _) => POSTFIX
    case Index(_, _) => POSTFIX
    case _ => if Open(t) then OPEN else PRIMARY
  }

  /** The levels at which an expression grows to the right as often as it likes. */
  predicate Grows(l: nat) {
    l in {PIPE, COALESCE, OR, AND, ADD, MULTIPLY, POSTFIX}
  }

  predicate Chain(t: Expr) {
    t.Pipe? || (t.Bin? && OpLevel(t.op) != COMPARE) || t.Field? || t.Index?
  }

  function First(t: Expr): (r: Expr)
    requires Chain(t)
    ensures r < t
  {
    match t
    case Pipe(i, _, _) => i
    case Bin(_, l, _) => l
    case Field(o, _, _) => o
    case Index(o, _) => o
  }

  function KindAt(ts: seq<Token>, p: nat): TokenType {
    if p < |ts| then ts[p].kind else EOF
  }

  /** The level of the loop that goes on at such a token; -1 if none does. */
  function GrowLevel(k: TokenType): int {
    if BinOpOf(k).Some? then OpLevel(BinOpOf(k).value)
    else if k == Operator("|") then PIPE
    else if k in {Operator("."), Operator("?."), Operator("[")} then POSTFIX
    else -1
  }

  /** `: name ::` after a plain name makes the name a scoped one. */
  predicate Scopes(ts: seq<Token>, p: nat) {
    KindAt(ts, p) == Operator(":") && KindAt(ts, p + 1).Ident? && KindAt(ts, p + 2) == Operator("::")
  }

  /** The token at `p` could go on with a name. */
  predicate NameTail(ts: seq<Token>, p: nat) {
    KindAt(ts, p) in {Operator("("), Operator("::"), Operator("=>")} || Scopes(ts, p)
  }

  // ----- what can follow a tree without belonging to it -----

  predicate PlainName(n: Name) {
    n.scope.None? && n.rest == []
  }

  predicate NameEnds(n: Name, ts: seq<Token>, p: nat) {
    && KindAt(ts, p) !in {Operator("("), Operator("::")}
    && (PlainName(n) ==> KindAt(ts, p) != Operator("=>") && !Scopes(ts, p))
  }

  /** None of the loops that are still going on where the tree has been read at level `l`
      takes an operator of level `g`.  A pipe only goes on with a pipe, and a comparison does
      not take another one. */
  predicate Stuck(t: Expr, l: nat, g: int)
    decreases t
  {
    if Level(t) < l then g < l
    else match t
      case Pipe(_, _, _) => g != PIPE
      case Bin(op, _, r) => (l <= g <= OpLevel(op) ==> g == OpLevel(op) == COMPARE) && Stuck(r, OpLevel(op) + 1, g)
      case Not(e) => !(l <= g <= NOT) && Stuck(e, NOT, g)
      case Neg(e) => !(l <= g <= NEG) && Stuck(e, NEG, g)
      case _ => g < l
  }

  /** The name the tree ends with, if no parenthesis comes after it. */
  function Trailing(t: Expr, l: nat, bare: bool): Option<Name>
    decreases t
  {
    if bare then
      match t
      case Lambda(_, b) => Trailing(b, PIPE, Open(b))
      case If(_, a, b) => var e := if b.Some? then b.value else a; Trailing(e, PIPE, Open(e))
      case Match(_, arms) => if arms == [] then None else Trailing(BodyOf(arms[|arms| - 1]), PIPE, false)
      case Try(a, b) => var e := if b.Some? then b.value else a; Trailing(e, PIPE, Open(e))
      case For(_, _, _, b) => Trailing(b, PIPE, Open(b))
      case Raise(m) => Trailing(m, PIPE, Open(m))
      case _ => None
    else if Level(t) < l then None
    else match t
      case Var(n) => Some(n)
      case Bin(op, _, r) => Trailing(r, OpLevel(op) + 1, false)
      case Not(e) => Trailing(e, NOT, false)
      case Neg(e) => Trailing(e, NEG, false)
      case _ => None
  }

  /** The words that belong to the open trees that end where the tree ends: newlines are
      taken in search of an `else` or a `when`. */
  function Words(t: Expr): set<TokenType>
    decreases t
  {
    match t
    case Lambda(_, b) => Words(b)
    case If(_, a, None) => {Newline, Keyword("else")} + Words(a)
    case If(_, _, Some(b)) => Words(b)
    case Match(_, _) => {Newline, Keyword("when")}
    case Try(a, None) => {Keyword("catch")} + Words(a)
    case Try(_, Some(b)) => Words(b)
    case For(_, _, _, b) => Words(b)
    case Raise(m) => Words(m)
    case _ => {}
  }

  /** Newlines after such a tree are taken by the tree itself, not by its last part. */
  predicate Takes(t: Expr) {
    t.Match? || (t.If? && t.els.None? && Newline !in Words(t.thn))
  }

  /** Such a tree is complete before what follows the newlines is looked at: an `if` right
      behind an `else` is read as a part of the `if` before it. */
  predicate Swallows(t: Expr)
    decreases t
  {
    Takes(t) || (t.If? && t.els.Some? && t.els.value.If? && Swallows(t.els.value))
  }

  /** A tree that ends in a name which a following `: name ::` would make a scoped one. */
  predicate EndsPlain(t: Expr, l: nat) {
    Trailing(t, l, false).Some? && PlainName(Trailing(t, l, false).value)
  }

  // ----- the printer -----

  function SegTokens(rest: seq<string>): seq<Token> {
    if rest == [] then [] else [Op("::"), Id(rest[0])] + SegTokens(rest[1..])
  }

  function ScopeTokens(n: Name): seq<Token> {
    if n.scope.Some? then [Op(":"), Id(n.scope.value)] else []
  }

  function NameTokens(n: Name): seq<Token> {
    [Id(n.head)] + (ScopeTokens(n) + SegTokens(n.rest))
  }

  function ParamTokens(ps: seq<string>): seq<Token> {
    if ps == [] then []
    else if |ps| == 1 then [Id(ps[0])]
    else [Id(ps[0]), Op(",")] + ParamTokens(ps[1..])
  }

  function LambdaHead(ps: seq<string>): seq<Token> {
    if |ps| == 1 then [Id(ps[0]), Op("=>")] else [Op("(")] + (ParamTokens(ps) + [Op(")"), Op("=>")])
  }

  /** The tokens of a tree where at least level `l` is needed: looser ones get parentheses. */
  function Print(t: Expr, l: nat): seq<Token>
    decreases t, 4
  {
    if Level(t) < l then [Op("(")] + (Raw(t) + [Op(")")]) else Raw(t)
  }

  function Raw(t: Expr): seq<Token>
    decreases t, 3
  {
    if Chain(t) then Print(First(t), Level(t)) + Suffix(t)
    else match t
      case Lit(k, text) => [Token(k, text)]
      case Var(n) => NameTokens(n)
      case Bin(op, l, r) => Print(l, ADD) + ([OpToken(op)] + Print(r, ADD))
      case Not(e) => [Sign(Negation)] + Print(e, NOT)
      case Neg(e) => [Op("-")] + Print(e, NEG)
      case Call(n, es) => NameTokens(n) + ([Op("(")] + (ListTokens(es) + [Op(")")]))
      case Lambda(ps, b) => LambdaHead(ps) + Print(b, 0)
      case Array(es) => [Op("[")] + (ListTokens(es) + [Op("]")])
      case Object(fs) => [Op("{")] + (FieldTokens(fs) + [Op("}")])
      case If(c, a, None) => [Kw("if")] + (Print(c, PIPE) + ([Kw("then")] + Print(a, 0)))
      case If(c, a, Some(b)) =>
        [Kw("if")] + (Print(c, PIPE) + ([Kw("then")] + (Print(a, PIPE) + ([Kw("else")] + Print(b, 0)))))
      case Match(s, arms) => [Kw("match")] + (Print(s, PIPE) + ([Op(":")] + ArmTokens(arms)))
      case Try(e, None) => [Kw("try")] + Print(e, 0)
      case Try(e, Some(d)) => [Kw("try")] + (Print(e, PIPE) + ([Kw("catch")] + Print(d, 0)))
      case For(v, i, it, b) =>
        [Kw("for"), Id(v)] + ((if i == "" then [] else [Op(","), Id(i)]) + ([Kw("in")] + (Print(it, PIPE) + ([Op(":")] + Print(b, 0)))))
      case Raise(m) => [Kw("raise")] + Print(m, 0)
      case Query(d) => [Kw("query"), Op("(")] + (Print(d, 0) + [Op(")")])
      case Interpolated(ps) => [Token(StringStart, "")] + (PartTokens(ps) + [Token(StringEnd, "")])
      case _ => []
  }

  /** What follows the first operand of a tree that grew to the right. */
  function Suffix(t: Expr): seq<Token>
    requires Chain(t)
    decreases t, 2
  {
    match t
    case Pipe(_, n, es) =>
      [Op("|")] + ((if n.Some? then NameTokens(n.value) else []) + ([Op("(")] + (ListTokens(es) + [Op(")")])))
    case Bin(op, _, r) => [OpToken(op)] + Print(r, OpLevel(op) + 1)
    case Field(_, f, optional) => [if optional then Op("?.") else Op("."), Id(f)]
    case Index(_, i) => [Op("[")] + (Print(i, 0) + [Op("]")])
  }

  function ListTokens(es: seq<Expr>): seq<Token>
    decreases es, 0
  {
    if es == [] then []
    else if |es| == 1 then Print(es[0], 0)
    else Print(es[0], 0) + ([Op(",")] + ListTokens(es[1..]))
  }

  function FieldTokens(fs: seq<Entry>): seq<Token>
    decreases fs, 0
  {
    if fs == [] then []
    else if |fs| == 1 then KeyTokens(fs[0]) + Print(fs[0].value, 0)
    else KeyTokens(fs[0]) + (Print(fs[0].value, 0) + ([Op(",")] + FieldTokens(fs[1..])))
  }

  /** Text in a string with embedded expressions; a string of its own is one such expression. */
  predicate IsText(e: Expr) {
    e.Lit? && e.kind.String? && e.text != ""
  }

  function PartTokens(ps: seq<Expr>): seq<Token>
    decreases ps, 0
  {
    if ps == [] then []
    else if IsText(ps[0]) then [Token(StringPart, ps[0].text)] + PartTokens(ps[1..])
    else [Token(InterpStart, "{")] + (Print(ps[0], 0) + ([Token(InterpEnd, "}")] + PartTokens(ps[1..])))
  }

  function KeyTokens(f: Entry): seq<Token> {
    [Token(String, f.key), Op(":")]
  }

  function ArmTokens(arms: seq<Arm>): seq<Token>
    decreases arms, 0
  {
    if arms == [] then []
    else ArmHead(arms[0]) + (Print(BodyOf(arms[0]), PIPE) + ArmTokens(arms[1..]))
  }

  function ArmHead(a: Arm): seq<Token> {
    [Kw("when")] + (PatternTokens(a.pattern) + [Op("=>")])
  }

  function LitToken(t: Expr): Token {
    if t.Lit? then Token(t.kind, t.text) else Op("_")
  }

  function PatternTokens(p: Pattern): seq<Token> {
    match p
    case Wildcard => [Id("_")]
    case LitPattern(l) => [LitToken(l)]
    case Comparison(op, v) => [OpToken(op), LitToken(v)]
    case Range(a, b) => [LitToken(a), Op(".."), LitToken(b)]
  }

  // ----- which trees are meant -----

  predicate GoodName(n: Name) {
    n.scope.Some? ==> n.rest != []
  }

  predicate LitKind(k: TokenType) {
    k in {Int, Float, String, Keyword("true"), Keyword("false"), Keyword("null")}
  }

  predicate GoodLit(t: Expr) {
    t.Lit? && LitKind(t.kind) && (t.kind.Keyword? ==> t.text == t.kind.word)
  }

  predicate GoodArm(a: Arm) {
    GoodPattern(a.pattern)
  }

  predicate GoodPattern(p: Pattern) {
    match p
    case Wildcard => true
    case LitPattern(l) => GoodLit(l)
    case Comparison(op, v) => OpLevel(op) == COMPARE && op != In && GoodLit(v)
    case Range(a, b) => GoodLit(a) && GoodLit(b)
  }

  /** All trees except pipes into something that is no call, and patterns that are no
      literals.  A call of `dataset::query` with one argument is another node, and after an
      iterable that ends in a plain name a body that begins with a namespaced one would be
      taken for a part of it. */
  predicate Printable(t: Expr)
    decreases t, 1
  {
    match t
    case Lit(_, _) => GoodLit(t)
    case Var(n) => GoodName(n)
    case Bin(_, l, r) => Printable(l) && Printable(r)
    case Not(e) => Printable(e)
    case Neg(e) => Printable(e)
    case Pipe(i, n, es) => n.Some? && GoodName(n.value) && Printable(i) && PrintableAll(es)
    case Call(n, es) => GoodName(n) && PrintableAll(es) && !IsQuery(n, es)
    case Lambda(_, b) => Printable(b)
    case Array(es) => PrintableAll(es)
    case Field(o, _, _) => Printable(o)
    case Index(o, i) => Printable(o) && Printable(i)
    case Object(fs) => PrintableFields(fs)
    case If(c, a, b) => Printable(c) && Printable(a) && (b.Some? ==> Printable(b.value))
    case Match(s, arms) => Printable(s) && arms != [] && PrintableArms(arms)
    case Try(e, d) => Printable(e) && (d.Some? ==> Printable(d.value))
    case For(_, _, it, b) => Printable(it) && Printable(b) && !(EndsPlain(it, PIPE) && StartsScoped(b))
    case Raise(m) => Printable(m)
    case Query(d) => Printable(d)
    case Interpolated(ps) => PrintableAll(ps)
  }

  predicate PrintableAll(es: seq<Expr>)
    decreases es, 0
  {
    es != [] ==> Printable(es[0]) && PrintableAll(es[1..])
  }

  predicate PrintableFields(fs: seq<Entry>)
    decreases fs, 0
  {
    fs != [] ==> Printable(fs[0].value) && PrintableFields(fs[1..])
  }

  predicate PrintableArms(arms: seq<Arm>)
    decreases arms, 0
  {
    arms != [] ==> GoodArm(arms[0]) && Printable(BodyOf(arms[0])) && PrintableArms(arms[1..])
  }

  predicate IsQuery(n: Name, es: seq<Expr>) {
    n == Name("dataset", None, ["query"]) && |es| == 1
  }

  predicate StartsScoped(t: Expr) {
    KindAt(Raw(t), 0).Ident? && KindAt(Raw(t), 1) == Operator("::")
  }

  // ----- how much a tree says -----

  function NameWeight(n: Name): nat {
    1 + (if n.scope.Some? then 1 else 0) + |n.rest|
  }

  /** How many nodes and names a tree has; every part of a tree weighs less than the tree. */
  function Weight(t: Expr): (w: nat)
    ensures w > 0
    decreases t, 0
  {
    match t
    case Var(n) => NameWeight(n)
    case Bin(_, l, r) => 1 + Weight(l) + Weight(r)
    case Not(e) => 1 + Weight(e)
    case Neg(e) => 1 + Weight(e)
    case Pipe(i, _, _) => 1 + Weight(i)
    case Call(n, _) => 1 + NameWeight(n)
    case Field(o, _, _) => 1 + Weight(o)
    case Index(o, i) => 1 + Weight(o)
    case Lambda(_, b) => 1 + Weight(b)
    case If(_, a, b) => 1 + Weight(a) + if b.Some? then Weight(b.value) else 0
    case Try(a, b) => 1 + Weight(a) + if b.Some? then Weight(b.value) else 0
    case For(_, _, _, b) => 1 + Weight(b)
    case Raise(m) => 1 + Weight(m)
    case _ => 1
  }
}
