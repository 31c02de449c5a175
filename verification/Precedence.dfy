/** How tightly the operators bind, said with the operators themselves: what tree the parser
    makes of operands and operators in a row. */
module Precedence {
  import opened Wrappers
  import opened Tokens
  import opened Grammar
  import opened Reading
  import opened ReadBack
  import opened Rendering
  import opened Writing

  // ----- rows of operands and operators -----

  /** The binary operators, loosest first. */
  const TIERS: seq<set<string>> := [
    {"??"},
    {"||", "or"},
    {"&&", "and"},
    {"==", "!=", "<", ">", "<=", ">=", "in"},
    {"+", "-", "++"},
    {"*", "/", "%"}]

  const MEANING: map<string, BinOp> := map[
    "??" := Coalesce, "||" := Or, "or" := Or, "&&" := And, "and" := And,
    "==" := Eq, "!=" := Ne, "<" := Lt, ">" := Gt, "<=" := Le, ">=" := Ge, "in" := In,
    "+" := Add, "-" := Sub, "++" := Concat, "*" := Mul, "/" := Div, "%" := Mod]

  function Tier(o: string): nat
    requires o in MEANING
  {
    if o in TIERS[0] then 0 else if o in TIERS[1] then 1 else if o in TIERS[2] then 2
    else if o in TIERS[3] then 3 else if o in TIERS[4] then 4 else 5
  }

  datatype Selector = Dot(field: string) | Maybe(field: string) | Subscript(index: Expr)

  /** A literal or a name with selectors behind it, and minus signs and negations before it. */
  datatype Term = Term(nots: seq<string>, negs: nat, atom: Expr, selectors: seq<Selector>)

  predicate Atom(t: Expr) {
    GoodLit(t) || (t.Var? && t.name == Name(t.name.head, None, []))
  }

  predicate GoodSelectors(selectors: seq<Selector>) {
    forall i :: 0 <= i < |selectors| && selectors[i].Subscript? ==> Atom(selectors[i].index)
  }

  predicate GoodTerm(x: Term) {
    && (forall i :: 0 <= i < |x.nots| ==> x.nots[i] in {"!", "not"})
    && Atom(x.atom) && GoodSelectors(x.selectors)
  }

  predicate AllOperators(ops: seq<string>) {
    forall i :: 0 <= i < |ops| ==> ops[i] in MEANING
  }

  /** A negation stands at the beginning or behind an operator that binds looser. */
  predicate GoodRow(xs: seq<Term>, ops: seq<string>) {
    && |xs| == |ops| + 1
    && (forall i :: 0 <= i < |xs| ==> GoodTerm(xs[i]))
    && AllOperators(ops)
    && (forall i :: 0 <= i < |ops| && xs[i + 1].nots != [] ==> Tier(ops[i]) <= 2)
  }

  /** No two comparisons without a looser operator between them. */
  predicate Unchained(ops: seq<string>)
    requires AllOperators(ops)
  {
    forall i, j :: 0 <= i < j < |ops| && Tier(ops[i]) == 3 && Tier(ops[j]) == 3 ==> Looser(ops, i, j)
  }

  predicate Looser(ops: seq<string>, i: nat, j: nat)
    requires i <= j <= |ops| && AllOperators(ops)
  {
    exists k :: i <= k < j && Tier(ops[k]) <= 2
  }

  // ----- their trees -----

  /** The place of the last operator of the loosest tier there is. */
  function Root(ops: seq<string>): (i: nat)
    requires ops != [] && AllOperators(ops)
    ensures i < |ops|
    ensures forall j :: 0 <= j < |ops| ==> Tier(ops[i]) <= Tier(ops[j])
    ensures forall j :: i < j < |ops| ==> Tier(ops[i]) < Tier(ops[j])
  {
    var n := |ops| - 1;
    if n == 0 then 0
    else
      var i := Root(ops[..n]);
      assert forall j :: 0 <= j < n ==> ops[..n][j] == ops[j];
      if Tier(ops[n]) <= Tier(ops[i]) then n else i
  }

  function Negated(n: nat, t: Expr): Expr {
    if n == 0 then t else Neg(Negated(n - 1, t))
  }

  function SelectedBy(t: Expr, x: Selector): Expr {
    match x
    case Dot(f) => Field(t, f, false)
    case Maybe(f) => Field(t, f, true)
    case Subscript(i) => Index(t, i)
  }

  function Selected(t: Expr, selectors: seq<Selector>): Expr {
    if selectors == [] then t
    else
      var n := |selectors| - 1;
      SelectedBy(Selected(t, selectors[..n]), selectors[n])
  }

  /** The root is the last operator of the loosest tier, and both sides are read the same
      way; a negation takes everything up to a looser operator; a minus sign takes its operand
      with the selectors behind it. */
  function Tree(xs: seq<Term>, ops: seq<string>): Expr
    requires GoodRow(xs, ops)
    decreases |ops|, |xs[0].nots|
  {
    if ops != [] && (xs[0].nots == [] || Tier(ops[Root(ops)]) <= 2) then
      var i := Root(ops);
      Bin(MEANING[ops[i]], Tree(xs[..i + 1], ops[..i]), Tree(xs[i + 1..], ops[i + 1..]))
    else if xs[0].nots != [] then
      Not(Tree([xs[0].(nots := xs[0].nots[1..])] + xs[1..], ops))
    else
      Negated(xs[0].negs, Selected(xs[0].atom, xs[0].selectors))
  }

  function Digit(d: string): Term {
    Term([], 0, Lit(Int, d), [])
  }

  lemma OneOperand(x: Term)
    requires GoodTerm(x) && x.nots == []
    ensures GoodRow([x], []) && Tree([x], []) == Negated(x.negs, Selected(x.atom, x.selectors))
  {
    hide GoodTerm, Negated, Selected, MEANING, Tier;
  }

  lemma OneOperator(x: Term, o: string, y: Term)
    requires GoodTerm(x) && GoodTerm(y) && x.nots == [] && y.nots == [] && o in MEANING
    ensures GoodRow([x, y], [o]) && Tree([x, y], [o]) == Bin(MEANING[o], Tree([x], []), Tree([y], []))
  {
    hide GoodTerm, Negated, Selected, MEANING, Tier;
    OneOperand(x);
    OneOperand(y);
    assert [x, y][..1] == [x] && [x, y][1..] == [y] && [o][..0] == [] && [o][1..] == [];
  }

  lemma LooserFirst(x: Term, o: string, y: Term, p: string, z: Term)
    requires GoodTerm(x) && GoodTerm(y) && GoodTerm(z) && x.nots == [] && y.nots == [] && z.nots == []
    requires o in MEANING && p in MEANING && Tier(o) < Tier(p)
    ensures GoodRow([x, y, z], [o, p])
    ensures Tree([x, y, z], [o, p]) == Bin(MEANING[o], Tree([x], []), Bin(MEANING[p], Tree([y], []), Tree([z], [])))
  {
    hide GoodTerm, Negated, Selected, MEANING, Tier;
    var xs, ops := [x, y, z], [o, p];
    OneOperand(x);
    OneOperator(y, p, z);
    assert xs[..1] == [x] && xs[1..] == [y, z] && ops[..0] == [] && ops[1..] == [p];
  }

  /** `1 + 2 * 3` is a sum. */
  lemma SumOfProduct()
    ensures var xs, ops := [Digit("1"), Digit("2"), Digit("3")], ["+", "*"];
      GoodRow(xs, ops) && Tree(xs, ops) == Bin(Add, Lit(Int, "1"), Bin(Mul, Lit(Int, "2"), Lit(Int, "3")))
  {
    assert Tier("+") == 4 && Tier("*") == 5 && MEANING["+"] == Add && MEANING["*"] == Mul;
    hide MEANING, Tier, GoodRow;
    LooserFirst(Digit("1"), "+", Digit("2"), "*", Digit("3"));
    OneOperand(Digit("1"));
    OneOperand(Digit("2"));
    OneOperand(Digit("3"));
    hide Tree;
  }

  // ----- their tokens -----

  /** The token of an operator, as the tokenizer makes it. */
  function OperatorToken(o: string): Token {
    Token(if o in KEYWORDS then KeywordKind(o) else OperatorKind(o), o)
  }

  function OperatorTokens(os: seq<string>): seq<Token> {
    seq(|os|, i requires 0 <= i < |os| => OperatorToken(os[i]))
  }

  function AtomToken(t: Expr): Token
    requires Atom(t)
  {
    if t.Lit? then Token(t.kind, t.text) else Token(Ident, t.name.head)
  }

  function TokensOf(x: Selector): seq<Token>
    requires x.Subscript? ==> Atom(x.index)
  {
    match x
    case Dot(f) => [OperatorToken("."), Token(Ident, f)]
    case Maybe(f) => [OperatorToken("?."), Token(Ident, f)]
    case Subscript(i) => [OperatorToken("["), AtomToken(i), OperatorToken("]")]
  }

  function SelectorTokens(selectors: seq<Selector>): seq<Token>
    requires GoodSelectors(selectors)
  {
    if selectors == [] then []
    else SelectorTokens(selectors[..|selectors| - 1]) + TokensOf(selectors[|selectors| - 1])
  }

  function Minuses(n: nat): seq<Token> {
    if n == 0 then [] else [OperatorToken("-")] + Minuses(n - 1)
  }

  function TermTokens(x: Term): seq<Token>
    requires GoodTerm(x)
  {
    OperatorTokens(x.nots) + (Minuses(x.negs) + ([AtomToken(x.atom)] + SelectorTokens(x.selectors)))
  }

  function RowTokens(xs: seq<Term>, ops: seq<string>): seq<Token>
    requires |xs| == |ops| + 1 && forall i :: 0 <= i < |xs| ==> GoodTerm(xs[i])
    decreases ops
  {
    if ops == [] then TermTokens(xs[0])
    else TermTokens(xs[0]) + ([OperatorToken(ops[0])] + RowTokens(xs[1..], ops[1..]))
  }

  // ----- the grammar's levels -----

  const LEVELS: seq<nat> := [COALESCE, OR, AND, COMPARE, ADD, MULTIPLY]

  lemma TierLevel(o: string)
    requires o in MEANING
    ensures Tier(o) < 6 && OpLevel(MEANING[o]) == LEVELS[Tier(o)]
  {
  }

  lemma NoKeyword(o: string)
    requires o != "" && !('a' <= o[0] <= 'z')
    ensures OperatorToken(o) == Token(OperatorKind(o), o)
  {
    assert forall w :: w in KEYWORDS ==> w != "" && 'a' <= w[0] <= 'z';
  }

  lemma WordsPrint(o: string)
    requires o in {"or", "and", "in"}
    ensures Symbol(OperatorToken(o)) == OpToken(MEANING[o])
  {
  }

  lemma OperatorPrints(o: string)
    requires o in MEANING
    ensures Symbol(OperatorToken(o)) == OpToken(MEANING[o])
  {
    if 'a' <= o[0] <= 'z' {
      WordsPrint(o);
    } else {
      NoKeyword(o);
      hide OperatorToken;
    }
  }

  /** How tightly a row binds. */
  function RowLevel(xs: seq<Term>, ops: seq<string>): nat
    requires GoodRow(xs, ops)
  {
    if ops != [] && (xs[0].nots == [] || Tier(ops[Root(ops)]) <= 2) then OpLevel(MEANING[ops[Root(ops)]])
    else if xs[0].nots != [] then NOT
    else if xs[0].negs > 0 then NEG
    else if xs[0].selectors != [] then POSTFIX
    else PRIMARY
  }

  // ----- the printer spells the trees as the rows are written -----

  lemma SymbolsCat(a: seq<Token>, b: seq<Token>)
    ensures Symbols(a + b) == Symbols(a) + Symbols(b)
  {
  }

  lemma AtomPrints(t: Expr)
    requires Atom(t)
    ensures Printable(t) && Level(t) == PRIMARY && Raw(t) == [AtomToken(t)] && Symbols(Raw(t)) == Raw(t)
  {
    if t.Var? {
      assert NameTokens(t.name) == [Id(t.name.head)];
    }
  }

  lemma DelimiterPrints(o: string)
    requires o in {".", "?.", "-", "[", "]", "|", "(", ")", ","}
    ensures OperatorToken(o) == Op(o)
  {
    NoKeyword(o);
    hide OperatorToken;
  }

  lemma NegationPrints(o: string)
    requires o in {"!", "not"}
    ensures Symbol(OperatorToken(o)) == Grammar.Sign(Negation)
  {
    if o == "!" { NoKeyword(o); }
  }

  lemma TokensAre(x: Selector)
    requires x.Subscript? ==> Atom(x.index)
    ensures TokensOf(x) == SelectorSpelled(x) && Symbols(TokensOf(x)) == TokensOf(x)
  {
    if x.Subscript? {
      AtomPrints(x.index);
      DelimiterPrints("[");
      DelimiterPrints("]");
    } else {
      DelimiterPrints(if x.Dot? then "." else "?.");
    }
    hide OperatorToken, OperatorKind, Raw;
  }

  function SelectorSpelled(x: Selector): seq<Token> {
    match x
    case Dot(f) => [Op("."), Id(f)]
    case Maybe(f) => [Op("?."), Id(f)]
    case Subscript(i) => [Op("[")] + (Raw(i) + [Op("]")])
  }

  lemma SelectorPrints(t: Expr, x: Selector)
    requires Printable(t) && Level(t) >= POSTFIX && (x.Subscript? ==> Atom(x.index))
    ensures var u := SelectedBy(t, x);
      Printable(u) && Level(u) == POSTFIX && Raw(u) == Raw(t) + TokensOf(x) && Symbols(TokensOf(x)) == TokensOf(x)
  {
    hide OperatorToken, OperatorKind, TokensOf, SelectorSpelled, Raw, Symbols;
    TokensAre(x);
    if x.Subscript? { AtomPrints(x.index); }
    SuffixSpelled(t, x);
    RawSuffix(t, x);
  }

  lemma RawSuffix(t: Expr, x: Selector)
    requires Level(t) >= POSTFIX
    ensures Chain(SelectedBy(t, x)) && Raw(SelectedBy(t, x)) == Raw(t) + Suffix(SelectedBy(t, x))
  {
    hide Suffix, Raw;
    RawChain(SelectedBy(t, x));
  }

  lemma SuffixSpelled(t: Expr, x: Selector)
    requires x.Subscript? ==> Atom(x.index) && Level(x.index) == PRIMARY
    ensures Chain(SelectedBy(t, x)) && Suffix(SelectedBy(t, x)) == SelectorSpelled(x)
  {
    hide Raw;
    if x.Subscript? { assert Print(x.index, 0) == Raw(x.index); }
  }

  lemma {:induction false} SelectedPrints(t: Expr, selectors: seq<Selector>)
    requires Atom(t) && GoodSelectors(selectors)
    ensures var u := Selected(t, selectors);
      && Printable(u) && Level(u) == (if selectors == [] then PRIMARY else POSTFIX)
      && Raw(u) == Symbols([AtomToken(t)] + SelectorTokens(selectors))
    decreases selectors
  {
    hide Raw, Printable, Level, Symbols, TokensOf, AtomToken, SelectedBy, Atom;
    AtomPrints(t);
    if selectors == [] {
      assert [AtomToken(t)] + SelectorTokens(selectors) == Raw(t);
    } else {
      var n := |selectors| - 1;
      var front, last := [AtomToken(t)] + SelectorTokens(selectors[..n]), TokensOf(selectors[n]);
      SelectedPrints(t, selectors[..n]);
      SelectorPrints(Selected(t, selectors[..n]), selectors[n]);
      assert [AtomToken(t)] + SelectorTokens(selectors) == front + last;
      SymbolsCat(front, last);
    }
  }

  lemma NegPrints(t: Expr)
    requires Printable(t) && Level(t) >= NEG
    ensures Printable(Neg(t)) && Level(Neg(t)) == NEG && Raw(Neg(t)) == [Op("-")] + Raw(t)
  {
    assert Print(t, NEG) == Raw(t);
  }

  lemma {:induction false} NegatedPrints(n: nat, t: Expr)
    requires Printable(t) && Level(t) >= POSTFIX
    ensures var u := Negated(n, t);
      && Printable(u) && Level(u) == (if n > 0 then NEG else Level(t))
      && Raw(u) == Minuses(n) + Raw(t)
    decreases n
  {
    hide OperatorToken, Raw, Printable, Level;
    if n == 0 {
      assert [] + Raw(t) == Raw(t);
    } else {
      NegatedPrints(n - 1, t);
      DelimiterPrints("-");
      NegPrints(Negated(n - 1, t));
      assert [Op("-")] + (Minuses(n - 1) + Raw(t)) == ([Op("-")] + Minuses(n - 1)) + Raw(t);
    }
  }

  lemma {:induction false} MinusesAreSymbols(n: nat)
    ensures Symbols(Minuses(n)) == Minuses(n)
    decreases n
  {
    if n > 0 {
      MinusesAreSymbols(n - 1);
      DelimiterPrints("-");
      SymbolsCat([OperatorToken("-")], Minuses(n - 1));
    }
  }

  lemma TermPrints(x: Term)
    requires GoodTerm(x) && x.nots == []
    ensures var u := Negated(x.negs, Selected(x.atom, x.selectors));
      && Printable(u) && Raw(u) == Symbols(TermTokens(x))
      && Level(u) == if x.negs > 0 then NEG else if x.selectors != [] then POSTFIX else PRIMARY
  {
    SelectedPrints(x.atom, x.selectors);
    NegatedPrints(x.negs, Selected(x.atom, x.selectors));
    DelimiterPrints("-");
    var minus, rest := Minuses(x.negs), [AtomToken(x.atom)] + SelectorTokens(x.selectors);
    hide OperatorToken, Printable, Raw, Level, Selected, SelectorTokens;
    assert OperatorTokens(x.nots) == [] && TermTokens(x) == minus + rest;
    SymbolsCat(minus, rest);
    MinusesAreSymbols(x.negs);
  }

  // ----- rows -----

  /** Both sides of one operator of a row. */
  lemma {:induction false} RowSplits(xs: seq<Term>, ops: seq<string>, i: nat)
    requires GoodRow(xs, ops) && i < |ops|
    ensures GoodRow(xs[..i + 1], ops[..i]) && GoodRow(xs[i + 1..], ops[i + 1..])
    ensures RowTokens(xs, ops) ==
      RowTokens(xs[..i + 1], ops[..i]) + ([OperatorToken(ops[i])] + RowTokens(xs[i + 1..], ops[i + 1..]))
    decreases i
  {
    hide OperatorToken, TermTokens, GoodTerm, Tier, MEANING;
    if i > 0 {
      assert GoodRow(xs[1..], ops[1..]);
      RowSplits(xs[1..], ops[1..], i - 1);
      assert xs[1..][..i] == xs[..i + 1][1..] && ops[1..][..i - 1] == ops[..i][1..];
      assert xs[1..][i..] == xs[i + 1..] && ops[1..][i..] == ops[i + 1..];
    } else {
      assert xs[..1] == [xs[0]] && ops[..0] == [];
    }
  }

  lemma UnchainedSplits(ops: seq<string>, i: nat)
    requires AllOperators(ops) && Unchained(ops) && i < |ops|
    ensures Unchained(ops[..i]) && Unchained(ops[i + 1..])
  {
    hide Tier, MEANING;
    var left, right := ops[..i], ops[i + 1..];
    forall a, b | 0 <= a < b < |left| && Tier(left[a]) == 3 && Tier(left[b]) == 3 ensures Looser(left, a, b) {
      assert Looser(ops, a, b);
      var k :| a <= k < b && Tier(ops[k]) <= 2;
      assert left[k] == ops[k];
    }
    forall a, b | 0 <= a < b < |right| && Tier(right[a]) == 3 && Tier(right[b]) == 3 ensures Looser(right, a, b) {
      assert Looser(ops, a + i + 1, b + i + 1);
      var k :| a + i + 1 <= k < b + i + 1 && Tier(ops[k]) <= 2;
      assert right[k - i - 1] == ops[k];
    }
  }

  lemma RowNegated(xs: seq<Term>, ops: seq<string>)
    requires GoodRow(xs, ops) && xs[0].nots != []
    ensures var ys := [xs[0].(nots := xs[0].nots[1..])] + xs[1..];
      GoodRow(ys, ops) && RowTokens(xs, ops) == [OperatorToken(xs[0].nots[0])] + RowTokens(ys, ops)
  {
    hide OperatorToken, Tier, MEANING;
    var x := xs[0];
    var y := x.(nots := x.nots[1..]);
    var ys := [y] + xs[1..];
    assert ys[1..] == xs[1..];
    assert OperatorTokens(x.nots) == [OperatorToken(x.nots[0])] + OperatorTokens(y.nots);
    assert GoodTerm(y);
    assert TermTokens(x) == [OperatorToken(x.nots[0])] + TermTokens(y);
  }

  predicate Splits(xs: seq<Term>, ops: seq<string>)
    requires GoodRow(xs, ops)
  {
    ops != [] && (xs[0].nots == [] || Tier(ops[Root(ops)]) <= 2)
  }

  lemma SideTiers(ops: seq<string>)
    requires AllOperators(ops) && ops != []
    ensures var i := Root(ops);
      && AllOperators(ops[..i]) && AllOperators(ops[i + 1..])
      && (ops[..i] != [] ==> Tier(ops[..i][Root(ops[..i])]) >= Tier(ops[i]))
      && (ops[i + 1..] != [] ==> Tier(ops[i + 1..][Root(ops[i + 1..])]) > Tier(ops[i]))
  {
    hide Tier, MEANING, Root;
    var i := Root(ops);
    PartTiers(ops, 0, i);
    PartTiers(ops, i + 1, |ops|);
    assert ops[..i] == ops[0..i] && ops[i + 1..] == ops[i + 1..|ops|];
  }

  /** The root of a part is one of the operators. */
  lemma PartTiers(ops: seq<string>, a: nat, b: nat)
    requires AllOperators(ops) && a <= b <= |ops|
    ensures AllOperators(ops[a..b])
    ensures a < b ==> var j := Root(ops[a..b]); a + j < b && ops[a..b][j] == ops[a + j]
  {
    hide Tier, MEANING;
    assert forall m :: 0 <= m < b - a ==> ops[a..b][m] == ops[a + m];
  }

  lemma NothingLooser(ops: seq<string>, i: nat, j: nat)
    requires AllOperators(ops) && i <= j <= |ops| && forall k :: 0 <= k < |ops| ==> Tier(ops[k]) > 2
    ensures !Looser(ops, i, j)
  {
    hide Tier, MEANING;
  }

  /** If the root is a comparison, it is the only one. */
  lemma RootAlone(ops: seq<string>)
    requires AllOperators(ops) && Unchained(ops) && ops != [] && Tier(ops[Root(ops)]) == 3
    ensures var i := Root(ops); AllOperators(ops[..i]) && (ops[..i] != [] ==> Tier(ops[..i][Root(ops[..i])]) > 3)
  {
    hide Tier, MEANING;
    var i := Root(ops);
    var left := ops[..i];
    if left != [] {
      var j := Root(left);
      assert left[j] == ops[j];
      if Tier(ops[j]) == 3 {
        NothingLooser(ops, j, i);
      }
    }
  }

  /** Left of the root everything binds as tight at least, and tighter than a comparison. */
  lemma LeftBinds(xs: seq<Term>, ops: seq<string>)
    requires GoodRow(xs, ops) && Unchained(ops) && Splits(xs, ops)
    ensures var i := Root(ops);
      && GoodRow(xs[..i + 1], ops[..i])
      && var l := OpLevel(MEANING[ops[i]]); RowLevel(xs[..i + 1], ops[..i]) >= if l == COMPARE then ADD else l
  {
    hide Tier, MEANING, OpLevel, Root, Unchained, RowTokens, GoodTerm;
    var i := Root(ops);
    var left := ops[..i];
    RowSplits(xs, ops, i);
    SideTiers(ops);
    if Tier(ops[i]) == 3 { RootAlone(ops); }
    TierLevel(ops[i]);
    if left != [] { TierLevel(left[Root(left)]); }
  }

  /** Right of the root everything binds tighter. */
  lemma RightBinds(xs: seq<Term>, ops: seq<string>)
    requires GoodRow(xs, ops) && Splits(xs, ops)
    ensures var i := Root(ops);
      GoodRow(xs[i + 1..], ops[i + 1..]) && RowLevel(xs[i + 1..], ops[i + 1..]) > OpLevel(MEANING[ops[i]])
  {
    hide Tier, MEANING, OpLevel, Root, RowTokens, GoodTerm;
    var i := Root(ops);
    var right := ops[i + 1..];
    RowSplits(xs, ops, i);
    SideTiers(ops);
    TierLevel(ops[i]);
    if right != [] { TierLevel(right[Root(right)]); }
  }

  lemma BinPrints(op: BinOp, left: Expr, right: Expr)
    requires Printable(left) && Printable(right)
    requires Level(left) >= (if OpLevel(op) == COMPARE then ADD else OpLevel(op)) && Level(right) > OpLevel(op)
    ensures var t := Bin(op, left, right);
      Printable(t) && Level(t) == OpLevel(op) && Raw(t) == Raw(left) + ([OpToken(op)] + Raw(right))
  {
    hide OpToken, OpLevel;
    BinRaw(op, left, right);
    hide Raw;
  }

  lemma BinRaw(op: BinOp, left: Expr, right: Expr)
    requires Level(left) >= (if OpLevel(op) == COMPARE then ADD else OpLevel(op)) && Level(right) > OpLevel(op)
    ensures Raw(Bin(op, left, right)) == Raw(left) + ([OpToken(op)] + Raw(right))
  {
    hide OpToken, OpLevel, Printable;
    var t := Bin(op, left, right);
    if OpLevel(op) == COMPARE {
      assert Print(left, ADD) == Raw(left) && Print(right, ADD) == Raw(right);
    } else {
      assert Chain(t) && First(t) == left && Level(t) == OpLevel(op);
      assert Print(left, OpLevel(op)) == Raw(left) && Print(right, OpLevel(op) + 1) == Raw(right);
      assert Suffix(t) == [OpToken(op)] + Raw(right);
    }
  }

  /** The tree of a row is spelled by the row, without any parentheses. */
  lemma {:induction false} TreePrints(xs: seq<Term>, ops: seq<string>)
    requires GoodRow(xs, ops) && Unchained(ops)
    ensures var t := Tree(xs, ops);
      Printable(t) && Level(t) == RowLevel(xs, ops) && Raw(t) == Symbols(RowTokens(xs, ops))
    decreases |ops|, |xs[0].nots|
  {
    hide Printable, Level, Raw, RowTokens, Symbols, OperatorToken, Tier, MEANING, OpLevel, OpToken, GoodTerm, TermTokens;
    if Splits(xs, ops) {
      var i := Root(ops);
      LeftBinds(xs, ops);
      RightBinds(xs, ops);
      UnchainedSplits(ops, i);
      RowSplits(xs, ops, i);
      TreePrints(xs[..i + 1], ops[..i]);
      TreePrints(xs[i + 1..], ops[i + 1..]);
      var left, right := RowTokens(xs[..i + 1], ops[..i]), RowTokens(xs[i + 1..], ops[i + 1..]);
      SymbolsCat(left, [OperatorToken(ops[i])] + right);
      SymbolsCat([OperatorToken(ops[i])], right);
      OperatorPrints(ops[i]);
      OneSymbol(OperatorToken(ops[i]));
      BinPrints(MEANING[ops[i]], Tree(xs[..i + 1], ops[..i]), Tree(xs[i + 1..], ops[i + 1..]));
    } else if xs[0].nots != [] {
      var ys := [xs[0].(nots := xs[0].nots[1..])] + xs[1..];
      RowNegated(xs, ops);
      TreePrints(ys, ops);
      SymbolsCat([OperatorToken(xs[0].nots[0])], RowTokens(ys, ops));
      NegationSpelled(xs[0]);
      OneSymbol(OperatorToken(xs[0].nots[0]));
      RowAtLeastNot(ys, ops);
      NotPrints(Tree(ys, ops));
    } else {
      TermPrints(xs[0]);
      OneTerm(xs, ops);
    }
  }

  lemma OneSymbol(t: Token)
    ensures Symbols([t]) == [Symbol(t)]
  {
  }

  lemma OneTerm(xs: seq<Term>, ops: seq<string>)
    requires GoodRow(xs, ops) && ops == []
    ensures RowTokens(xs, ops) == TermTokens(xs[0])
  {
  }

  lemma NegationSpelled(x: Term)
    requires GoodTerm(x) && x.nots != []
    ensures Symbol(OperatorToken(x.nots[0])) == Grammar.Sign(Negation)
  {
    NegationPrints(x.nots[0]);
  }

  lemma NotPrints(t: Expr)
    requires Printable(t) && Level(t) >= NOT
    ensures Printable(Not(t)) && Level(Not(t)) == NOT && Raw(Not(t)) == [Grammar.Sign(Negation)] + Raw(t)
  {
  }

  lemma RowAtLeastNot(xs: seq<Term>, ops: seq<string>)
    requires GoodRow(xs, ops) && (ops != [] ==> Tier(ops[Root(ops)]) > 2)
    ensures RowLevel(xs, ops) >= NOT
  {
    if ops != [] { TierLevel(ops[Root(ops)]); }
    hide Tier, MEANING, OpLevel;
  }

  // ----- pipes around a row -----

  /** A call that a row is piped into, with what it is given besides. */
  datatype Stage = Stage(fn: string, args: seq<Expr>)

  predicate Atoms(args: seq<Expr>) {
    forall i :: 0 <= i < |args| ==> Atom(args[i])
  }

  predicate GoodStages(stages: seq<Stage>) {
    forall i :: 0 <= i < |stages| ==> Atoms(stages[i].args)
  }

  /** The last stage is the root. */
  function Piped(t: Expr, stages: seq<Stage>): Expr {
    if stages == [] then t
    else
      var n := |stages| - 1;
      Pipe(Piped(t, stages[..n]), Some(Name(stages[n].fn, None, [])), stages[n].args)
  }

  function ArgTokens(args: seq<Expr>): seq<Token>
    requires Atoms(args)
  {
    if args == [] then []
    else if |args| == 1 then [AtomToken(args[0])]
    else [AtomToken(args[0])] + ([OperatorToken(",")] + ArgTokens(args[1..]))
  }

  function StageTokens(stages: seq<Stage>): seq<Token>
    requires GoodStages(stages)
  {
    if stages == [] then []
    else
      var n := |stages| - 1;
      StageTokens(stages[..n]) + OneStage(stages[n])
  }

  function OneStage(x: Stage): seq<Token>
    requires Atoms(x.args)
  {
    [OperatorToken("|")] + ([Token(Ident, x.fn)] + ([OperatorToken("(")] + (ArgTokens(x.args) + [OperatorToken(")")])))
  }

  lemma {:induction false} ArgsPrint(args: seq<Expr>)
    requires Atoms(args)
    ensures ListTokens(args) == ArgTokens(args) && Symbols(ArgTokens(args)) == ArgTokens(args) && PrintableAll(args)
    decreases args
  {
    if args != [] {
      AtomPrints(args[0]);
      ArgsPrint(args[1..]);
      DelimiterPrints(",");
      hide OperatorToken, Raw, AtomToken, Printable;
      assert Print(args[0], 0) == [AtomToken(args[0])];
      if |args| > 1 {
        assert ListTokens(args) == Print(args[0], 0) + ([Op(",")] + ListTokens(args[1..]));
        SymbolsCat([AtomToken(args[0])], [Op(",")] + ArgTokens(args[1..]));
        SymbolsCat([Op(",")], ArgTokens(args[1..]));
        OneSymbol(Op(","));
      }
    }
  }

  lemma StageIsSymbols(x: Stage)
    requires Atoms(x.args)
    ensures OneStage(x) == [Op("|")] + ([Id(x.fn)] + ([Op("(")] + (ListTokens(x.args) + [Op(")")])))
    ensures Symbols(OneStage(x)) == OneStage(x)
  {
    ArgsPrint(x.args);
    DelimiterPrints("|");
    DelimiterPrints("(");
    DelimiterPrints(")");
    hide OperatorToken, ArgTokens, ListTokens;
    SymbolsCat([Op("|")], [Id(x.fn)] + ([Op("(")] + (ArgTokens(x.args) + [Op(")")])));
    SymbolsCat([Id(x.fn)], [Op("(")] + (ArgTokens(x.args) + [Op(")")]));
    SymbolsCat([Op("(")], ArgTokens(x.args) + [Op(")")]);
    SymbolsCat(ArgTokens(x.args), [Op(")")]);
  }

  lemma PipePrints(t: Expr, x: Stage)
    requires Printable(t) && Level(t) >= PIPE && Atoms(x.args)
    ensures var u := Pipe(t, Some(Name(x.fn, None, [])), x.args);
      Printable(u) && Level(u) == PIPE && Raw(u) == Raw(t) + Symbols(OneStage(x))
  {
    StageIsSymbols(x);
    ArgsPrint(x.args);
    hide OneStage, ListTokens, Symbols, ArgTokens;
    var u := Pipe(t, Some(Name(x.fn, None, [])), x.args);
    assert NameTokens(u.fn.value) == [Id(x.fn)];
    assert Raw(u) == Print(First(u), Level(u)) + Suffix(u);
  }

  lemma {:induction false} PipedPrints(t: Expr, row: seq<Token>, stages: seq<Stage>)
    requires Printable(t) && Level(t) >= PIPE && Raw(t) == Symbols(row) && GoodStages(stages)
    ensures var u := Piped(t, stages);
      Printable(u) && Level(u) >= PIPE && Raw(u) == Symbols(row + StageTokens(stages))
    decreases stages
  {
    hide Printable, Raw, OperatorToken, Symbols, ArgTokens;
    if stages == [] {
      assert row + [] == row;
    } else {
      var n := |stages| - 1;
      var front, last := StageTokens(stages[..n]), OneStage(stages[n]);
      PipedPrints(t, row, stages[..n]);
      PipePrints(Piped(t, stages[..n]), stages[n]);
      assert row + StageTokens(stages) == (row + front) + last;
      SymbolsCat(row + front, last);
    }
  }

  // ----- comparisons do not chain -----

  /** The last comparison, with nothing looser behind it. */
  predicate LastCompares(ops: seq<string>, c: nat)
    requires AllOperators(ops)
  {
    c < |ops| && Tier(ops[c]) == 3 && forall k :: c < k < |ops| ==> Tier(ops[k]) > 3
  }

  lemma StuckAtRoot(op: BinOp, left: Expr, right: Expr, l: nat)
    requires OpLevel(op) <= COMPARE && l <= OpLevel(op)
    requires if OpLevel(op) == COMPARE then true else Stuck(right, OpLevel(op) + 1, COMPARE)
    ensures Stuck(Bin(op, left, right), l, COMPARE)
  {
    StuckBelow(right, COMPARE + 1, COMPARE);
  }

  /** Its root is that comparison, or something looser in front of it. */
  lemma RootOfComparing(ops: seq<string>, c: nat)
    requires AllOperators(ops) && LastCompares(ops, c)
    ensures var i := Root(ops);
      && AllOperators(ops[i + 1..])
      && if Tier(ops[i]) <= 2 then OpLevel(MEANING[ops[i]]) < COMPARE && i < c && LastCompares(ops[i + 1..], c - i - 1)
         else OpLevel(MEANING[ops[i]]) == COMPARE
  {
    hide Tier, MEANING, OpLevel;
    var i := Root(ops);
    AroundComparison(ops[i]);
    var right := ops[i + 1..];
    assert forall k :: 0 <= k < |right| ==> right[k] == ops[i + 1 + k];
  }

  lemma AroundComparison(o: string)
    requires o in MEANING
    ensures (Tier(o) <= 2 ==> OpLevel(MEANING[o]) < COMPARE) && (Tier(o) == 3 ==> OpLevel(MEANING[o]) == COMPARE)
  {
    TierLevel(o);
    hide Tier, MEANING, OpLevel;
  }

  lemma RootSplits(xs: seq<Term>, ops: seq<string>)
    requires GoodRow(xs, ops) && Splits(xs, ops)
    ensures ops != [] && AllOperators(ops) && |xs| == |ops| + 1
    ensures var i := Root(ops);
      && i < |ops| && ops[i] in MEANING && GoodRow(xs[..i + 1], ops[..i]) && GoodRow(xs[i + 1..], ops[i + 1..])
      && RowLevel(xs, ops) == OpLevel(MEANING[ops[i]])
  {
    hide Tier, MEANING, OpLevel, RowTokens, GoodRow, AllOperators;
    RowFacts(xs, ops);
    OperatorAt(ops, Root(ops));
    RowSplits(xs, ops, Root(ops));
  }

  lemma RowFacts(xs: seq<Term>, ops: seq<string>)
    requires GoodRow(xs, ops)
    ensures |xs| == |ops| + 1 && AllOperators(ops)
  {
    hide GoodTerm;
  }

  lemma OperatorAt(ops: seq<string>, i: nat)
    requires AllOperators(ops) && i < |ops|
    ensures ops[i] in MEANING
  {
    hide MEANING;
  }

  lemma TreeSplits(xs: seq<Term>, ops: seq<string>)
    requires GoodRow(xs, ops) && ops != [] && AllOperators(ops) && |xs| == |ops| + 1 && Splits(xs, ops)
    requires var i := Root(ops);
      i < |ops| && ops[i] in MEANING && GoodRow(xs[..i + 1], ops[..i]) && GoodRow(xs[i + 1..], ops[i + 1..])
    ensures var i := Root(ops);
      Tree(xs, ops) == Bin(MEANING[ops[i]], Tree(xs[..i + 1], ops[..i]), Tree(xs[i + 1..], ops[i + 1..]))
  {
    hide Tier, MEANING, GoodRow, Root, AllOperators;
  }

  /** Such a row takes no further comparison. */
  lemma {:induction false} RowStuck(xs: seq<Term>, ops: seq<string>, c: nat, l: nat)
    requires GoodRow(xs, ops) && Unchained(ops) && LastCompares(ops, c) && l <= RowLevel(xs, ops) && l <= COMPARE
    ensures Stuck(Tree(xs, ops), l, COMPARE)
    decreases |ops|, |xs[0].nots|
  {
    hide *;
    if Splits(xs, ops) {
      RootSplits(xs, ops);
      TreeSplits(xs, ops);
      var i := Root(ops);
      RootOfComparing(ops, c);
      UnchainedSplits(ops, i);
      RightBinds(xs, ops);
      if Tier(ops[i]) <= 2 {
        RowStuck(xs[i + 1..], ops[i + 1..], c - i - 1, OpLevel(MEANING[ops[i]]) + 1);
      }
      StuckAtRoot(MEANING[ops[i]], Tree(xs[..i + 1], ops[..i]), Tree(xs[i + 1..], ops[i + 1..]), l);
    } else {
      NotStuck(xs, ops, c, l);
    }
  }

  lemma {:induction false} NotStuck(xs: seq<Term>, ops: seq<string>, c: nat, l: nat)
    requires GoodRow(xs, ops) && Unchained(ops) && LastCompares(ops, c) && l <= RowLevel(xs, ops) && l <= COMPARE
    requires !Splits(xs, ops)
    ensures Stuck(Tree(xs, ops), l, COMPARE)
    decreases |ops|, |xs[0].nots|, 0
  {
    hide Tier, MEANING, OpLevel, RowTokens, GoodTerm, Unchained, Root;
    var ys := [xs[0].(nots := xs[0].nots[1..])] + xs[1..];
    RowNegated(xs, ops);
    RowAtLeastNot(ys, ops);
    RowStuck(ys, ops, c, NOT);
    hide GoodRow, LastCompares;
  }

  lemma PrefixLooser(ops: seq<string>, n: nat, i: nat, j: nat)
    requires AllOperators(ops) && i <= j <= n <= |ops|
    ensures Looser(ops[..n], i, j) <==> Looser(ops, i, j)
  {
    hide Tier, MEANING;
    var front := ops[..n];
    assert forall k :: 0 <= k < n ==> front[k] == ops[k];
    if Looser(ops, i, j) {
      var k :| i <= k < j && Tier(ops[k]) <= 2;
      assert Tier(front[k]) <= 2;
    }
  }

  lemma OneOfChain(ops: seq<string>, i: nat, j: nat)
    requires AllOperators(ops) && Unchained(ops) && i < j < |ops| && Tier(ops[i]) == 3 && Tier(ops[j]) == 3
    ensures Looser(ops, i, j)
  {
  }

  lemma AChain(ops: seq<string>) returns (i: nat, j: nat)
    requires AllOperators(ops) && !Unchained(ops)
    ensures i < j < |ops| && Tier(ops[i]) == 3 && Tier(ops[j]) == 3 && !Looser(ops, i, j)
  {
    i, j :| 0 <= i < j < |ops| && Tier(ops[i]) == 3 && Tier(ops[j]) == 3 && !Looser(ops, i, j);
  }

  /** Where a row becomes a chain, a comparison stands behind another one. */
  lemma ChainLasts(ops: seq<string>, n: nat) returns (c: nat)
    requires AllOperators(ops) && n < |ops| && Unchained(ops[..n]) && !Unchained(ops[..n + 1])
    ensures LastCompares(ops[..n], c) && Tier(ops[n]) == 3
  {
    hide Tier, MEANING, Unchained;
    var most, front := ops[..n + 1], ops[..n];
    assert forall k :: 0 <= k < n ==> front[k] == most[k] == ops[k];
    var i, j := AChain(most);
    PrefixLooser(ops, n + 1, i, j);
    if j < n {
      PrefixLooser(ops, n, i, j);
      OneOfChain(front, i, j);
    }
    c := i;
    forall k: nat | c < k < n ensures Tier(front[k]) > 3 {
      PrefixLooser(ops, n, i, k);
      WiderLooser(ops, i, k, j);
      if Tier(front[k]) == 3 { OneOfChain(front, i, k); }
    }
  }

  lemma WiderLooser(ops: seq<string>, i: nat, k: nat, j: nat)
    requires AllOperators(ops) && i < k < j <= |ops|
    ensures Looser(ops, i, k) ==> Looser(ops, i, j)
    ensures Tier(ops[k]) <= 2 ==> Looser(ops, i, j)
  {
    hide Tier, MEANING;
  }

  // ----- the parser -----

  /** Everything a row and its stages are written with, and the end of the input. */
  function LineOf(xs: seq<Term>, ops: seq<string>, stages: seq<Stage>): seq<Token>
    requires GoodRow(xs, ops) && GoodStages(stages)
  {
    RowTokens(xs, ops) + StageTokens(stages) + [Token(EOF, "")]
  }

  /** What the parser makes of operands, operators and pipes in a row, any words and symbols:
      the pipes are outermost, the last one the root; inside them the root is the last
      operator of the loosest tier, and so on on both sides. */
  method ParseRow(xs: seq<Term>, ops: seq<string>, stages: seq<Stage>, converts: string -> bool)
      returns (e: Expr, end: nat, errors: seq<nat>)
    requires GoodRow(xs, ops) && GoodStages(stages) && AllConvert(LineOf(xs, ops, stages), converts)
    requires Unchained(ops)
    ensures e == Piped(Tree(xs, ops), stages) && errors == []
    ensures end == |RowTokens(xs, ops) + StageTokens(stages)|
  {
    hide Printable, Raw, Level, Unchained, RowTokens, StageTokens, Symbols, Tree, Piped, MEANING;
    ghost var t, row := Piped(Tree(xs, ops), stages), RowTokens(xs, ops) + StageTokens(stages);
    TreePrints(xs, ops);
    LevelAtLeastPipe(xs, ops);
    PipedPrints(Tree(xs, ops), RowTokens(xs, ops), stages);
    LineSpells(t, row, [Token(EOF, "")]);
    OneSymbol(Token(EOF, ""));
    EndStops(Print(t, 0), t);
    e, end, errors := ParseTokens(LineOf(xs, ops, stages), converts, Some(t), 0);
  }

  /** The same from text. */
  method ParseRowText(xs: seq<Term>, ops: seq<string>, stages: seq<Stage>, converts: string -> bool)
      returns (e: Expr, lexical: nat, errors: seq<nat>)
    requires GoodRow(xs, ops) && GoodStages(stages) && Unchained(ops)
    requires var row := RowTokens(xs, ops) + StageTokens(stages); AllRenderable(row) && AllConvert(row, converts)
    ensures e == Piped(Tree(xs, ops), stages) && lexical == 0 && errors == []
  {
    hide Printable, Raw, Level, Unchained, RowTokens, StageTokens, Symbols, Tree, Piped, MEANING, Renderable;
    TreePrints(xs, ops);
    LevelAtLeastPipe(xs, ops);
    PipedPrints(Tree(xs, ops), RowTokens(xs, ops), stages);
    e, lexical, errors := ParseWritten(RowTokens(xs, ops) + StageTokens(stages), converts, Piped(Tree(xs, ops), stages));
  }

  lemma LevelAtLeastPipe(xs: seq<Term>, ops: seq<string>)
    requires GoodRow(xs, ops)
    ensures RowLevel(xs, ops) >= PIPE
  {
    hide Tier, MEANING;
  }

  /** A row that spells a tree, with more behind it. */
  lemma LineSpells(t: Expr, row: seq<Token>, more: seq<Token>)
    requires Raw(t) == Symbols(row)
    ensures Print(t, 0) == Symbols(row) && |Print(t, 0)| == |row| && Symbols(row + more) == Print(t, 0) + Symbols(more)
  {
    SymbolsCat(row, more);
  }

  /** Comparisons do not chain: before the first one that follows another without a looser
      operator in between the parser stops, with the tree of what stands before it. */
  method ParseChain(xs: seq<Term>, ops: seq<string>, n: nat, converts: string -> bool)
      returns (e: Expr, end: nat, errors: seq<nat>)
    requires GoodRow(xs, ops) && AllConvert(RowTokens(xs, ops), converts)
    requires n < |ops| && Unchained(ops[..n]) && !Unchained(ops[..n + 1])
    ensures GoodRow(xs[..n + 1], ops[..n]) && e == Tree(xs[..n + 1], ops[..n]) && errors == []
    ensures end == |RowTokens(xs[..n + 1], ops[..n])|
  {
    hide Printable, Raw, Level, Unchained, RowTokens, Symbols, Tree, Stops, MEANING;
    ghost var t := ChainStops(xs, ops, n);
    e, end, errors := ParseTokens(RowTokens(xs, ops), converts, Some(t), 0);
  }

  lemma ChainStops(xs: seq<Term>, ops: seq<string>, n: nat) returns (t: Expr)
    requires GoodRow(xs, ops) && n < |ops| && Unchained(ops[..n]) && !Unchained(ops[..n + 1])
    ensures GoodRow(xs[..n + 1], ops[..n]) && t == Tree(xs[..n + 1], ops[..n]) && Printable(t)
    ensures var ts := Symbols(RowTokens(xs, ops));
      && Print(t, 0) <= ts && |Print(t, 0)| == |RowTokens(xs[..n + 1], ops[..n])|
      && Stops(ts, |Print(t, 0)|, Whole(t), PIPE)
  {
    hide Printable, Raw, Level, Unchained, RowTokens, Symbols, Tree, Stops, MEANING, Tier, OpLevel;
    RowSplits(xs, ops, n);
    var xs', ops', more := xs[..n + 1], ops[..n], [OperatorToken(ops[n])] + RowTokens(xs[n + 1..], ops[n + 1..]);
    var c := ChainLasts(ops, n);
    t := Tree(xs', ops');
    TreePrints(xs', ops');
    LevelAtLeastPipe(xs', ops');
    LineSpells(t, RowTokens(xs', ops'), more);
    RowStuck(xs', ops', c, PIPE);
    ComparisonNext(Print(t, 0), ops[n], RowTokens(xs[n + 1..], ops[n + 1..]), t);
  }

  lemma ComparisonNext(before: seq<Token>, o: string, rest: seq<Token>, t: Expr)
    requires o in MEANING && Tier(o) == 3 && Level(t) >= PIPE && Stuck(t, PIPE, COMPARE)
    ensures Stops(before + Symbols([OperatorToken(o)] + rest), |before|, Whole(t), PIPE)
  {
    hide Stuck, Trailing;
    var ts := before + Symbols([OperatorToken(o)] + rest);
    TierLevel(o);
    OperatorPrints(o);
    OpTokenReads(MEANING[o]);
    assert ts[|before|] == Symbol(OperatorToken(o));
    NoTail(MEANING[o]);
    hide MEANING, OpToken, Tier, OpLevel;
    var n := Trailing(t, PIPE, false);
    if n.Some? { TailStays(ts, |before|, n.value); }
  }

  lemma NoTail(op: BinOp)
    ensures OpToken(op).kind !in {Operator("("), Operator("::"), Operator("=>"), Operator(":")}
  {
  }
}
