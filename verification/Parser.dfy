/** The recursive-descent parser.  Every method of it ends and moves on, on any tokens; and
    where its caller can name a tree that is spelled at the current token (`want`, which the
    program does not have), the method returns that tree and stops right after it. */
module Parser {
  import opened Wrappers
  import opened Tokens
  import opened Grammar
  import opened Reading
  import opened Shapes
  import opened OpenTrees
  import opened Steps
  import opened Functions

  const END: Token := Token(EOF, "")

  const IMPLICIT: string := "<implicit>"

  /** Any word can be a key. */
  predicate IsKey(k: TokenType) {
    k.Ident? || k.Keyword? || (k.Logic? && k.spelledOut)
  }

  class Parser {
    const input: seq<Token>
    /** The input with symbols in place of the words `or`, `and` and `not`. */
    ghost const tokens: seq<Token>
    /** Which digits make a number of the host's width. */
    const converts: string -> bool
    var pos: nat
    var current: Token
    var errors: seq<nat>
    var inPattern: bool

    constructor (input: seq<Token>, converts: string -> bool)
      ensures this.input == input && this.tokens == Symbols(input) && this.converts == converts
      ensures Valid() && pos == 0 && errors == [] && !inPattern
    {
      this.input, this.converts := input, converts;
      this.tokens := Symbols(input);
      pos, errors, inPattern := 0, [], false;
      current := if input == [] then END else input[0];
    }

    ghost predicate Valid()
      reads this
    {
      && InStep(pos, current)
      && Symbol(current) == if pos < |tokens| then tokens[pos] else END
    }

    ghost predicate InStep(p: nat, t: Token) {
      tokens == Symbols(input) && t == if p < |input| then input[p] else END
    }

    /** How many tokens are left. */
    ghost function Left(): nat
      reads this
    {
      if pos < |tokens| then |tokens| - pos else 0
    }

    /** At least one token was taken, no error got lost, and patterns stay patterns. */
    twostate predicate Moved()
      reads this
    {
      Stayed() && pos > old(pos)
    }

    twostate predicate Stayed()
      reads this
    {
      Valid() && pos >= old(pos) && inPattern == old(inPattern) && old(errors) <= errors
    }

    ghost predicate Numbers() {
      forall i :: 0 <= i < |tokens| && tokens[i].kind in {Int, Float} ==> converts(tokens[i].val)
    }

    ghost predicate Hinted()
      reads this
    {
      Numbers() && !inPattern
    }

    ghost predicate Hint(want: Option<Want>, l: nat)
      reads this
    {
      want.Some? ==> Hinted() && Expects(tokens, want.value, l, pos)
    }

    /** The parser returned the tree and stands behind it, with no new error; or, where what
        follows goes on with the tree, it returned one that says more. */
    twostate predicate Got(want: Option<Want>, l: nat, e: Expr)
      reads this
    {
      want.Some? ==>
        if Beyond(tokens, want.value, l, old(pos)) then Weight(e) > Weight(want.value.tree)
        else e == want.value.tree && pos == old(pos) + |Form(want.value, l)| && errors == old(errors)
    }

    /** The same for a whole expression. */
    twostate predicate Received(want: Option<Want>, e: Expr)
      reads this
    {
      want.Some? ==>
        if want.value.over then Weight(e) > Weight(want.value.tree)
        else e == want.value.tree && pos == old(pos) + |Form(want.value, PIPE)| && errors == old(errors)
    }

    // ----- token navigation -----

    method Advance() returns (t: Token)
      requires Valid()
      modifies this
      ensures Valid() && pos == old(pos) + 1 && t == old(current) && errors == old(errors) && inPattern == old(inPattern)
    {
      t := current;
      pos := pos + 1;
      current := if pos < |input| then input[pos] else END;
    }

    method AddError()
      modifies this
      ensures errors == old(errors) + [pos] && pos == old(pos) && current == old(current) && inPattern == old(inPattern)
    {
      errors := errors + [pos];
    }

    /** Takes the token if it is the right one, and stays with an error if it is not. */
    method Expect(k: TokenType) returns (t: Token)
      requires Valid()
      modifies this
      ensures Valid() && t == old(current) && inPattern == old(inPattern)
      ensures if t.kind == k then pos == old(pos) + 1 && errors == old(errors)
              else pos == old(pos) && errors == old(errors) + [pos]
    {
      if current.kind != k {
        AddError();
        return current;
      }
      t := Advance();
    }

    ghost predicate OnlyNewlines(p: nat, q: nat) {
      forall i :: p <= i < q && i < |tokens| ==> tokens[i].kind.Newline?
    }

    ghost predicate OnlyLayout(p: nat, q: nat) {
      forall i :: p <= i < q && i < |tokens| ==> IsLayout(tokens[i].kind)
    }

    /** The newlines that were skipped are those that were known to stand here. */
    lemma LinesSkipped(p: nat, q: nat, n: nat)
      requires LinesHere(tokens, n, p) && p <= q && OnlyNewlines(p, q) && !KindAt(tokens, q).Newline?
      requires q <= |tokens| || q == p
      ensures q == p + n
    {
      if n > 0 { LinesAll(tokens, p, n); }
    }

    method SkipNewlines()
      requires Valid()
      modifies this
      ensures Valid() && pos >= old(pos) && !current.kind.Newline? && errors == old(errors) && inPattern == old(inPattern)
      ensures OnlyNewlines(old(pos), pos) && (pos <= |tokens| || pos == old(pos))
      ensures !old(current).kind.Newline? ==> pos == old(pos)
    {
      while current.kind.Newline?
        invariant Valid() && pos >= old(pos) && errors == old(errors) && inPattern == old(inPattern)
        invariant OnlyNewlines(old(pos), pos) && (pos <= |tokens| || pos == old(pos))
        invariant !old(current).kind.Newline? ==> pos == old(pos)
        decreases Left()
      {
        var _ := Advance();
      }
    }

    /** One token, and the newlines behind it. */
    method AdvanceLine() returns (t: Token)
      requires Valid()
      modifies this
      ensures Moved() && errors == old(errors) && t == old(current) && !KindAt(tokens, pos).Newline?
      ensures !KindAt(tokens, old(pos) + 1).Newline? ==> pos == old(pos) + 1
    {
      hide InStep, OnlyNewlines;
      t := Advance();
      SkipNewlines();
    }

    method SkipLayout()
      requires Valid()
      modifies this
      ensures Valid() && pos >= old(pos) && !IsLayout(current.kind) && errors == old(errors) && inPattern == old(inPattern)
      ensures OnlyLayout(old(pos), pos)
      ensures !IsLayout(old(current).kind) ==> pos == old(pos)
    {
      while current.kind.Newline? || current.kind.Indent? || current.kind.Dedent?
        invariant Valid() && pos >= old(pos) && errors == old(errors) && inPattern == old(inPattern)
        invariant OnlyLayout(old(pos), pos)
        invariant !IsLayout(old(current).kind) ==> pos == old(pos)
        decreases Left()
      {
        var _ := Advance();
      }
    }

    /** The token after the current one. */
    lemma NextKind()
      requires Valid()
      ensures KindAt(input, pos + 1) == Operator("=>") <==> KindAt(tokens, pos + 1) == Operator("=>")
    {
    }

    // ----- operators -----

    method ParseExpr(ghost want: Option<Want>) returns (e: Expr)
      requires Valid() && Hint(want, PIPE)
      modifies this
      ensures Moved() && Received(want, e)
      decreases Left(), 14
    {
      hide InStep, Expects, Beyond;
      if want.Some? { OverBeyond(tokens, want.value, pos); }
      e := ParsePipe(want);
    }

    /** A connective is the same operator as a word and as a symbol. */
    lemma SameOperator()
      requires Valid()
      ensures BinOpOf(current.kind) == BinOpOf(KindAt(tokens, pos))
    {
    }

    /** A binary operator, and the newlines behind it. */
    method TakeOperator() returns (op: BinOp)
      requires Valid() && BinOpOf(current.kind).Some?
      modifies this
      ensures Moved() && errors == old(errors) && Some(op) == BinOpOf(old(current).kind) && old(pos) < |tokens|
      ensures !KindAt(tokens, old(pos) + 1).Newline? ==> pos == old(pos) + 1
    {
      hide InStep;
      var t := AdvanceLine();
      op := BinOpOf(t.kind).value;
    }

    /** Where a loop that lets the tree grow stands after `n` growths. */
    twostate predicate Grew(want: Option<Want>, l: nat, n: nat, e: Expr)
      reads this
    {
      want.Some? ==>
        if Past(tokens, want.value, l, old(pos), n) then Weight(e) > Weight(want.value.tree)
        else n <= Depth(want.value.tree, l) && e == Spine(want.value.tree, l, n) &&
             pos == old(pos) + |Form(Grown(want.value, l, n), l)| && errors == old(errors)
    }

    ghost function Base(want: Option<Want>, l: nat): Option<Want> {
      if want.Some? then Some(Grown(want.value, l, 0)) else None
    }

    method ParsePipe(ghost want: Option<Want>) returns (e: Expr)
      requires Valid() && Hint(want, PIPE)
      modifies this
      ensures Moved() && Got(want, PIPE, e)
      decreases Left(), 13
    {
      hide InStep, Numbers, OnlyNewlines, OnlyLayout, Expects, Form, Depth, Spine, Printable, NameTokens, ListTokens, NameAt, ListAt, Spelled, Past, Beyond;
      ghost var n := 0;
      if want.Some? {
        GrowStart(tokens, want.value, PIPE, pos);
        BasePast(tokens, want.value, PIPE, pos);
      }
      e := ParseCoalesce(Base(want, PIPE));
      while current.kind == Operator("|")
        invariant Moved() && Grew(want, PIPE, n, e)
        decreases Left()
      {
        ghost var fn: Option<Name>, args: Option<seq<Expr>> := None, None;
        if want.Some? {
          PipeRound(tokens, want.value, old(pos), n);
          if n < Depth(want.value.tree, PIPE) {
            ghost var s := Spine(want.value.tree, PIPE, n + 1);
            fn, args := Some(s.fn.value), Some(s.args);
          }
        }
        e := ParsePipeStage(e, fn, args);
        n := n + 1;
      }
      if want.Some? { PipeRound(tokens, want.value, old(pos), n); }
    }

    /** One bar and what the value before it goes into. */
    method ParsePipeStage(input: Expr, ghost fn: Option<Name>, ghost args: Option<seq<Expr>>) returns (e: Expr)
      requires Valid() && current.kind == Operator("|")
      requires fn.Some? ==> args.Some? && Hinted() && NameAt(tokens, fn.value, pos + 1) && KindAt(tokens, pos + 1).Ident?
      requires fn.Some? ==> ArgsAt(tokens, args.value, pos + 1 + |NameTokens(fn.value)|)
      modifies this
      ensures Moved() && Weight(e) > Weight(input)
      ensures fn.Some? ==> e == Pipe(input, fn, args.value) && errors == old(errors)
      ensures fn.Some? ==> pos == old(pos) + |NameTokens(fn.value)| + 3 + |ListTokens(args.value)|
      decreases Left(), 13
    {
      hide InStep, Numbers, NameTokens, ListTokens, NameAt, ArgsAt;
      var _ := AdvanceLine();
      if current.kind.Ident? {
        var name, es := ParsePiped(fn, args);
        e := Pipe(input, Some(name), es);
      } else {
        var x := ParseCoalesce(None);
        e := Pipe(input, None, [x]);
      }
    }

    /** A name and, if there are any, the arguments besides the piped one. */
    method ParsePiped(ghost fn: Option<Name>, ghost args: Option<seq<Expr>>) returns (name: Name, es: seq<Expr>)
      requires Valid() && current.kind.Ident?
      requires fn.Some? ==> args.Some? && Hinted() && NameAt(tokens, fn.value, pos) && ArgsAt(tokens, args.value, pos + |NameTokens(fn.value)|)
      modifies this
      ensures Moved()
      ensures fn.Some? ==> name == fn.value && es == args.value && errors == old(errors)
      ensures fn.Some? ==> pos == old(pos) + |NameTokens(name)| + 2 + |ListTokens(es)|
      decreases Left(), 12
    {
      hide InStep, Numbers, NameTokens, ListTokens, NameAt, ListAt;
      name := ParseFunctionName(fn);
      es := [];
      if current.kind == Operator("(") {
        var _ := Advance();
        es := ParseArgList(if fn.Some? then args else None);
        var _ := Expect(Operator(")"));
      }
    }

    method ParseCoalesce(ghost want: Option<Want>) returns (e: Expr)
      requires Valid() && Hint(want, COALESCE)
      modifies this
      ensures Moved() && Got(want, COALESCE, e)
      decreases Left(), 12
    {
      hide InStep, Numbers, OnlyNewlines, OnlyLayout, Expects, Form, Depth, Spine, Printable, Past, Beyond;
      hide Coalesces, BinOpOf, OpLevel, Symbol;
      CoalesceTokens();
      ghost var n := 0;
      if want.Some? {
        GrowStart(tokens, want.value, COALESCE, pos);
        BasePast(tokens, want.value, COALESCE, pos);
      }
      e := ParseOr(Base(want, COALESCE));
      while Coalesces(current.kind)
        invariant Moved() && Grew(want, COALESCE, n, e)
        decreases Left()
      {
        SameOperator();
        if want.Some? { OperandRound(tokens, want.value, COALESCE, old(pos), n); }
        var op := TakeOperator();
        var right := ParseOr(Operand(want, COALESCE, n));
        e := Bin(op, e, right);
        n := n + 1;
      }
      SameOperator();
      if want.Some? { OperandRound(tokens, want.value, COALESCE, old(pos), n); }
    }

    method ParseOr(ghost want: Option<Want>) returns (e: Expr)
      requires Valid() && Hint(want, OR)
      modifies this
      ensures Moved() && Got(want, OR, e)
      decreases Left(), 11
    {
      hide InStep, Numbers, OnlyNewlines, OnlyLayout, Expects, Form, Depth, Spine, Printable, Past, Beyond;
      hide Disjoins, BinOpOf, OpLevel, Symbol;
      OrTokens();
      ghost var n := 0;
      if want.Some? {
        GrowStart(tokens, want.value, OR, pos);
        BasePast(tokens, want.value, OR, pos);
      }
      e := ParseAnd(Base(want, OR));
      while Disjoins(current.kind)
        invariant Moved() && Grew(want, OR, n, e)
        decreases Left()
      {
        SameOperator();
        if want.Some? { OperandRound(tokens, want.value, OR, old(pos), n); }
        var op := TakeOperator();
        var right := ParseAnd(Operand(want, OR, n));
        e := Bin(op, e, right);
        n := n + 1;
      }
      SameOperator();
      if want.Some? { OperandRound(tokens, want.value, OR, old(pos), n); }
    }

    method ParseAnd(ghost want: Option<Want>) returns (e: Expr)
      requires Valid() && Hint(want, AND)
      modifies this
      ensures Moved() && Got(want, AND, e)
      decreases Left(), 10
    {
      hide InStep, Numbers, OnlyNewlines, OnlyLayout, Expects, Form, Depth, Spine, Printable, Past, Beyond;
      hide Conjoins, BinOpOf, OpLevel, Symbol;
      AndTokens();
      ghost var n := 0;
      if want.Some? {
        GrowStart(tokens, want.value, AND, pos);
        BasePast(tokens, want.value, AND, pos);
      }
      e := ParseNot(Base(want, AND));
      while Conjoins(current.kind)
        invariant Moved() && Grew(want, AND, n, e)
        decreases Left()
      {
        SameOperator();
        if want.Some? { OperandRound(tokens, want.value, AND, old(pos), n); }
        var op := TakeOperator();
        var right := ParseNot(Operand(want, AND, n));
        e := Bin(op, e, right);
        n := n + 1;
      }
      SameOperator();
      if want.Some? { OperandRound(tokens, want.value, AND, old(pos), n); }
    }

    method ParseNot(ghost want: Option<Want>) returns (e: Expr)
      requires Valid() && Hint(want, NOT)
      modifies this
      ensures Moved() && Got(want, NOT, e)
      decreases Left(), 9
    {
      hide InStep, Numbers, OnlyNewlines, OnlyLayout, Expects, Form, Printable;
      if want.Some? { NotStep(tokens, want.value, pos); }
      if current.kind.Logic? && current.kind.connective.Negation? {
        var _ := Advance();
        var operand := ParseNot(OperandOf(want));
        e := Not(operand);
      } else {
        e := ParseComparison(want);
      }
    }

    method ParseComparison(ghost want: Option<Want>) returns (e: Expr)
      requires Valid() && Hint(want, COMPARE)
      modifies this
      ensures Moved() && Got(want, COMPARE, e)
      decreases Left(), 8
    {
      hide InStep, Numbers, OnlyNewlines, OnlyLayout, Expects, Form, Printable;
      hide Relates;
      CompareTokens();
      if want.Some? { CompareStep(tokens, want.value, pos); }
      e := ParseAddition(if want.Some? then Some(LeftOf(want.value)) else None);
      if Relates(current.kind) || current.kind == Keyword("in") {
        var op := TakeOperator();
        var right := ParseAddition(if want.Some? && Compares(want.value.tree) then Some(RightOf(want.value)) else None);
        e := Bin(op, e, right);
      }
    }

    method ParseAddition(ghost want: Option<Want>) returns (e: Expr)
      requires Valid() && Hint(want, ADD)
      modifies this
      ensures Moved() && Got(want, ADD, e)
      decreases Left(), 7
    {
      hide InStep, Numbers, OnlyNewlines, OnlyLayout, Expects, Form, Depth, Spine, Printable, Past, Beyond;
      hide Sums, BinOpOf, OpLevel, Symbol;
      AddTokens();
      ghost var n := 0;
      if want.Some? {
        GrowStart(tokens, want.value, ADD, pos);
        BasePast(tokens, want.value, ADD, pos);
      }
      e := ParseMultiply(Base(want, ADD));
      while Sums(current.kind)
        invariant Moved() && Grew(want, ADD, n, e)
        decreases Left()
      {
        SameOperator();
        if want.Some? { OperandRound(tokens, want.value, ADD, old(pos), n); }
        var op := TakeOperator();
        var right := ParseMultiply(Operand(want, ADD, n));
        e := Bin(op, e, right);
        n := n + 1;
      }
      SameOperator();
      if want.Some? { OperandRound(tokens, want.value, ADD, old(pos), n); }
    }

    method ParseMultiply(ghost want: Option<Want>) returns (e: Expr)
      requires Valid() && Hint(want, MULTIPLY)
      modifies this
      ensures Moved() && Got(want, MULTIPLY, e)
      decreases Left(), 6
    {
      hide InStep, Numbers, OnlyNewlines, OnlyLayout, Expects, Form, Depth, Spine, Printable, Past, Beyond;
      hide Multiplies, BinOpOf, OpLevel, Symbol;
      MultiplyTokens();
      ghost var n := 0;
      if want.Some? {
        GrowStart(tokens, want.value, MULTIPLY, pos);
        BasePast(tokens, want.value, MULTIPLY, pos);
      }
      e := ParseUnary(Base(want, MULTIPLY));
      while Multiplies(current.kind)
        invariant Moved() && Grew(want, MULTIPLY, n, e)
        decreases Left()
      {
        SameOperator();
        if want.Some? { OperandRound(tokens, want.value, MULTIPLY, old(pos), n); }
        var op := TakeOperator();
        var right := ParseUnary(Operand(want, MULTIPLY, n));
        e := Bin(op, e, right);
        n := n + 1;
      }
      SameOperator();
      if want.Some? { OperandRound(tokens, want.value, MULTIPLY, old(pos), n); }
    }

    method ParseUnary(ghost want: Option<Want>) returns (e: Expr)
      requires Valid() && Hint(want, NEG)
      modifies this
      ensures Moved() && Got(want, NEG, e)
      decreases Left(), 5
    {
      hide InStep, Numbers, OnlyNewlines, OnlyLayout, Expects, Form, Printable;
      if want.Some? { UnaryStep(tokens, want.value, pos); }
      if current.kind == Operator("-") {
        var _ := Advance();
        var operand := ParseUnary(OperandOf(want));
        e := Neg(operand);
      } else if current.kind == Logic(Negation, false) {
        var _ := Advance();
        var operand := ParseUnary(None);
        e := Not(operand);
      } else {
        e := ParsePostfix(want);
      }
    }

    method ParsePostfix(ghost want: Option<Want>) returns (e: Expr)
      requires Valid() && Hint(want, POSTFIX)
      modifies this
      ensures Moved() && Got(want, POSTFIX, e)
      decreases Left(), 4
    {
      hide InStep, Numbers, OnlyNewlines, OnlyLayout, Expects, Form, Depth, Spine, Printable, Enclosed, AccessNext, Past, Beyond;
      ghost var n := 0;
      if want.Some? {
        GrowStart(tokens, want.value, POSTFIX, pos);
        BasePast(tokens, want.value, POSTFIX, pos);
      }
      e := ParsePrimary(Base(want, POSTFIX));
      while true
        invariant Moved() && Grew(want, POSTFIX, n, e)
        decreases Left()
      {
        ghost var exact := false;
        if want.Some? && Past(tokens, want.value, POSTFIX, old(pos), n) {
          PastMore(tokens, want.value, POSTFIX, old(pos), n);
        } else if want.Some? {
          AccessStep(tokens, want.value, old(pos), n);
          exact := n < Depth(want.value.tree, POSTFIX);
        }
        if !(Access(current.kind) || (current.kind == Operator("(") && e.Var?)) {
          return;
        }
        e := ParseAccess(e, if exact then want else None, n);
        n := n + 1;
      }
    }

    /** One growth by a field, an index or the arguments of a name. */
    method ParseAccess(e: Expr, ghost want: Option<Want>, ghost n: nat) returns (next: Expr)
      requires Valid() && (Access(current.kind) || (current.kind == Operator("(") && e.Var?))
      requires want.Some? ==>
        && Hinted() && Access(current.kind) && AccessNext(tokens, want.value, n, pos)
        && n < Depth(want.value.tree, POSTFIX) && e == Spine(want.value.tree, POSTFIX, n)
      modifies this
      ensures Moved() && Weight(next) > Weight(e)
      ensures want.Some? ==>
        && next == Spine(want.value.tree, POSTFIX, n + 1) && errors == old(errors)
        && pos == old(pos) + |Form(Grown(want.value, POSTFIX, n + 1), POSTFIX)| - |Form(Grown(want.value, POSTFIX, n), POSTFIX)|
      decreases Left(), 3
    {
      hide InStep, Numbers, OnlyNewlines, OnlyLayout, Expects, Form, Depth, Spine, Printable, Enclosed;
      if current.kind == Operator(".") || current.kind == Operator("?.") {
        var optional := current.kind == Operator("?.");
        var field := ParseField();
        next := Field(e, field, optional);
      } else if current.kind == Operator("[") {
        var index := ParseIndex(IndexTree(want, n));
        next := Index(e, index);
      } else {
        var args := TakeArguments();
        next := Call(e.name, args);
      }
    }

    /** Arguments in parentheses. */
    method TakeArguments() returns (args: seq<Expr>)
      requires Valid() && current.kind == Operator("(")
      modifies this
      ensures Moved()
      decreases Left(), 2
    {
      var _ := Advance();
      args := ParseArgList(None);
      var _ := Expect(Operator(")"));
    }

    method ParseField() returns (field: string)
      requires Valid()
      modifies this
      ensures Moved()
      ensures KindAt(tokens, old(pos) + 1).Ident? ==> field == tokens[old(pos) + 1].val && pos == old(pos) + 2 && errors == old(errors)
    {
      var _ := Advance();
      var t := Expect(Ident);
      field := t.val;
    }

    method ParseIndex(ghost i: Option<Expr>) returns (index: Expr)
      requires Valid() && current.kind == Operator("[")
      requires i.Some? ==> Hinted() && Enclosed(tokens, i.value, pos + 1, Operator("]"))
      modifies this
      ensures Moved()
      ensures i.Some? ==> index == i.value && pos == old(pos) + 2 + |Form(Whole(i.value), PIPE)| && errors == old(errors)
      decreases Left(), 2
    {
      hide InStep, Numbers, Expects, Form, Enclosed;
      if i.Some? { EnclosedStops(tokens, i.value, pos + 1, Operator("]")); }
      var _ := Advance();
      index := ParseExpr(WholeOf(i));
      var _ := Expect(Operator("]"));
    }

    // ----- primary expressions -----

    method ParsePrimary(ghost want: Option<Want>) returns (e: Expr)
      requires Valid() && Hint(want, PRIMARY)
      modifies this
      ensures Moved() && Got(want, PRIMARY, e)
      ensures LitKind(old(current).kind) && Numbers() ==>
        e == Lit(old(current).kind, old(current).val) && pos == old(pos) + 1 && errors == old(errors)
      decreases Left(), 3
    {
      hide InStep, OnlyNewlines, OnlyLayout, Expects, Form, Printable, Raw, Beyond, Swallows, OpenAt;
      if want.Some? && want.value.over && !want.value.bare { OverName(tokens, want.value, pos); }
      if want.Some? { PrimaryBeyond(tokens, want.value, pos); }
      if current.kind in {Int, Float, String, Keyword("true"), Keyword("false"), Keyword("null")} {
        if want.Some? { LitCase(tokens, want.value, pos); }
        e := ParseLiteral();
      } else if OpensBracket(current.kind) {
        if want.Some? { BracketCase(tokens, want.value, pos); }
        e := ParseBracketed(want);
      } else if current.kind.Ident? {
        e := ParseNamed(want);
      } else if current.kind == Operator("(") {
        e := ParseGroupOrLambda(want);
      } else if OpensTree(current.kind) {
        if want.Some? { OpenCase(tokens, want.value, pos); }
        e := ParseOpen(want);
      } else if current.kind == Keyword("fn") {
        if want.Some? { PrimaryLeads(tokens, want.value, pos); }
        e := ParseFnLambda(None, None);
      } else {
        if want.Some? { PrimaryLeads(tokens, want.value, pos); }
        AddError();
        var _ := Advance();
        e := NULL;
      }
    }

    /** A name begins a lambda if an arrow stands behind it, and a variable or a call if not. */
    method ParseNamed(ghost want: Option<Want>) returns (e: Expr)
      requires Valid() && current.kind.Ident? && Hint(want, PRIMARY)
      requires want.Some? && want.value.over && !want.value.bare ==>
        want.value.tree.Var? && PlainName(want.value.tree.name) && Scopes(tokens, pos + 1)
      modifies this
      ensures Moved() && Got(want, PRIMARY, e)
      decreases Left(), 2, 1
    {
      hide InStep, Numbers, Expects, Form, Printable, Raw, Beyond, Swallows, OpenAt;
      if want.Some? { PrimaryBeyond(tokens, want.value, pos); }
      if want.Some? && (want.value.over ==> want.value.bare) { NameCase(tokens, want.value, pos); }
      NextKind();
      if !inPattern && KindAt(input, pos + 1) == Operator("=>") {
        e := ParseBareLambda(want);
      } else {
        e := ParseIdentOrCall(want);
      }
    }

    /** The trees between two brackets or quotes. */
    method ParseBracketed(ghost want: Option<Want>) returns (e: Expr)
      requires Valid() && OpensBracket(current.kind) && Hint(want, PRIMARY)
      requires want.Some? ==> Plain(tokens, want.value, pos) && BracketedBy(want.value.tree, current.kind)
      modifies this
      ensures Moved() && Got(want, PRIMARY, e)
      decreases Left(), 2, 1
    {
      hide InStep, Numbers, Expects, Form, Beyond;
      if current.kind.StringStart? {
        e := ParseInterpolatedString(want);
      } else if current.kind == Operator("[") {
        e := ParseArray(want);
      } else if current.kind == Operator("{") {
        e := ParseObject(want);
      } else {
        e := ParseQuery(want);
      }
    }

    /** The trees that begin with a word and reach as far as they can. */
    method ParseOpen(ghost want: Option<Want>) returns (e: Expr)
      requires Valid() && OpensTree(current.kind) && OpenHint(want) && (want.Some? ==> OpenedBy(want.value.tree, current.kind))
      modifies this
      ensures Moved() && GotOpen(want, e)
      decreases Left(), 2, 1
    {
      hide InStep, Numbers, OnlyNewlines, OnlyLayout, Expects, Form, Printable, Raw, Swallows, OpenAt;
      if current.kind == Keyword("if") {
        e := ParseIf(want);
      } else if current.kind == Keyword("match") {
        e := ParseMatch(want);
      } else if current.kind == Keyword("try") {
        e := ParseTry(want);
      } else if current.kind == Keyword("for") {
        if want.Some? { ForStep(tokens, want.value, pos); }
        e := ParseFor(want, IterableOf(want), None, Layout(0, []));
      } else {
        e := ParseRaise(want);
      }
    }

    method ParseLiteral() returns (e: Expr)
      requires Valid() && LitKind(current.kind)
      modifies this
      ensures Moved() && pos == old(pos) + 1
      ensures Numbers() ==> e == Lit(old(current).kind, old(current).val) && errors == old(errors)
    {
      if current.kind.Int? || current.kind.Float? {
        e := ParseNumber();
      } else {
        var t := Advance();
        e := Lit(t.kind, t.val);
      }
    }

    /** Zero in the place of a number too large for the host. */
    method ParseNumber() returns (e: Expr)
      requires Valid()
      modifies this
      ensures Moved() && pos == old(pos) + 1
      ensures if converts(old(current).val) then e == Lit(old(current).kind, old(current).val) && errors == old(errors)
              else e == Lit(old(current).kind, "0") && |errors| == |old(errors)| + 1
    {
      var t := Advance();
      if converts(t.val) {
        e := Lit(t.kind, t.val);
      } else {
        AddError();
        e := Lit(t.kind, "0");
      }
    }

    /** The parts `done` are behind, the others are spelled from here up to `end`. */
    twostate predicate Parted(ps: Option<seq<Expr>>, done: seq<Expr>, end: int)
      reads this
    {
      ps.Some? ==>
        && |done| <= |ps.value| && done == ps.value[..|done|] && errors == old(errors) && Hinted()
        && PartsAt(tokens, ps.value[|done|..], pos) && pos + |PartTokens(ps.value[|done|..])| == end
    }

    method ParseInterpolatedString(ghost want: Option<Want>) returns (e: Expr)
      requires Valid() && current.kind.StringStart? && Hint(want, PRIMARY)
      requires want.Some? ==> Plain(tokens, want.value, pos) && want.value.tree.Interpolated?
      modifies this
      ensures Moved() && Got(want, PRIMARY, e)
      decreases Left(), 2, 0
    {
      hide InStep, Numbers, Expects, Form, PartTokens, PartsAt;
      ghost var ps: Option<seq<Expr>>, end := None, 0;
      if want.Some? {
        InterpolatedParts(tokens, want.value, pos);
        ps, end := Some(want.value.tree.parts), pos + 1 + |PartTokens(want.value.tree.parts)|;
        assert ps.value[0..] == ps.value;
      }
      var start := Advance();
      var parts := if start.val == "" then [] else [Lit(String, start.val)];
      parts := TakeTextAndHoles(parts, ps, end);
      if current.kind.StringEnd? {
        var t := Advance();
        if t.val != "" {
          parts := parts + [Lit(String, t.val)];
        }
      }
      e := Interpolated(parts);
    }

    /** Pieces of text and embedded expressions, up to the end of the string. */
    method TakeTextAndHoles(start: seq<Expr>, ghost ps: Option<seq<Expr>>, ghost end: int) returns (parts: seq<Expr>)
      requires Valid() && (ps.Some? ==> start == [] && Hinted() && PartsAt(tokens, ps.value, pos) && pos + |PartTokens(ps.value)| == end)
      modifies this
      ensures Stayed()
      ensures ps.Some? ==> parts == ps.value && pos == end && errors == old(errors) && current.kind.StringEnd?
      decreases Left(), 16
    {
      hide InStep, Numbers, Expects, Form, PartTokens, PartsAt;
      parts := start;
      if ps.Some? { assert ps.value[0..] == ps.value; }
      while !current.kind.StringEnd? && !current.kind.EOF?
        invariant Stayed() && Parted(ps, parts, end)
        decreases Left()
      {
        ghost var rest := if ps.Some? then ps.value[|parts|..] else [];
        if ps.Some? {
          PartsHere(tokens, rest, pos);
          PartStep(tokens, rest, pos);
          assert rest[1..] == ps.value[|parts| + 1..];
        }
        if current.kind.InterpStart? {
          var _ := Advance();
          var x := ParseExpr(if ps.Some? then Some(Whole(rest[0])) else None);
          parts := parts + [x];
          if current.kind.InterpEnd? {
            var _ := Advance();
          }
        } else if current.kind.StringPart? {
          var t := Advance();
          if t.val != "" {
            parts := parts + [Lit(String, t.val)];
          }
        } else {
          break;
        }
      }
      if ps.Some? {
        PartsHere(tokens, ps.value[|parts|..], pos);
        NoParts(ps.value[|parts|..]);
        assert parts == ps.value;
      }
    }

    // ----- names and calls -----

    /** A name with its scope and segments; a colon that starts no scope is left alone. */
    method ParseFunctionName(ghost want: Option<Name>) returns (name: Name)
      requires Valid() && current.kind.Ident?
      requires want.Some? ==> NameAt(tokens, want.value, pos)
      modifies this
      ensures Moved()
      ensures want.Some? ==> name == want.value && pos == old(pos) + |NameTokens(want.value)| && errors == old(errors)
      ensures Scopes(tokens, old(pos) + 1) <==> name.scope.Some?
      decreases Left(), 2
    {
      hide InStep, Numbers, NameTokens, NameAt, SegsAt, SegTokens, Spelled;
      if want.Some? { NameStep(tokens, want.value, pos); }
      ghost var end := if want.Some? then pos + |NameTokens(want.value)| else 0;
      var head := Advance();
      var scope := ParseScope();
      var rest: seq<string> := [];
      while current.kind == Operator("::")
        invariant Moved()
        invariant want.Some? ==> SegmentsLeft(want.value, rest, end) && errors == old(errors)
        invariant want.Some? ==> head.val == want.value.head && scope == want.value.scope
        decreases Left()
      {
        if want.Some? { SegStep(tokens, want.value.rest[|rest|..], pos); }
        var _ := Advance();
        if current.kind.Ident? || current.kind == Keyword("query") {
          var t := Advance();
          rest := rest + [t.val];
        } else {
          var _ := Expect(Ident);
          break;
        }
      }
      if want.Some? { SegStep(tokens, want.value.rest[|rest|..], pos); }
      name := Name(head.val, scope, rest);
    }

    /** A colon and a name, if a double colon follows them; otherwise nothing is taken. */
    method ParseScope() returns (scope: Option<string>)
      requires Valid()
      modifies this
      ensures Stayed() && errors == old(errors)
      ensures if Scopes(tokens, old(pos)) then scope == Some(tokens[old(pos) + 1].val) && pos == old(pos) + 2
              else scope == None && pos == old(pos)
    {
      scope := None;
      if current.kind == Operator(":") {
        var savedPos, savedCurrent := pos, current;
        var _ := Advance();
        if current.kind.Ident? {
          var t := Advance();
          if current.kind == Operator("::") {
            scope := Some(t.val);
          } else {
            pos, current := savedPos, savedCurrent;
          }
        } else {
          pos, current := savedPos, savedCurrent;
        }
      }
    }

    ghost predicate SegmentsLeft(n: Name, rest: seq<string>, end: nat)
      reads this
    {
      |rest| <= |n.rest| && rest == n.rest[..|rest|] && SegsAt(tokens, n.rest[|rest|..], pos) &&
      pos + |SegTokens(n.rest[|rest|..])| == end
    }

    method ParseIdentOrCall(ghost want: Option<Want>) returns (e: Expr)
      requires Valid() && current.kind.Ident?
      requires want.Some? ==> Hinted() && Expects(tokens, want.value, PRIMARY, pos)
      requires want.Some? ==>
        if want.value.over then want.value.tree.Var? && PlainName(want.value.tree.name) && Scopes(tokens, pos + 1)
        else Plain(tokens, want.value, pos) && (want.value.tree.Var? || want.value.tree.Call?)
      modifies this
      ensures Moved() && Got(want, PRIMARY, e)
      decreases Left(), 2, 0
    {
      hide InStep, Numbers, OnlyNewlines, OnlyLayout, Expects, Form, NameTokens, NameAt, ListTokens, ListAt;
      ghost var n: Option<Name>, es: Option<seq<Expr>> := None, None;
      if want.Some? && !want.value.over {
        if want.value.tree.Var? {
          VarParts(tokens, want.value, pos);
          n := Some(want.value.tree.name);
        } else {
          CallTree(tokens, want.value, pos);
          n, es := Some(want.value.tree.callee), Some(want.value.tree.args);
        }
      }
      var name := ParseFunctionName(n);
      if current.kind == Operator("(") {
        var _ := Advance();
        var args := ParseArgList(es);
        var _ := Expect(Operator(")"));
        e := if name == Name("dataset", None, ["query"]) && |args| == 1 then Query(args[0]) else Call(name, args);
      } else {
        e := Var(name);
      }
    }

    ghost predicate ListHint(es: Option<seq<Expr>>, close: TokenType)
      reads this
    {
      es.Some? ==> Hinted() && ListAt(tokens, es.value, pos, close)
    }

    /** The elements `done` are behind, the others are spelled from here up to `end`. */
    twostate predicate Listed(es: Option<seq<Expr>>, done: seq<Expr>, end: int, close: TokenType)
      reads this
    {
      es.Some? ==>
        && |done| <= |es.value| && done == es.value[..|done|] && errors == old(errors) && Hinted()
        && ListAt(tokens, es.value[|done|..], pos, close) && pos + |ListTokens(es.value[|done|..])| == end
    }

    method ParseArgList(ghost es: Option<seq<Expr>>) returns (args: seq<Expr>)
      requires Valid() && ListHint(es, Operator(")"))
      modifies this
      ensures Stayed()
      ensures es.Some? ==> args == es.value && pos == old(pos) + |ListTokens(es.value)| && errors == old(errors)
      ensures es.Some? ==> current.kind == Operator(")")
      decreases Left(), 16
    {
      hide InStep, Numbers, OnlyNewlines, OnlyLayout, Expects, Form, ListTokens, ListAt, IsOp, Closer;
      args := [];
      ghost var end := if es.Some? then pos + |ListTokens(es.value)| else 0;
      if es.Some? { Brackets(); ListBegins(tokens, es.value, pos, Operator(")")); }
      SkipLayout();
      if current.kind == Operator(")") {
        return;
      }
      assert Listed(es, args, end, Operator(")")) by { if es.Some? { assert es.value[0..] == es.value; } }
      while true
        invariant Stayed() && Listed(es, args, end, Operator(")"))
        invariant es.Some? ==> |args| < |es.value|
        decreases Left()
      {
        if es.Some? { Brackets(); ElementStep(tokens, es.value, |args|, pos, Operator(")")); }
        SkipLayout();
        var arg := ParseArg(Element(es, |args|));
        args := args + [arg];
        SkipLayout();
        if current.kind != Operator(",") {
          break;
        }
        var _ := Advance();
      }
    }

    method ParseArg(ghost x: Option<Want>) returns (arg: Expr)
      requires Valid() && (x.Some? ==> Hinted() && Reads(tokens, x.value, pos))
      modifies this
      ensures Moved() && Received(x, arg)
      decreases Left(), 15
    {
      hide InStep, Numbers, Expects, Form;
      if Relates(current.kind) {
        arg := ParseImplicitLambda(None);
      } else {
        arg := ParseExpr(x);
      }
    }

    /** A comparison without its left side is a function of that side. */
    method ParseImplicitLambda(ghost x: Option<Want>) returns (e: Expr)
      requires Valid() && Relates(current.kind) && (x.Some? ==> Hinted() && Reads(tokens, x.value, pos + 1))
      modifies this
      ensures Moved()
      ensures e.Lambda? && e.params == [IMPLICIT] && e.body.Bin? && Some(e.body.op) == BinOpOf(old(current).kind)
      ensures e.body.left == Var(Name(IMPLICIT, None, []))
      ensures x.Some? && !x.value.over ==>
        e.body.right == x.value.tree && pos == old(pos) + 1 + |Form(x.value, PIPE)| && errors == old(errors)
      decreases Left(), 14
    {
      hide InStep, Numbers, OnlyNewlines, OnlyLayout, Expects, Form;
      var op := Advance();
      SkipLayout();
      var right := ParseExpr(x);
      e := Lambda([IMPLICIT], Bin(BinOpOf(op.kind).value, Var(Name(IMPLICIT, None, [])), right));
    }

    // ----- lambdas and groups -----

    /** The open tree is the one that was wanted, and the parser stands behind it and the
        newlines it takes; or its last part says more. */
    twostate predicate GotOpen(want: Option<Want>, e: Expr)
      reads this
    {
      want.Some? ==>
        if want.value.over && !Swallows(want.value.tree) then Weight(e) > Weight(want.value.tree)
        else e == want.value.tree && pos == old(pos) + |Form(want.value, PIPE)| && errors == old(errors)
    }

    ghost predicate OpenHint(want: Option<Want>)
      reads this
    {
      want.Some? ==> Hinted() && OpenAt(tokens, want.value, pos)
    }

    method ParseBareLambda(ghost want: Option<Want>) returns (e: Expr)
      requires Valid() && current.kind.Ident? && KindAt(tokens, pos + 1) == Operator("=>")
      requires OpenHint(want) && (want.Some? ==> want.value.tree.Lambda? && |want.value.tree.params| == 1)
      modifies this
      ensures Moved() && GotOpen(want, e)
      decreases Left(), 2, 0
    {
      hide InStep, Numbers, OnlyNewlines, OnlyLayout, Expects, Form, Raw, OpenAt, Printable, Tail, Words;
      ghost var b: Option<Want> := None;
      if want.Some? {
        BareParts(tokens, want.value, pos);
        b := Some(Tail(want.value.tree.body, want.value));
        TailLines(tokens, want.value, pos, want.value.tree.body);
        TailBare(want.value.tree.body, want.value);
        NoLayoutBefore(tokens, b.value, PIPE, pos + 2);
      }
      var param := Advance();
      var body := ParseArrow(b);
      e := Lambda([param.val], body);
    }

    /** The arrow and the body, which may begin on another line. */
    method ParseArrow(ghost b: Option<Want>) returns (body: Expr)
      requires Valid() && current.kind == Operator("=>")
      requires b.Some? ==> Hinted() && Reads(tokens, b.value, pos + 1)
      modifies this
      ensures Moved()
      ensures b.Some? ==>
        if b.value.over then Weight(body) > Weight(b.value.tree)
        else body == b.value.tree && pos == old(pos) + 1 + |Form(b.value, PIPE)| && errors == old(errors)
      decreases Left(), 1
    {
      hide InStep, Numbers, OnlyNewlines, OnlyLayout, Expects, Form;
      var _ := Advance();
      SkipLayout();
      body := ParseExpr(b);
    }

    /** Names separated by commas, as far as there are any; whether the list ended with one. */
    method TakeNames(ghost ps: Option<seq<string>>) returns (names: seq<string>, complete: bool)
      requires Valid()
      requires ps.Some? ==> ps.value != [] && ParamsAt(tokens, ps.value, pos)
      modifies this
      ensures Valid() && pos >= old(pos) && errors == old(errors) && inPattern == old(inPattern)
      ensures complete ==> names != [] && pos == old(pos) + 2 * |names| - 1
      ensures ps.Some? ==> complete && names == ps.value && pos == old(pos) + |ParamTokens(ps.value)| && current.kind == Operator(")")
      ensures old(current).kind.Ident? && KindAt(tokens, old(pos) + 1) != Operator(",") ==> pos == old(pos) + 1
      ensures !old(current).kind.Ident? ==> !complete
    {
      hide InStep, ParamTokens, ParamsAt;
      names, complete := [], true;
      ghost var end := if ps.Some? then pos + |ParamTokens(ps.value)| else 0;
      assert ps.Some? ==> ps.value[0..] == ps.value;
      while true
        invariant Valid() && complete && errors == old(errors) && inPattern == old(inPattern) && pos == old(pos) + 2 * |names|
        invariant ps.Some? ==> |names| < |ps.value| && names == ps.value[..|names|]
        invariant ps.Some? ==> ParamsAt(tokens, ps.value[|names|..], pos) && pos + |ParamTokens(ps.value[|names|..])| == end
        invariant names != [] ==> old(current).kind.Ident? && KindAt(tokens, old(pos) + 1) == Operator(",")
        decreases Left()
      {
        if ps.Some? {
          ParamStep(tokens, ps.value[|names|..], pos);
          assert ps.value[|names|..][1..] == ps.value[|names| + 1..];
        }
        if !current.kind.Ident? {
          complete := false;
          break;
        }
        var t := Advance();
        names := names + [t.val];
        if current.kind == Operator(",") {
          var _ := Advance();
          continue;
        }
        break;
      }
    }

    /** Parentheses hold the parameters of a lambda, or an expression; to find out, names are
        taken on trial and put back. */
    method ParseGroupOrLambda(ghost want: Option<Want>) returns (e: Expr)
      requires Valid() && current.kind == Operator("(") && Hint(want, PRIMARY)
      requires want.Some? && want.value.over ==> want.value.bare
      modifies this
      ensures Moved() && Got(want, PRIMARY, e)
      decreases Left(), 2
    {
      hide InStep, Numbers, OnlyNewlines, OnlyLayout, Expects, Form, Raw, OpenAt, Printable, ParamTokens, ParamsAt, Tail, Words, Swallows, Beyond;
      ghost var ps: Option<seq<string>>, b: Option<Want>, g: Option<Want> := None, None, None;
      if want.Some? {
        GroupStep(tokens, want.value, pos);
        PrimaryBeyond(tokens, want.value, pos);
        if want.value.bare {
          ps, b := Some(want.value.tree.params), Some(Tail(want.value.tree.body, want.value));
          LambdaTail(tokens, want.value, pos);
        } else {
          g := Some(Whole(want.value.tree));
        }
      }
      var _ := Advance();
      if current.kind == Operator(")") {
        var _ := Advance();
        if current.kind == Operator("=>") {
          var body := ParseArrow(b);
          return Lambda([], body);
        }
        return NULL;
      }
      var lambda := TryLambda(ps, b);
      if lambda.Some? {
        return lambda.value;
      }
      e := ParseExpr(g);
      var _ := Expect(Operator(")"));
    }

    /** The trial: a lambda, or a single name in parentheses; otherwise all is as it was. */
    method TryLambda(ghost ps: Option<seq<string>>, ghost b: Option<Want>) returns (r: Option<Expr>)
      requires Valid()
      requires ps.Some? ==> b.Some? && Hinted() && ps.value != [] && ParamsAt(tokens, ps.value, pos)
      requires ps.Some? ==> var q := pos + |ParamTokens(ps.value)|; KindAt(tokens, q + 1) == Operator("=>") && Reads(tokens, b.value, q + 2)
      modifies this
      ensures Stayed() && (r.None? ==> pos == old(pos) && errors == old(errors))
      ensures ps.Some? && !b.value.over ==> r == Some(Lambda(ps.value, b.value.tree)) && errors == old(errors)
      ensures ps.Some? && !b.value.over ==> pos == old(pos) + |ParamTokens(ps.value)| + 2 + |Form(b.value, PIPE)|
      ensures ps.Some? && b.value.over ==> r.Some? && r.value.Lambda? && Weight(r.value.body) > Weight(b.value.tree)
      ensures (old(current).kind.Ident? ==> NoList(KindAt(tokens, old(pos) + 1))) ==> r.None?
      decreases Left(), 15
    {
      hide InStep, Numbers, OnlyNewlines, OnlyLayout, Expects, Form, ParamTokens, ParamsAt;
      var savedPos, savedCurrent, savedErrors := pos, current, |errors|;
      var names, isLambda := TakeNames(ps);
      if isLambda && current.kind == Operator(")") {
        var _ := Advance();
        if current.kind == Operator("=>") {
          var body := ParseArrow(if ps.Some? then b else None);
          return Some(Lambda(names, body));
        }
        if |names| == 1 {
          return Some(Var(Name(names[0], None, [])));
        }
      }
      assert errors[..savedErrors] == errors;
      pos, current, errors := savedPos, savedCurrent, errors[..savedErrors];
      r := None;
    }

    /** The keyword form, with any number of parameters. */
    method ParseFnLambda(ghost ps: Option<seq<string>>, ghost b: Option<Want>) returns (e: Expr)
      requires Valid() && current.kind == Keyword("fn")
      requires ps.Some? ==> Hinted() && b.Some? && !b.value.over && KindAt(tokens, pos + 1) == Operator("(") && ParamsAt(tokens, ps.value, pos + 2)
      requires ps.Some? ==> var q := pos + 2 + |ParamTokens(ps.value)|; KindAt(tokens, q + 1) == Operator("=>") && Reads(tokens, b.value, q + 2)
      modifies this
      ensures Moved() && e.Lambda?
      ensures ps.Some? ==>
        && e == Lambda(ps.value, b.value.tree) && errors == old(errors)
        && pos == old(pos) + 4 + |ParamTokens(ps.value)| + |Form(b.value, PIPE)|
      decreases Left(), 2
    {
      hide InStep, Numbers, OnlyNewlines, OnlyLayout, Expects, Form, ParamTokens, ParamsAt;
      var params := TakeFnParams(ps);
      var _ := Expect(Operator("=>"));
      var body := ParseLambdaBody(if ps.Some? then b else None);
      e := Lambda(params, body);
    }

    /** The word, and the parameters in parentheses. */
    method TakeFnParams(ghost ps: Option<seq<string>>) returns (params: seq<string>)
      requires Valid() && current.kind == Keyword("fn")
      requires ps.Some? ==> KindAt(tokens, pos + 1) == Operator("(") && ParamsAt(tokens, ps.value, pos + 2)
      modifies this
      ensures Moved()
      ensures ps.Some? ==> params == ps.value && pos == old(pos) + 3 + |ParamTokens(ps.value)| && errors == old(errors)
    {
      hide InStep, ParamTokens, ParamsAt;
      var _ := Advance();
      var _ := Expect(Operator("("));
      params := TakeParams(ps);
      var _ := Expect(Operator(")"));
    }

    method ParseLambdaBody(ghost b: Option<Want>) returns (body: Expr)
      requires Valid() && (b.Some? ==> Hinted() && Reads(tokens, b.value, pos))
      modifies this
      ensures Moved() && Received(b, body)
      decreases Left(), 15
    {
      hide InStep, Numbers, OnlyLayout, Expects, Form;
      SkipLayout();
      body := ParseExpr(b);
    }

    method TakeParams(ghost ps: Option<seq<string>>) returns (params: seq<string>)
      requires Valid() && (ps.Some? ==> ParamsAt(tokens, ps.value, pos))
      modifies this
      ensures Stayed() && errors == old(errors)
      ensures ps.Some? ==> params == ps.value && pos == old(pos) + |ParamTokens(ps.value)| && current.kind == Operator(")")
    {
      hide InStep, ParamTokens, ParamsAt;
      params := [];
      ghost var end := if ps.Some? then pos + |ParamTokens(ps.value)| else 0;
      if ps.Some? {
        assert ps.value[0..] == ps.value;
        ParamStep(tokens, ps.value, pos);
      }
      while current.kind.Ident?
        invariant Stayed() && errors == old(errors)
        invariant ps.Some? ==> |params| <= |ps.value| && params == ps.value[..|params|]
        invariant ps.Some? ==> if ps.value == [] then pos == end && current.kind == Operator(")")
          else |params| < |ps.value| && ParamsAt(tokens, ps.value[|params|..], pos) && pos + |ParamTokens(ps.value[|params|..])| == end
        decreases Left()
      {
        if ps.Some? {
          ParamStep(tokens, ps.value[|params|..], pos);
          assert ps.value[|params|..][1..] == ps.value[|params| + 1..];
        }
        var t := Advance();
        params := params + [t.val];
        if current.kind == Operator(",") {
          var _ := Advance();
          continue;
        }
        return;
      }
      if ps.Some? && ps.value != [] { ParamStep(tokens, ps.value[|params|..], pos); }
    }

    // ----- arrays, objects, queries -----

    method ParseArray(ghost want: Option<Want>) returns (e: Expr)
      requires Valid() && current.kind == Operator("[") && Hint(want, PRIMARY)
      requires want.Some? ==> Plain(tokens, want.value, pos) && want.value.tree.Array?
      modifies this
      ensures Moved() && Got(want, PRIMARY, e)
      decreases Left(), 2, 0
    {
      hide InStep, Numbers, Expects, Form, ListTokens, ListAt;
      ghost var es: Option<seq<Expr>> := None;
      if want.Some? {
        ArrayParts(tokens, want.value, pos);
        es := Some(want.value.tree.elems);
      }
      var _ := Advance();
      var elems := ParseElements(es, Operator("]"));
      var _ := Expect(Operator("]"));
      e := Array(elems);
    }

    /** Elements separated by commas; `after` is the token behind the last one, the bracket or
        a comma in front of it, which is taken too. */
    method ParseElements(ghost es: Option<seq<Expr>>, ghost after: TokenType) returns (elems: seq<Expr>)
      requires Valid() && ListHint(es, after) && after in {Operator("]"), Operator(",")}
      requires es.Some? && after == Operator(",") ==> es.value != [] && KindAt(tokens, pos + |ListTokens(es.value)| + 1) == Operator("]")
      modifies this
      ensures Stayed()
      ensures es.Some? ==> elems == es.value && errors == old(errors) && current.kind == Operator("]")
      ensures es.Some? ==> pos == old(pos) + |ListTokens(es.value)| + if after == Operator(",") then 1 else 0
      decreases Left(), 15
    {
      hide InStep, Numbers, OnlyNewlines, OnlyLayout, Expects, Form, ListTokens, ListAt, IsOp, Closer;
      ghost var end := if es.Some? then pos + |ListTokens(es.value)| else 0;
      ghost var more := after == Operator(",");
      Brackets();
      CommaCloses();
      if es.Some? {
        ListBegins(tokens, es.value, pos, after);
        assert es.value[0..] == es.value;
      }
      SkipLayout();
      elems := [];
      while current.kind != Operator("]") && !current.kind.EOF?
        invariant Stayed()
        invariant es.Some? && |elems| < |es.value| ==> Proper(KindAt(tokens, pos)) && Listed(es, elems, end, after)
        invariant es.Some? && |elems| >= |es.value| ==> Read(es, elems, end, more)
        decreases Left()
      {
        if es.Some? { ElementStep(tokens, es.value, |elems|, pos, after); }
        var elem := ParseExpr(Element(es, |elems|));
        elems := elems + [elem];
        SkipLayout();
        if current.kind == Operator(",") {
          var _ := Advance();
          SkipLayout();
        } else {
          break;
        }
      }
    }

    /** All elements are behind, and the comma after them if there is one. */
    twostate predicate Read(es: Option<seq<Expr>>, done: seq<Expr>, end: int, more: bool)
      reads this
    {
      es.Some? ==>
        && done == es.value && errors == old(errors) && current.kind == Operator("]")
        && pos == end + if more then 1 else 0
    }

    /** The entries `done` are behind, the others are spelled from here up to `end`. */
    twostate predicate Filled(fs: Option<seq<Entry>>, done: seq<Entry>, end: int)
      reads this
    {
      fs.Some? ==>
        && |done| <= |fs.value| && done == fs.value[..|done|] && errors == old(errors) && Hinted()
        && FieldsAt(tokens, fs.value[|done|..], pos) && pos + |FieldTokens(fs.value[|done|..])| == end
    }

    method ParseObject(ghost want: Option<Want>) returns (e: Expr)
      requires Valid() && current.kind == Operator("{") && Hint(want, PRIMARY)
      requires want.Some? ==> Plain(tokens, want.value, pos) && want.value.tree.Object?
      modifies this
      ensures Moved() && Got(want, PRIMARY, e)
      decreases Left(), 2, 0
    {
      hide InStep, Numbers, Expects, Form, FieldTokens, FieldsAt;
      ghost var fs: Option<seq<Entry>> := None;
      if want.Some? {
        ObjectParts(tokens, want.value, pos);
        fs := Some(want.value.tree.fields);
      }
      var _ := Advance();
      var fields := ParseEntries(fs);
      var _ := Expect(Operator("}"));
      e := Object(fields);
    }

    method ParseEntries(ghost fs: Option<seq<Entry>>) returns (fields: seq<Entry>)
      requires Valid() && (fs.Some? ==> Hinted() && FieldsAt(tokens, fs.value, pos))
      modifies this
      ensures Stayed()
      ensures fs.Some? ==> fields == fs.value && pos == old(pos) + |FieldTokens(fs.value)| && errors == old(errors)
      ensures fs.Some? ==> current.kind == Operator("}")
      decreases Left(), 16
    {
      hide InStep, Numbers, OnlyNewlines, OnlyLayout, Expects, Form, FieldTokens, FieldsAt, IsOp, Closer;
      ghost var end := if fs.Some? then pos + |FieldTokens(fs.value)| else 0;
      if fs.Some? {
        FieldsBegin(tokens, fs.value, pos);
        assert fs.value[0..] == fs.value;
      }
      SkipLayout();
      fields := [];
      while current.kind != Operator("}") && !current.kind.EOF?
        invariant Stayed() && Filled(fs, fields, end)
        invariant fs.Some? ==> if |fields| == |fs.value| then current.kind == Operator("}") else current.kind.String?
        decreases Left()
      {
        if fs.Some? { EntryStep(tokens, fs.value, |fields|, pos); }
        var field := ParseEntry(fs, |fields|);
        fields := fields + [field];
        SkipLayout();
        if current.kind == Operator(",") {
          var _ := Advance();
          SkipLayout();
        } else {
          break;
        }
      }
      if fs.Some? {
        assert fields == fs.value;
        NoFieldTokens(fs.value[|fields|..]);
      }
    }

    method ParseEntry(ghost fs: Option<seq<Entry>>, ghost i: nat) returns (field: Entry)
      requires Valid()
      requires fs.Some? ==> Hinted() && i < |fs.value| && EntryNext(tokens, fs.value, i, pos)
      modifies this
      ensures Moved()
      ensures fs.Some? ==> field == fs.value[i] && pos == old(pos) + 2 + |Form(Whole(field.value), PIPE)| && errors == old(errors)
      ensures old(current).kind.Ident? || old(current).kind.Keyword? || old(current).kind.String? ==> field.key == old(current).val
      ensures old(current).kind.Logic? && old(current).kind.spelledOut ==> field.key == old(current).val
      decreases Left(), 15
    {
      hide InStep, Numbers, OnlyNewlines, OnlyLayout, Expects, Form, FieldTokens, FieldsAt, IsOp, Closer;
      var key;
      if IsKey(current.kind) || current.kind.String? {
        key := Advance();
      } else {
        key := Expect(Ident);
      }
      var _ := Expect(Operator(":"));
      SkipLayout();
      var value := ParseExpr(EntryHint(fs, i));
      field := Entry(key.val, value);
    }

    method ParseQuery(ghost want: Option<Want>) returns (e: Expr)
      requires Valid() && current.kind == Keyword("query") && Hint(want, PRIMARY)
      requires want.Some? ==> Plain(tokens, want.value, pos) && want.value.tree.Query?
      modifies this
      ensures Moved() && Got(want, PRIMARY, e)
      decreases Left(), 2, 0
    {
      hide InStep, Numbers, OnlyNewlines, OnlyLayout, Expects, Form;
      ghost var d: Option<Want> := None;
      if want.Some? {
        QueryParts(tokens, want.value, pos);
        d := Some(Whole(want.value.tree.dataset));
      }
      var _ := Advance();
      var _ := Expect(Operator("("));
      var dataset := ParseExpr(d);
      var _ := Expect(Operator(")"));
      e := Query(dataset);
    }

    // ----- if, match, try, for, raise -----

    method ParseIf(ghost want: Option<Want>) returns (e: Expr)
      requires Valid() && current.kind == Keyword("if") && OpenHint(want) && (want.Some? ==> want.value.tree.If?)
      modifies this
      ensures Moved() && GotOpen(want, e)
      decreases Left(), 2, 0
    {
      hide InStep, Numbers, OnlyNewlines, OnlyLayout, Expects, Form, Raw, OpenAt, Printable, Tail, Words, Lines, LinesHere, ReadOn, Swallows, Takes, Weight;
      ghost var c: Option<Want>, a: Option<Want>, b: Option<Want>, n := None, None, None, 0;
      if want.Some? {
        ghost var x;
        c := Some(Inner(want.value.tree.cond));
        x, b, n := IfHints(tokens, want.value, pos);
        a := Some(x);
      }
      var _ := Advance();
      var cond := ParseCondition(c);
      SkipNewlines();
      var thn := ParseExpr(a);
      var els := ParseElse(b, n);
      e := If(cond, thn, els);
      if want.Some? { IfWeight(want.value.tree, e); }
    }

    method ParseCondition(ghost c: Option<Want>) returns (cond: Expr)
      requires Valid()
      requires c.Some? ==> !c.value.over && Hinted() && Reads(tokens, c.value, pos)
      requires c.Some? ==> KindAt(tokens, pos + |Form(c.value, PIPE)|) == Keyword("then")
      modifies this
      ensures Moved()
      ensures c.Some? ==> cond == c.value.tree && pos == old(pos) + |Form(c.value, PIPE)| + 1 && errors == old(errors)
      decreases Left(), 15
    {
      hide InStep, Numbers, OnlyNewlines, Expects, Form;
      SkipNewlines();
      cond := ParseExpr(c);
      SkipNewlines();
      var _ := Expect(Keyword("then"));
    }

    /** Newlines, `n` of them if it is known, and then an `else` part if there is one. */
    method ParseElse(ghost b: Option<Want>, ghost n: nat) returns (els: Option<Expr>)
      requires Valid()
      requires b.Some? ==> Hinted() && current.kind == Keyword("else") && Reads(tokens, b.value, pos + 1) && b.value.bare == Open(b.value.tree)
      requires b.Some? ==> (KindAt(tokens, pos + 1) == Keyword("if") <==> b.value.tree.If?)
      modifies this
      ensures Stayed()
      ensures b.Some? ==> els.Some?
      ensures b.Some? ==>
        if ReadOn(b.value) then Weight(els.value) > Weight(b.value.tree)
        else els.value == b.value.tree && pos == old(pos) + 1 + |Form(b.value, PIPE)| && errors == old(errors)
      ensures LinesHere(tokens, n, old(pos)) && KindAt(tokens, old(pos) + n) != Keyword("else") ==>
        els == None && pos == old(pos) + n && errors == old(errors)
      decreases Left(), 15
    {
      hide InStep, Numbers, OnlyNewlines, OnlyLayout, Expects, Form, Raw, Lines;
      ghost var p := pos;
      SkipNewlines();
      if LinesHere(tokens, n, p) { LinesSkipped(p, pos, n); }
      els := None;
      if current.kind == Keyword("else") {
        var _ := Advance();
        SkipNewlines();
        var x;
        if current.kind == Keyword("if") {
          if b.Some? { BareIf(tokens, b.value, pos); }
          x := ParseIf(b);
        } else {
          x := ParseExpr(b);
        }
        els := Some(x);
      }
    }

    method ParseTry(ghost want: Option<Want>) returns (e: Expr)
      requires Valid() && current.kind == Keyword("try") && OpenHint(want) && (want.Some? ==> want.value.tree.Try?)
      modifies this
      ensures Moved() && GotOpen(want, e)
      decreases Left(), 2, 0
    {
      hide InStep, Numbers, OnlyNewlines, OnlyLayout, Expects, Form, Raw, OpenAt, Printable, Tail, Words;
      ghost var a: Option<Want>, b: Option<Want> := None, None;
      if want.Some? {
        ghost var t := want.value.tree;
        TryStep(tokens, want.value, pos);
        if t.default.Some? {
          a, b := Some(Inner(t.tried)), Some(Tail(t.default.value, want.value));
          TailLines(tokens, want.value, pos, t.default.value);
          TailBare(t.default.value, want.value);
        } else {
          a := Some(Tail(t.tried, want.value));
          TailLines(tokens, want.value, pos, t.tried);
          TailBare(t.tried, want.value);
        }
      }
      var _ := Advance();
      var tried := ParseExpr(a);
      var default: Option<Expr> := None;
      if current.kind == Keyword("catch") {
        var _ := Advance();
        var d := ParseExpr(b);
        default := Some(d);
      }
      e := Try(tried, default);
    }

    method ParseRaise(ghost want: Option<Want>) returns (e: Expr)
      requires Valid() && current.kind == Keyword("raise") && OpenHint(want) && (want.Some? ==> want.value.tree.Raise?)
      modifies this
      ensures Moved() && GotOpen(want, e)
      decreases Left(), 2, 0
    {
      hide InStep, Numbers, OnlyNewlines, OnlyLayout, Expects, Form, Raw, OpenAt, Tail, Words;
      ghost var m: Option<Want> := None;
      if want.Some? {
        RaiseParts(tokens, want.value, pos);
        m := Some(Tail(want.value.tree.message, want.value));
        TailLines(tokens, want.value, pos, want.value.tree.message);
        TailBare(want.value.tree.message, want.value);
        NoLayoutBefore(tokens, m.value, PIPE, pos + 1);
      }
      var _ := Advance();
      SkipNewlines();
      var message := ParseExpr(m);
      e := Raise(message);
    }

    /** The variable of a loop, and after a comma the one for the position. */
    method ParseVariables(ghost t: Option<Expr>) returns (v: string, position: string)
      requires Valid()
      requires t.Some? ==> pos > 0 && t.value.For? && HeadAt(tokens, t.value, pos - 1)
      modifies this
      ensures Stayed()
      ensures t.Some? ==> v == t.value.variable && position == t.value.position && errors == old(errors)
      ensures t.Some? ==> pos == old(pos) + 1 + |IndexTokens(position)|
    {
      hide InStep, Numbers, Expects, Form, Raw;
      var name := Expect(Ident);
      v, position := name.val, "";
      if current.kind == Operator(",") {
        var _ := Advance();
        var i := Expect(Ident);
        position := i.val;
      }
    }

    /** The iterable and the colon behind it. */
    method ParseIterable(ghost x: Option<Want>) returns (iterable: Expr)
      requires Valid() && (x.Some? ==> Hinted() && current.kind == Keyword("in") && Reads(tokens, x.value, pos + 1))
      modifies this
      ensures Moved()
      ensures x.Some? && x.value.over ==> Weight(iterable) > Weight(x.value.tree)
      ensures x.Some? && !x.value.over ==>
        var q := old(pos) + 1 + |Form(x.value, PIPE)|;
        && iterable == x.value.tree
        && if KindAt(tokens, q) == Operator(":") then pos == q + 1 && errors == old(errors)
           else errors == old(errors) + [q]
      decreases Left(), 15
    {
      hide InStep, Numbers, OnlyNewlines, Expects, Form;
      var _ := Expect(Keyword("in"));
      SkipNewlines();
      iterable := ParseExpr(x);
      var _ := Expect(Operator(":"));
    }

    /** An expression, or a block, of which only the last statement counts. */
    method ParseLoopBody(ghost b: Option<Want>, ghost block: Option<seq<Stmt>>, ghost lay: Layout) returns (each: Expr)
      requires Valid() && (b.Some? ==> block.None? && Hinted() && Reads(tokens, b.value, pos))
      requires block.Some? ==> Hinted() && BlockAt(tokens, block.value, lay, pos)
      modifies this
      ensures Moved() && Received(b, each)
      ensures block.Some? && Apart(block.value) ==>
        |lay.gaps| == |block.value| && each == BlockBody(block.value) && errors == old(errors)
        && pos == old(pos) + BlockLength(block.value, lay)
      decreases Left(), 18
    {
      hide InStep, Numbers, OnlyNewlines, OnlyLayout, Expects, Form, BlockAt, Apart, LinesHere, StmtsLength;
      ghost var p := pos;
      SkipNewlines();
      if block.Some? {
        LeadHere(tokens, block.value, lay, p);
        LinesSkipped(p, pos, lay.lead);
        BlockFrom(tokens, block.value, lay, p);
      }
      if current.kind.Indent? {
        var stmts := ParseBlock(block, Layout(0, lay.gaps));
        each := BlockBody(stmts);
      } else {
        each := ParseExpr(b);
      }
    }

    /** Everything up to the body. */
    method ParseForHead(ghost t: Option<Expr>, ghost x: Option<Want>) returns (v: string, position: string, iterable: Expr)
      requires Valid() && current.kind == Keyword("for")
      requires t.Some? ==> Hinted() && t.value.For? && x.Some? && LoopReads(tokens, t.value, x.value, pos)
      modifies this
      ensures Moved()
      ensures t.Some? && x.value.over ==> Weight(iterable) > Weight(x.value.tree)
      ensures t.Some? && !x.value.over ==>
        var q := IterableAt(t.value, old(pos)) + |Form(x.value, PIPE)|;
        && v == t.value.variable && position == t.value.position && iterable == x.value.tree
        && if KindAt(tokens, q) == Operator(":") then pos == q + 1 && errors == old(errors) else errors != old(errors)
      decreases Left(), 1
    {
      hide InStep, Numbers, Expects, Form, Raw, IndexTokens, Weight;
      var _ := AdvanceLine();
      v, position := ParseVariables(t);
      iterable := ParseIterable(if t.Some? then x else None);
    }

    /** `want` names the loop and `x` the iterable, which may differ from the one in `want`:
        then only the variables and the iterable are known to come back, and a missing colon
        to be an error.  `block` is the body if that is written as a block. */
    method ParseFor(ghost want: Option<Want>, ghost x: Option<Want>, ghost block: Option<seq<Stmt>>, ghost lay: Layout)
      returns (e: Expr)
      requires Valid() && current.kind == Keyword("for")
      requires want.Some? ==> Hinted() && want.value.tree.For? && x.Some? && LoopReads(tokens, want.value.tree, x.value, pos)
      requires block.Some? ==>
        want.Some? && x == Some(Inner(want.value.tree.iterable)) && BlockLoopAt(tokens, want.value.tree, block.value, lay, pos)
      modifies this
      ensures Moved() && e.For?
      ensures want.Some? && x.value.over ==> Weight(e.iterable) > Weight(x.value.tree)
      ensures want.Some? && !x.value.over ==>
        var t := want.value.tree;
        && e.variable == t.variable && e.position == t.position && e.iterable == x.value.tree
        && (KindAt(tokens, IterableAt(t, old(pos)) + |Form(x.value, PIPE)|) != Operator(":") ==> errors != old(errors))
      ensures want.Some? && block.None? && OpenAt(tokens, want.value, old(pos)) && x == Some(Inner(want.value.tree.iterable)) ==>
        GotOpen(want, e)
      ensures block.Some? && Apart(block.value) ==> e.each == BlockBody(block.value) && errors == old(errors)
      decreases Left(), 2, 0
    {
      hide InStep, Numbers, OnlyNewlines, OnlyLayout, Expects, Form, Raw, OpenAt, Printable, IndexTokens, BlockAt, BlockLoopAt, Apart, LoopReads, Weight, Swallows;
      ghost var t: Option<Expr>, b: Option<Want> := None, None;
      if want.Some? {
        t := Some(want.value.tree);
        b := ForHints(tokens, want.value, x.value, block, lay, pos);
      }
      var v, position, iterable := ParseForHead(t, x);
      var each := ParseLoopBody(if want.Some? && !x.value.over then b else None, block, lay);
      e := For(v, position, iterable, each);
      if want.Some? && Weight(each) > Weight(t.value.each) { ForWeight(t.value, e); }
    }

    method ParseMatch(ghost want: Option<Want>) returns (e: Expr)
      requires Valid() && current.kind == Keyword("match") && OpenHint(want) && (want.Some? ==> want.value.tree.Match?)
      modifies this
      ensures Moved() && GotOpen(want, e)
      decreases Left(), 2, 0
    {
      hide InStep, Numbers, OnlyNewlines, OnlyLayout, Expects, Form, Raw, OpenAt, Printable, ArmsAt, ArmTokens, PrintableArms;
      ghost var s: Option<Want>, all: Option<seq<Arm>>, n := None, None, 0;
      if want.Some? {
        ghost var t := want.value.tree;
        MatchParts(tokens, want.value, pos);
        s, all, n := Some(Inner(t.subject)), Some(t.arms), want.value.lines;
        ArmsEnd(tokens, t.arms, pos + 2 + |Form(s.value, PIPE)|, n);
      }
      var _ := Advance();
      var subject := ParseExpr(s);
      var _ := Expect(Operator(":"));
      SkipNewlines();
      var arms := ParseArms(all, n);
      e := Match(subject, arms);
    }

    /** The arms of a match, on lines of their own or not, and the `n` newlines behind them. */
    method ParseArms(ghost all: Option<seq<Arm>>, ghost n: nat) returns (arms: seq<Arm>)
      requires Valid()
      requires all.Some? ==> Hinted() && all.value != [] && ArmsAt(tokens, all.value, pos, n)
      modifies this
      ensures Stayed()
      ensures all.Some? ==> arms == all.value && pos == old(pos) + |ArmTokens(all.value)| + n && errors == old(errors)
      decreases Left(), 15
    {
      hide InStep, Numbers, OnlyNewlines, Expects, Form, ArmsAt, ArmTokens, PrintableArms, Lines;
      ghost var end := if all.Some? then pos + |ArmTokens(all.value)| else 0;
      if all.Some? {
        assert all.value[0..] == all.value;
        ArmsEnd(tokens, all.value, pos, n);
      }
      arms := [];
      var hasIndent := false;
      if current.kind.Indent? {
        var _ := Advance();
        hasIndent := true;
      }
      while current.kind == Keyword("when")
        invariant Stayed() && (all.Some? ==> !hasIndent)
        invariant all.Some? ==> if arms == all.value then errors == old(errors) && pos == end + n && current.kind != Keyword("when")
          else Matched(all, arms, end, n)
        decreases Left()
      {
        ghost var rest := if all.Some? then Some(all.value[|arms|..]) else None;
        if all.Some? { assert rest.value[1..] == all.value[|arms| + 1..]; }
        var arm := ParseMatchArm(rest, n);
        arms := arms + [arm];
        ghost var p := pos;
        if all.Some? { ArmsEnd(tokens, all.value[|arms|..], pos, n); }
        SkipNewlines();
        if all.Some? && |arms| == |all.value| { LinesSkipped(p, pos, n); }
      }
      if all.Some? && arms != all.value { ArmsEnd(tokens, all.value[|arms|..], pos, n); }
      if hasIndent && current.kind.Dedent? {
        var _ := Advance();
      }
    }

    /** The arms `done` are behind, the others are spelled from here up to `end`. */
    twostate predicate Matched(all: Option<seq<Arm>>, done: seq<Arm>, end: int, n: nat)
      reads this
    {
      all.Some? ==>
        && |done| < |all.value| && done == all.value[..|done|] && errors == old(errors) && Hinted()
        && ArmsAt(tokens, all.value[|done|..], pos, n) && pos + |ArmTokens(all.value[|done|..])| == end
    }

    method ParseMatchArm(ghost rest: Option<seq<Arm>>, ghost n: nat) returns (arm: Arm)
      requires Valid() && current.kind == Keyword("when")
      requires rest.Some? ==> Hinted() && rest.value != [] && ArmsAt(tokens, rest.value, pos, n)
      modifies this
      ensures Moved()
      ensures rest.Some? ==> arm == rest.value[0] && errors == old(errors) && ArmsAt(tokens, rest.value[1..], pos, n)
      ensures rest.Some? ==> pos + |ArmTokens(rest.value[1..])| == old(pos) + |ArmTokens(rest.value)|
      decreases Left(), 2
    {
      hide InStep, Numbers, OnlyNewlines, OnlyLayout, Expects, Form, ArmsAt, ArmTokens, PatternAt, PatternTokens, PrintableArms;
      ghost var x: Option<Pattern>, b: Option<Want> := None, None;
      if rest.Some? {
        ArmStep(tokens, rest.value, pos, n);
        x, b := Some(rest.value[0].pattern), Some(Inner(rest.value[0].result));
        PatternStep(tokens, x.value, pos + 1);
        NoLayoutBefore(tokens, b.value, PIPE, pos + 2 + |PatternTokens(x.value)|);
      }
      var _ := Expect(Keyword("when"));
      var pattern := ParsePattern(x);
      var _ := Expect(Operator("=>"));
      SkipNewlines();
      var body := ParseExpr(b);
      arm := Arm(pattern, body);
    }

    method ParsePattern(ghost x: Option<Pattern>) returns (p: Pattern)
      requires Valid()
      requires x.Some? ==> Numbers() && PatternAt(tokens, x.value, pos)
      modifies this
      ensures Moved()
      ensures x.Some? ==> p == x.value && pos == old(pos) + |PatternTokens(x.value)| && errors == old(errors)
      decreases Left(), 5
    {
      hide InStep, PatternTokens, PatternAt, Numbers, Relates;
      CompareTokens();
      if x.Some? { PatternStep(tokens, x.value, pos); }
      var previous := inPattern;
      inPattern := true;
      if current.kind.Ident? && current.val == "_" {
        var _ := Advance();
        p := Wildcard;
      } else if Relates(current.kind) {
        var op := Advance();
        var v := ParseValue(if x.Some? && x.value.Comparison? then Some(x.value.value) else None);
        p := Comparison(BinOpOf(op.kind).value, v);
      } else {
        p := ParseValuePattern(x);
      }
      inPattern := previous;
    }

    /** A literal, or two as the ends of a range; anything else is compared with. */
    method ParseValuePattern(ghost x: Option<Pattern>) returns (p: Pattern)
      requires Valid()
      requires x.Some? ==> Numbers() && PatternAt(tokens, x.value, pos) && (x.value.LitPattern? || x.value.Range?)
      modifies this
      ensures Moved()
      ensures x.Some? ==> p == x.value && pos == old(pos) + |PatternTokens(x.value)| && errors == old(errors)
      decreases Left(), 4, 1
    {
      hide InStep, PatternTokens, PatternAt, Numbers;
      if x.Some? { PatternStep(tokens, x.value, pos); }
      var left := ParseValue(FirstValue(x));
      if current.kind == Operator("..") {
        var _ := Advance();
        var right := ParseValue(if x.Some? && x.value.Range? then Some(x.value.high) else None);
        p := Range(left, right);
      } else if left.Lit? {
        p := LitPattern(left);
      } else {
        p := Comparison(Eq, left);
      }
    }

    ghost function FirstValue(x: Option<Pattern>): Option<Expr> {
      if x.Some? && x.value.Range? then Some(x.value.low)
      else if x.Some? && x.value.LitPattern? then Some(x.value.lit)
      else None
    }

    /** A value in a pattern; literals come back as they are. */
    method ParseValue(ghost l: Option<Expr>) returns (v: Expr)
      requires Valid() && (l.Some? ==> Numbers() && LitAt(tokens, l.value, pos))
      modifies this
      ensures Moved()
      ensures l.Some? ==> v == l.value && v.Lit? && pos == old(pos) + 1 && errors == old(errors)
      decreases Left(), 4, 0
    {
      hide InStep, Numbers;
      v := ParsePrimary(None);
    }

    // ----- blocks -----

    /** The statements `done` are behind, the others are spelled from here up to `end`. */
    twostate predicate Filed(ss: seq<Stmt>, gaps: seq<nat>, done: seq<Stmt>, end: int)
      reads this
    {
      && ReadTo(ss, done) && |done| <= |ss| == |gaps| && errors == old(errors) && Hinted()
      && StmtsAt(tokens, ss[|done|..], gaps[|done|..], pos)
      && pos + StmtsLength(ss[|done|..], gaps[|done|..]) == end
    }

    /** A block comes back as it is written exactly if no statement of it is read as a part of
        the one before it. */
    method ParseBlock(ghost want: Option<seq<Stmt>>, ghost lay: Layout) returns (stmts: seq<Stmt>)
      requires Valid() && (want.Some? ==> Hinted() && BlockAt(tokens, want.value, lay, pos))
      modifies this
      ensures Stayed() && (old(current).kind.Indent? ==> pos > old(pos))
      ensures want.Some? ==> (stmts == want.value <==> Apart(want.value))
      ensures want.Some? && Apart(want.value) ==>
        |lay.gaps| == |want.value| && errors == old(errors) && pos == old(pos) + BlockLength(want.value, lay)
      decreases Left(), 17, 1
    {
      hide InStep, Numbers, OnlyNewlines, StmtsAt, StmtsLength, Apart, Lines, LinesHere;
      ghost var p := pos;
      SkipNewlines();
      if want.Some? {
        LeadHere(tokens, want.value, lay, p);
        LinesSkipped(p, pos, lay.lead);
      }
      if current.kind.Indent? {
        var _ := Advance();
      }
      stmts := ParseStmts(want, lay.gaps);
      if current.kind.Dedent? {
        var _ := Advance();
      }
    }

    /** The statements of a block, up to the end of it. */
    method ParseStmts(ghost want: Option<seq<Stmt>>, ghost gaps: seq<nat>) returns (stmts: seq<Stmt>)
      requires Valid() && (want.Some? ==> Hinted() && StmtsAt(tokens, want.value, gaps, pos))
      modifies this
      ensures Stayed()
      ensures want.Some? ==> |gaps| == |want.value| && (stmts == want.value <==> Apart(want.value))
      ensures want.Some? && Apart(want.value) ==>
        errors == old(errors) && pos == old(pos) + StmtsLength(want.value, gaps) && current.kind.Dedent?
      decreases Left(), 17, 0
    {
      hide InStep, Numbers, OnlyNewlines, StmtsAt, StmtsLength, Merges, Apart, GoesOn, StmtAt, ReadTo, Strayed;
      stmts := [];
      ghost var good, ss, end := want.Some?, if want.Some? then want.value else [], 0;
      if good {
        StmtsStep(tokens, ss, gaps, pos);
        end := pos + StmtsLength(ss, gaps);
        ReadNone(ss);
        RestOf(ss, 0);
        RestOf(gaps, 0);
      }
      while !current.kind.Dedent? && !current.kind.EOF?
        invariant Stayed() && (good ==> want.Some?)
        invariant want.Some? ==> if good then Filed(ss, gaps, stmts, end) else Strayed(ss, stmts)
        decreases Left()
      {
        ghost var n := |stmts|;
        if good {
          StmtsStep(tokens, ss[n..], gaps[n..], pos);
          RestOf(ss, n);
          RestOf(gaps, n);
        }
        SkipNewlines();
        if current.kind.Dedent? || current.kind.EOF? {
          break;
        }
        var stmt := ParseLine(if good then Some(ss[n..]) else None, if good then gaps[n..] else []);
        if good {
          ReadMore(ss, stmts, stmt);
          good := !(|ss| > n + 1 && Merges(ss[n], ss[n + 1]));
        } else if want.Some? {
          StrayMore(ss, stmts, stmt);
        }
        stmts := stmts + [stmt];
      }
      if good {
        StmtsStep(tokens, ss[|stmts|..], gaps[|stmts|..], pos);
        ReadAll(ss, stmts);
      } else if want.Some? {
        StrayMore(ss, stmts, Use([]));
      }
    }

    /** A statement and the newlines behind it. */
    method ParseLine(ghost rest: Option<seq<Stmt>>, ghost gaps: seq<nat>) returns (s: Stmt)
      requires Valid() && (rest.Some? ==> Hinted() && rest.value != [] && StmtsAt(tokens, rest.value, gaps, pos))
      modifies this
      ensures Moved()
      ensures rest.Some? ==> |gaps| == |rest.value|
      ensures rest.Some? ==>
        if |rest.value| > 1 && Merges(rest.value[0], rest.value[1]) then s != rest.value[0]
        else s == rest.value[0] && errors == old(errors) && StmtsAt(tokens, rest.value[1..], gaps[1..], pos)
             && pos + StmtsLength(rest.value[1..], gaps[1..]) == old(pos) + StmtsLength(rest.value, gaps)
      decreases Left(), 16, 1
    {
      hide InStep, Numbers, OnlyNewlines, StmtsAt, StmtsLength, Merges, Lines, LinesHere, GoesOn, StmtAt;
      ghost var next: Option<Stmt>, gap, p := None, 0, pos;
      if rest.Some? {
        StmtsStep(tokens, rest.value, gaps, pos);
        GapTaken(tokens, rest.value, gaps, pos);
        next, gap := Some(rest.value[0]), gaps[0];
      }
      s := ParseStmt(next, gap);
      ghost var q := pos;
      SkipNewlines();
      if rest.Some? && !GoesOn(tokens, rest.value[0], p, gap) && !TakesLines(rest.value[0]) { LinesSkipped(q, pos, gap); }
    }

    method ParseStmt(ghost want: Option<Stmt>, ghost gap: nat) returns (s: Stmt)
      requires Valid() && (want.Some? ==> Hinted() && StmtAt(tokens, want.value, pos, gap))
      modifies this
      ensures Moved()
      ensures want.Some? ==>
        if GoesOn(tokens, want.value, old(pos), gap) then s != want.value
        else s == want.value && errors == old(errors)
             && pos == old(pos) + |StmtTokens(want.value)| + if TakesLines(want.value) then gap else 0
      decreases Left(), 16, 0
    {
      hide InStep, Numbers, StmtAt, Expects, Form, TakesLines, StmtTokens, StmtLeads, GoesOn;
      if want.Some? { StmtKind(tokens, want.value, pos, gap); }
      ghost var v: Option<Want> := None;
      if want.Some? && !want.value.Use? {
        v := Some(ValueWant(tokens, want.value, pos, gap));
        ValueAt(tokens, want.value, pos, gap);
      }
      match current.kind {
        case Keyword(w) =>
          if w == "let" {
            s := ParseLetStmt(want, v);
            return;
          } else if w == "return" {
            var _ := Advance();
            var x := ParseExpr(v);
            return Return(x);
          } else if w == "use" {
            s := ParseUseStmt(want, gap);
            return;
          }
        case _ =>
      }
      var x := ParseExpr(v);
      s := ExprStmt(x);
    }

    method ParseLetStmt(ghost want: Option<Stmt>, ghost v: Option<Want>) returns (s: Stmt)
      requires Valid() && current.kind == Keyword("let")
      requires want.Some? ==>
        && Hinted() && want.value.Let? && v.Some? && LetHeadAt(tokens, want.value, pos) && Reads(tokens, v.value, pos + 3)
      modifies this
      ensures Moved() && s.Let?
      ensures want.Some? ==>
        if v.value.over then Weight(s.value) > Weight(v.value.tree)
        else s == Let(want.value.name, v.value.tree) && errors == old(errors) && pos == old(pos) + 3 + |Form(v.value, PIPE)|
      decreases Left(), 15
    {
      hide InStep, Numbers, OnlyNewlines, Expects, Form;
      var _ := Advance();
      var name := Expect(Ident);
      var _ := Expect(Operator("="));
      SkipNewlines();
      var value := ParseExpr(if want.Some? then v else None);
      s := Let(name.val, value);
    }

    /** The parts of a dotted namespace. */
    method ParseUseStmt(ghost want: Option<Stmt>, ghost gap: nat) returns (s: Stmt)
      requires Valid() && current.kind == Keyword("use")
      requires want.Some? ==> want.value.Use? && StmtAt(tokens, want.value, pos, gap)
      modifies this
      ensures Moved() && s.Use? && s.parts != []
      ensures want.Some? ==> s == want.value && errors == old(errors) && pos == old(pos) + |StmtTokens(want.value)|
      decreases Left(), 15
    {
      hide InStep, StmtAt, StmtTokens, DotsAt, DotTokens;
      ghost var all := if want.Some? then want.value.parts else [];
      if want.Some? { UseAt(tokens, want.value, pos, gap); }
      ghost var end := if want.Some? then pos + |StmtTokens(want.value)| else 0;
      var _ := Advance();
      var name := Expect(Ident);
      var parts := [name.val];
      while current.kind == Operator(".")
        invariant Moved() && parts != []
        invariant want.Some? ==> |parts| <= |all| && parts == all[..|parts|] && errors == old(errors)
        invariant want.Some? ==> DotsAt(tokens, all[|parts|..], pos) && pos + |DotTokens(all[|parts|..])| == end
        decreases Left()
      {
        if want.Some? {
          DotsStep(tokens, all[|parts|..], pos);
          assert all[|parts|..][1..] == all[|parts| + 1..];
        }
        var _ := Advance();
        var part := Expect(Ident);
        parts := parts + [part.val];
      }
      if want.Some? { DotsStep(tokens, all[|parts|..], pos); }
      s := Use(parts);
    }

    // ----- functions -----

    /** A whole function comes back as it is written exactly if no statement of its body is read
        as a part of the one before it. */
    method ParseFunction(ghost want: Option<FnDef>, ghost gaps: seq<nat>, ghost shape: Shape) returns (f: FnDef)
      requires Valid() && (want.Some? ==> Hinted() && FunctionAt(tokens, want.value, gaps, shape, pos))
      modifies this
      ensures Stayed() && |f.types| <= pos - old(pos)
      ensures want.Some? ==> (f == want.value <==> Apart(want.value.body))
      ensures want.Some? && Apart(want.value.body) ==> errors == old(errors)
    {
      hide InStep, TypeDefsAt, TypeDefsLength, HeaderAt, HeaderTokens, BodyAt, Apart, Numbers;
      var types := ParseTypeDefs(if want.Some? then Some(want.value.types) else None, gaps);
      var name, params, result := ParseHeader(want);
      var body := ParseFnBody(if want.Some? then Some(want.value.body) else None, shape);
      f := FnDef(name, types, params, result, body);
    }

    method ParseHeader(ghost want: Option<FnDef>) returns (name: string, params: seq<ParamDef>, result: TypeName)
      requires Valid() && (want.Some? ==> Hinted() && HeaderAt(tokens, want.value, pos))
      modifies this
      ensures Stayed()
      ensures want.Some? ==>
        && name == want.value.name && params == want.value.params && result == want.value.result
        && errors == old(errors) && pos == old(pos) + |HeaderTokens(want.value)|
    {
      hide InStep, HeaderAt, HeaderTokens, ParamDefsAt, ParamDefTokens, TypeAt, TypeTokens, Numbers;
      if want.Some? { HeaderParts(tokens, want.value, pos); }
      name := ParseFnName(if want.Some? then Some(want.value.name) else None);
      params := ParseParams(if want.Some? then Some(want.value.params) else None);
      var _ := Expect(Operator(")"));
      var _ := Expect(Operator("->"));
      result := ParseType(if want.Some? then Some(want.value.result) else None);
    }

    /** The word, the name, and the parenthesis. */
    method ParseFnName(ghost want: Option<string>) returns (name: string)
      requires Valid()
      requires want.Some? ==>
        KindAt(tokens, pos) == Keyword("fn") && KindAt(tokens, pos + 1).Ident? && tokens[pos + 1].val == want.value && KindAt(tokens, pos + 2) == Operator("(")
      modifies this
      ensures Stayed()
      ensures want.Some? ==> name == want.value && pos == old(pos) + 3 && errors == old(errors)
    {
      hide InStep;
      var _ := Expect(Keyword("fn"));
      var id := Expect(Ident);
      name := id.val;
      var _ := Expect(Operator("("));
    }

    method ParseFnBody(ghost want: Option<seq<Stmt>>, ghost shape: Shape) returns (body: seq<Stmt>)
      requires Valid() && (want.Some? ==> Hinted() && BodyAt(tokens, want.value, shape, pos))
      modifies this
      ensures Stayed()
      ensures want.Some? ==> (body == want.value <==> Apart(want.value))
      ensures want.Some? && Apart(want.value) ==> errors == old(errors)
    {
      hide InStep, OnlyNewlines, BlockAt, Apart, Followed, Print, Printable, Spelled, Expects, Form, Numbers, GrowLevel, LinesHere;
      SkipNewlines();
      body := [];
      if current.kind == Operator("=>") {
        ghost var v: Option<Want>, block: Option<seq<Stmt>>, lay := None, None, Layout(0, []);
        ghost var p := pos + 1;
        if want.Some? && shape.OneLine? {
          OneLineAt(tokens, want.value, shape.lines, pos);
          v := Some(Laid(tokens, want.value[0].value, pos + 1 + |Print(want.value[0].value, 0)|, shape.lines));
        } else if want.Some? {
          block, lay := want, shape.lay;
          LeadHere(tokens, want.value, lay, p);
          BlockFrom(tokens, want.value, lay, p);
        }
        var _ := Advance();
        SkipNewlines();
        if block.Some? { LinesSkipped(p, pos, lay.lead); }
        if current.kind.Indent? {
          body := ParseBlock(block, Layout(0, lay.gaps));
        } else {
          var e := ParseExpr(v);
          body := [ExprStmt(e)];
        }
      } else if current.kind == Operator(":") {
        var _ := Advance();
        body := ParseBlock(want, if want.Some? then shape.lay else Layout(0, []));
      } else {
        AddError();
      }
    }

    /** The parameters `done` are behind, the `rest` is spelled from here up to `end`. */
    twostate predicate Bound(all: seq<ParamDef>, done: seq<ParamDef>, rest: seq<ParamDef>, end: int)
      reads this
    {
      && Parts(all, done, rest) && (done == [] || rest != []) && errors == old(errors)
      && Hinted() && ParamDefsAt(tokens, rest, pos) && pos + |ParamDefTokens(rest)| == end
    }

    /** Parameters separated by commas, up to the parenthesis. */
    method ParseParams(ghost want: Option<seq<ParamDef>>) returns (params: seq<ParamDef>)
      requires Valid() && (want.Some? ==> Hinted() && ParamDefsAt(tokens, want.value, pos))
      modifies this
      ensures Stayed() && |params| <= pos - old(pos) + 1
      ensures want.Some? ==>
        params == want.value && errors == old(errors) && pos == old(pos) + |ParamDefTokens(want.value)| && current.kind == Operator(")")
    {
      hide InStep, OnlyLayout, ParamDefsAt, ParamDefTokens, ParamAt, ParamLength, Numbers, Parts;
      params := [];
      ghost var all := if want.Some? then want.value else [];
      ghost var rest, end := all, pos + |ParamDefTokens(all)|;
      NoneBehind(all);
      while true
        invariant Stayed() && |params| <= pos - old(pos)
        invariant want.Some? ==> Bound(all, params, rest, end)
        decreases Left()
      {
        if want.Some? { MoveOne(all, params, rest); }
        var closed := ParamsClosed(if want.Some? then Some(rest) else None);
        if closed {
          return;
        }
        var p, more := ParseNextParam(if want.Some? then Some(rest) else None);
        params := params + [p];
        rest := if want.Some? then rest[1..] else [];
        if !more {
          if want.Some? { MoveOne(all, params, rest); }
          return;
        }
      }
    }

    /** Layout is skipped in search of another parameter; whether there is none. */
    method ParamsClosed(ghost rest: Option<seq<ParamDef>>) returns (closed: bool)
      requires Valid() && (rest.Some? ==> ParamDefsAt(tokens, rest.value, pos))
      modifies this
      ensures Stayed() && errors == old(errors) && (closed <==> current.kind == Operator(")"))
      ensures rest.Some? ==> pos == old(pos) && (closed <==> rest.value == []) && |ParamDefTokens([])| == 0
    {
      hide InStep, OnlyLayout, ParamDefsAt, ParamDefTokens, ParamAt, ParamLength;
      if rest.Some? {
        ParamDefStep(tokens, rest.value, pos);
        NoParamTokens();
      }
      SkipLayout();
      closed := current.kind == Operator(")");
    }

    lemma NoParamTokens()
      ensures ParamDefTokens([]) == []
    {
    }

    /** One parameter, and whether a comma stands behind it. */
    method ParseNextParam(ghost want: Option<seq<ParamDef>>) returns (p: ParamDef, more: bool)
      requires Valid() && (want.Some? ==> Hinted() && want.value != [] && ParamDefsAt(tokens, want.value, pos))
      modifies this
      ensures Stayed() && (more ==> pos > old(pos) && Left() < old(Left()))
      ensures want.Some? ==> p == want.value[0] && errors == old(errors) && (more <==> |want.value| > 1)
      ensures want.Some? && more ==>
        ParamDefsAt(tokens, want.value[1..], pos) && pos + |ParamDefTokens(want.value[1..])| == old(pos) + |ParamDefTokens(want.value)|
      ensures want.Some? && !more ==>
        current.kind == Operator(")") && pos == old(pos) + |ParamDefTokens(want.value)|
    {
      hide InStep, OnlyLayout, ParamDefsAt, ParamDefTokens, ParamAt, ParamLength, Numbers;
      if want.Some? { ParamDefStep(tokens, want.value, pos); }
      p := ParseParam(if want.Some? then Some(want.value[0]) else None);
      SkipLayout();
      more := current.kind == Operator(",");
      if more {
        var _ := Advance();
      }
    }

    method ParseParam(ghost want: Option<ParamDef>) returns (p: ParamDef)
      requires Valid() && (want.Some? ==> Hinted() && ParamAt(tokens, want.value, pos))
      requires want.Some? ==> current.kind in {Ident, Operator("...")}
      modifies this
      ensures Stayed() && (p.variadic <==> old(current).kind == Operator("..."))
      ensures want.Some? ==> p == want.value && errors == old(errors) && pos == old(pos) + ParamLength(want.value)
    {
      hide InStep, TypeAt, TypeTokens, Expects, Form, Numbers;
      var variadic := current.kind == Operator("...");
      if variadic {
        var _ := Advance();
      }
      var name := ExpectName();
      var _ := Expect(Operator(":"));
      var kind := ParseType(if want.Some? then Some(want.value.kind) else None);
      var default := ParseDefault(if want.Some? then Some(want.value.default) else None);
      p := ParamDef(name.val, kind, default, variadic);
    }

    method ParseDefault(ghost want: Option<Option<Expr>>) returns (default: Option<Expr>)
      requires Valid()
      requires want.Some? ==> Hinted() && if want.value.None? then KindAt(tokens, pos) in {Operator(","), Operator(")")}
        else KindAt(tokens, pos) == Operator("=") && Reads(tokens, Whole(want.value.value), pos + 1)
      modifies this
      ensures Stayed() && (default.Some? <==> old(current).kind == Operator("="))
      ensures want.Some? ==>
        && default == want.value && errors == old(errors)
        && pos == old(pos) + if default.Some? then 1 + |Form(Whole(default.value), PIPE)| else 0
    {
      hide InStep, Expects, Form, Numbers;
      default := None;
      if current.kind == Operator("=") {
        var _ := Advance();
        var d := ParseExpr(if want.Some? then WholeOf(want.value) else None);
        default := Some(d);
      }
    }

    /** Where a name stands, `type` is one. */
    method ExpectName() returns (t: Token)
      requires Valid()
      modifies this
      ensures Stayed() && t == old(current)
      ensures t.kind in {Ident, Keyword("type")} ==> pos == old(pos) + 1 && errors == old(errors)
    {
      if current.kind == Keyword("type") {
        t := Advance();
      } else {
        t := Expect(Ident);
      }
    }

    method ParseType(ghost want: Option<TypeName>) returns (t: TypeName)
      requires Valid() && (want.Some? ==> TypeAt(tokens, want.value, pos))
      modifies this
      ensures Stayed() && (t.Record? <==> old(current).kind == Keyword("record"))
      ensures want.Some? ==> t == want.value && errors == old(errors) && pos == old(pos) + |TypeTokens(want.value)|
      decreases Left(), 1
    {
      hide InStep, TypeAt, TypeTokens, ArrayAt;
      if want.Some? {
        TypeParts(tokens, want.value, pos);
        TypeBegins(tokens, want.value, pos);
      }
      if current.kind == Keyword("record") {
        t := ParseRecordType(want);
      } else {
        var name := Expect(Ident);
        var isArray := ParseArraySuffix(if want.Some? then Some(want.value.isArray) else None);
        t := Named(name.val, isArray);
      }
    }

    method ParseArraySuffix(ghost want: Option<bool>) returns (isArray: bool)
      requires Valid() && (want.Some? ==> ArrayAt(tokens, want.value, pos))
      modifies this
      ensures Stayed() && (isArray <==> old(current).kind == Operator("["))
      ensures want.Some? ==> isArray == want.value && errors == old(errors) && pos == old(pos) + |ArrayTokens(isArray)|
    {
      isArray := current.kind == Operator("[");
      if isArray {
        var _ := Advance();
        var _ := Expect(Operator("]"));
      }
    }

    /** Record types nest; every field but the last is followed by a comma. */
    method ParseRecordType(ghost want: Option<TypeName>) returns (t: TypeName)
      requires Valid() && current.kind == Keyword("record")
      requires want.Some? ==> want.value.Record? && TypeAt(tokens, want.value, pos)
      modifies this
      ensures Moved() && t.Record?
      ensures want.Some? ==> t == want.value && errors == old(errors) && pos == old(pos) + |TypeTokens(want.value)|
      decreases Left(), 0
    {
      hide InStep, OnlyNewlines, TypeAt, TypeTokens, TypedAt, TypedTokens, ArrayAt, ArrayTokens;
      if want.Some? {
        TypeParts(tokens, want.value, pos);
        TypedStep(tokens, want.value.fields, pos + 2);
      }
      var _ := Advance();
      var _ := Expect(Operator("{"));
      var fields := ParseFieldTypes(if want.Some? then Some(want.value.fields) else None);
      var _ := Expect(Operator("}"));
      var isArray := ParseArraySuffix(if want.Some? then Some(want.value.isArray) else None);
      t := Record(fields, isArray);
    }

    method ParseFieldTypes(ghost want: Option<seq<FieldType>>) returns (fields: seq<FieldType>)
      requires Valid() && (want.Some? ==> TypedAt(tokens, want.value, pos))
      modifies this
      ensures Stayed()
      ensures want.Some? ==>
        fields == want.value && errors == old(errors) && pos == old(pos) + |TypedTokens(want.value)| && current.kind == Operator("}")
      decreases Left(), 4
    {
      hide InStep, OnlyNewlines, TypedAt, TypedTokens, TypeTokens;
      ghost var rest := if want.Some? then want.value else [];
      ghost var end := pos + |TypedTokens(rest)|;
      if want.Some? { TypedBegin(tokens, rest, pos); }
      SkipNewlines();
      fields := [];
      while current.kind != Operator("}") && !current.kind.EOF?
        invariant Stayed()
        invariant want.Some? ==> Parts(want.value, fields, rest) && errors == old(errors)
        invariant want.Some? ==> current.kind == (if rest == [] then Operator("}") else Ident) && (rest == [] ==> pos == end)
        invariant want.Some? && rest != [] ==> TypedAt(tokens, rest, pos) && pos + |TypedTokens(rest)| == end
        decreases Left()
      {
        if want.Some? { MoveOne(want.value, fields, rest); }
        var field, more := ParseNextField(if want.Some? then Some(rest) else None);
        fields := fields + [field];
        rest := if want.Some? then rest[1..] else [];
        if !more {
          break;
        }
      }
      if want.Some? { MoveOne(want.value, fields, rest); }
    }

    /** One field, and whether a comma stands behind it. */
    method ParseNextField(ghost want: Option<seq<FieldType>>) returns (f: FieldType, more: bool)
      requires Valid() && (want.Some? ==> want.value != [] && TypedAt(tokens, want.value, pos))
      modifies this
      ensures Stayed() && (more ==> pos > old(pos))
      ensures want.Some? ==> f == want.value[0] && errors == old(errors) && (more <==> |want.value| > 1)
      ensures want.Some? ==>
        var rest := want.value[1..];
        && current.kind == (if rest == [] then Operator("}") else Ident)
        && if rest == [] then pos == old(pos) + |TypedTokens(want.value)|
           else TypedAt(tokens, rest, pos) && pos + |TypedTokens(rest)| == old(pos) + |TypedTokens(want.value)|
      decreases Left(), 3
    {
      hide InStep, OnlyNewlines, TypedAt, TypedTokens, TypeTokens, FieldTypeAt, TypedHead;
      if want.Some? {
        TypedStep(tokens, want.value, pos);
        if |want.value| > 1 {
          TypedBegin(tokens, want.value[1..], pos + |TypedHead(want.value[0])| + |TypeTokens(want.value[0].kind)| + 1);
        }
      }
      f := ParseFieldType(if want.Some? then Some(want.value[0]) else None);
      SkipNewlines();
      more := current.kind == Operator(",");
      if more {
        var _ := Advance();
        SkipNewlines();
      }
    }

    method ParseFieldType(ghost want: Option<FieldType>) returns (f: FieldType)
      requires Valid() && (want.Some? ==> FieldTypeAt(tokens, want.value, pos))
      modifies this
      ensures Stayed() && f.name == old(current).val
      ensures want.Some? ==>
        f == want.value && errors == old(errors) && pos == old(pos) + |TypedHead(f)| + |TypeTokens(f.kind)|
      decreases Left(), 2
    {
      hide InStep, OnlyNewlines, TypeAt, TypeTokens;
      var name := ExpectName();
      var optional := current.kind == Operator("?");
      if optional {
        var _ := Advance();
      }
      var _ := Expect(Operator(":"));
      if want.Some? { TypeBegins(tokens, want.value.kind, pos); }
      SkipNewlines();
      var kind := ParseType(if want.Some? then Some(want.value.kind) else None);
      f := FieldType(name.val, optional, kind);
    }

    /** Type definitions come before the header. */
    method ParseTypeDefs(ghost want: Option<seq<TypeDef>>, ghost gaps: seq<nat>) returns (types: seq<TypeDef>)
      requires Valid() && (want.Some? ==> TypeDefsAt(tokens, want.value, gaps, pos))
      modifies this
      ensures Stayed() && |types| <= pos - old(pos) && current.kind != Keyword("type")
      ensures want.Some? ==>
        |gaps| == |want.value| && types == want.value && errors == old(errors) && pos == old(pos) + TypeDefsLength(want.value, gaps)
    {
      hide InStep, OnlyNewlines, TypeDefsAt, TypeDefsLength, TypeDefAt, LinesHere, TypeTokens;
      ghost var rest, lines, end := [], [], 0;
      if want.Some? {
        rest, lines := want.value, gaps;
        TypeDefsSizes(tokens, rest, lines, pos);
        TypeDefsBegin(tokens, rest, lines, pos);
        end := pos + TypeDefsLength(rest, lines);
      }
      SkipNewlines();
      types := [];
      while current.kind == Keyword("type")
        invariant Stayed() && |types| <= pos - old(pos)
        invariant want.Some? ==> types + rest == want.value && |rest| == |lines| && errors == old(errors)
        invariant want.Some? ==>
          && TypeDefsAt(tokens, rest, lines, pos) && pos + TypeDefsLength(rest, lines) == end
          && current.kind == if rest == [] then Keyword("fn") else Keyword("type")
        decreases Left()
      {
        if want.Some? { TypeDefsStep(tokens, rest, lines, pos); }
        var d := ParseTypeDef(if want.Some? then Some(rest[0]) else None);
        types := types + [d];
        ghost var p := pos;
        SkipNewlines();
        if want.Some? {
          LinesSkipped(p, pos, lines[0]);
          rest, lines := rest[1..], lines[1..];
          TypeDefsBegin(tokens, rest, lines, pos);
        }
      }
      if want.Some? { TypeDefsStep(tokens, rest, lines, pos); }
    }

    method ParseTypeDef(ghost want: Option<TypeDef>) returns (d: TypeDef)
      requires Valid() && current.kind == Keyword("type") && (want.Some? ==> TypeDefAt(tokens, want.value, pos))
      modifies this
      ensures Moved()
      ensures want.Some? ==> d == want.value && errors == old(errors) && pos == old(pos) + 3 + |TypeTokens(d.kind)|
    {
      hide InStep, OnlyNewlines, TypeAt, TypeTokens;
      if want.Some? { TypeBegins(tokens, want.value.kind, pos + 3); }
      var _ := Advance();
      var name := Expect(Ident);
      var _ := Expect(Operator("="));
      SkipNewlines();
      var kind := ParseType(if want.Some? then Some(want.value.kind) else None);
      d := TypeDef(name.val, kind);
    }
  }
}
