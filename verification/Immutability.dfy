/** In a function that compiles, with its `use` lines first, a binding never changes once
    made: a closure that shares its function's scope by pointer behaves as if it had
    copied the bindings when it was created. */
module Immutability {
  import opened Wrappers
  import opened Syntax
  import opened Lexical
  import opened Compiler
  import opened Soundness
  import opened Termination
  import Arguments

  /** The names an expression looks up outside its own `for` variables.  A lambda's
      parameters count too, because one that a call leaves out is looked up further out;
      unless it is known that all calls are `full` and leave out none. */
  function Free(full: bool, e: Expr): set<string>
    decreases e
  {
    match e
    case Lit(_) => {}
    case Ident(x) => {x}
    case Strict(_, es) => FreeAll(full, es)
    case ArrayLit(es) => FreeAll(full, es)
    case And(l, r) => Free(full, l) + Free(full, r)
    case Or(l, r) => Free(full, l) + Free(full, r)
    case If(c, t, f) => Free(full, c) + Free(full, t) + if f.Some? then Free(full, f.value) else {}
    case Coalesce(l, r) => Free(full, l) + Free(full, r)
    case Try(b, d) => Free(full, b) + if d.Some? then Free(full, d.value) else {}
    case For(x, i, it, b) => Free(full, it) + (Free(full, b) - ForNames(x, i))
    case Raise(m) => Free(full, m)
    case Lambda(ps, b) => if full then Free(full, b) - Names(ps) else Free(full, b)
    case Call(_, es) => FreeAll(full, es)
  }

  function FreeAll(full: bool, es: seq<Expr>): set<string>
    decreases es
  {
    if es == [] then {} else Free(full, es[0]) + FreeAll(full, es[1..])
  }

  function LambdaParams(e: Expr): set<string>
    decreases e
  {
    match e
    case Lit(_) => {}
    case Ident(_) => {}
    case Strict(_, es) => LambdaParamsAll(es)
    case ArrayLit(es) => LambdaParamsAll(es)
    case And(l, r) => LambdaParams(l) + LambdaParams(r)
    case Or(l, r) => LambdaParams(l) + LambdaParams(r)
    case If(c, t, f) => LambdaParams(c) + LambdaParams(t) + if f.Some? then LambdaParams(f.value) else {}
    case Coalesce(l, r) => LambdaParams(l) + LambdaParams(r)
    case Try(b, d) => LambdaParams(b) + if d.Some? then LambdaParams(d.value) else {}
    case For(_, _, it, b) => LambdaParams(it) + LambdaParams(b)
    case Raise(m) => LambdaParams(m)
    case Lambda(ps, b) => Names(ps) + LambdaParams(b)
    case Call(_, es) => LambdaParamsAll(es)
  }

  function LambdaParamsAll(es: seq<Expr>): set<string>
    decreases es
  {
    if es == [] then {} else LambdaParams(es[0]) + LambdaParamsAll(es[1..])
  }

  predicate NoUseIn(stmts: seq<Stmt>) {
    forall i :: 0 <= i < |stmts| ==> !stmts[i].Use?
  }

  predicate UsesFirst(stmts: seq<Stmt>) {
    NoUseIn(stmts) || (stmts[0].Use? && UsesFirst(stmts[1..]))
  }

  /** The names still to be bound by `let`. */
  function Lets(stmts: seq<Stmt>): set<string> {
    if stmts == [] then {} else (if stmts[0].Let? then {stmts[0].name} else {}) + Lets(stmts[1..])
  }

  /** No statement looks up a name that it or a later statement binds. */
  predicate BoundBefore(full: bool, stmts: seq<Stmt>) {
    stmts == [] || ((stmts[0].Use? || Free(full, stmts[0].value) !! Lets(stmts)) && BoundBefore(full, stmts[1..]))
  }

  predicate SteadyFn(full: bool, k: Config, f: FnDef) {
    GoodFn(k, f) && UsesFirst(f.body) && BoundBefore(full, f.body)
  }

  ghost predicate SteadyTable(full: bool, k: Config) {
    !k.copies && forall n :: n in k.fns ==> SteadyFn(full, k, k.fns[n])
  }

  // ----- what the compiler already sees to -----

  /** A name that a checked expression looks up is in scope, a `$` name or the parameter
      of one of its lambdas. */
  lemma {:induction false} FreeNames(full: bool, e: Expr, scope: set<string>)
    requires VarsOk(e, scope)
    ensures forall x :: x in Free(full, e) ==> x in scope || Dollar(x) || (!full && x in LambdaParams(e))
    decreases e
  {
    match e {
      case Lit(_) =>
      case Ident(_) =>
      case Strict(_, es) => FreeNamesAll(full, es, scope);
      case ArrayLit(es) => FreeNamesAll(full, es, scope);
      case And(l, r) => FreeNames(full, l, scope); FreeNames(full, r, scope);
      case Or(l, r) => FreeNames(full, l, scope); FreeNames(full, r, scope);
      case If(c, t, f) =>
        FreeNames(full, c, scope);
        FreeNames(full, t, scope);
        if f.Some? {
          FreeNames(full, f.value, scope);
        }
      case Coalesce(l, r) => FreeNames(full, l, scope); FreeNames(full, r, scope);
      case Try(b, d) =>
        FreeNames(full, b, scope);
        if d.Some? {
          FreeNames(full, d.value, scope);
        }
      case For(x, i, it, b) => FreeNames(full, it, scope); FreeNames(full, b, scope + ForNames(x, i));
      case Raise(m) => FreeNames(full, m, scope);
      case Lambda(ps, b) => FreeNames(full, b, scope + Names(ps));
      case Call(_, es) => FreeNamesAll(full, es, scope);
    }
  }

  lemma {:induction false} FreeNamesAll(full: bool, es: seq<Expr>, scope: set<string>)
    requires forall i :: 0 <= i < |es| ==> VarsOk(es[i], scope)
    ensures forall x :: x in FreeAll(full, es) ==> x in scope || Dollar(x) || (!full && x in LambdaParamsAll(es))
    decreases es
  {
    if es != [] {
      FreeNames(full, es[0], scope);
      FreeNamesAll(full, es[1..], scope);
    }
  }

  /** No statement uses as a lambda parameter, or with a `$`, a name that it or a later
      statement binds. */
  predicate ParamsApart(stmts: seq<Stmt>) {
    || stmts == []
    || (&& (stmts[0].Use? || LambdaParams(stmts[0].value) !! Lets(stmts))
        && (forall x :: x in Lets(stmts) ==> !Dollar(x))
        && ParamsApart(stmts[1..]))
  }

  /** In a function that compiles, only lambda parameters need looking at. */
  lemma {:induction false} CleanBoundBefore(k: Config, stmts: seq<Stmt>, vars: set<string>, uses: seq<string>)
    requires BodyErrors(k, stmts, vars, uses) == [] && ParamsApart(stmts)
    ensures BoundBefore(false, stmts) && Lets(stmts) !! vars
  {
    hide Errors, Free, LambdaParams;
    if stmts != [] {
      BodyStep(k, stmts, vars, uses);
      CleanBoundBefore(k, stmts[1..], VarsAfter(stmts[0], vars), UsesAfter(stmts[0], uses));
      if !stmts[0].Use? {
        NoErrors(k, stmts[0].value, vars, uses);
        FreeNames(false, stmts[0].value, vars);
      }
    }
  }

  // ----- a shared environment and its copy -----

  predicate SubFrame(f: Frame, f': Frame) {
    forall x :: x in f ==> x in f' && f'[x] == f[x]
  }

  /** `f` grew into `f'` without any binding changing and without a first `use`. */
  predicate Steady(f: Frame, f': Frame) {
    SubFrame(f, f') && (USES in f <==> USES in f')
  }

  /** `d` holds by value what `c` sees through its function's scope. */
  predicate Copied(c: Env, d: Env, s: State) {
    && EnvOk(c, s) && d.base.None?
    && |d.frames| == |c.frames| + 1 && d.frames[..|c.frames|] == c.frames
    && Steady(d.frames[|c.frames|], s.bases[c.base.value])
  }

  predicate EnvSame(c: Env, d: Env, s: State) {
    EnvOk(c, s) && (d == c || Copied(c, d, s))
  }

  function NamesIn(d: Env, s: State): set<string> {
    FrameNames(d.frames) + (if d.base.Some? && d.base.value < |s.bases| then s.bases[d.base.value].Keys else {})
  }

  /** For every function scope of a call in progress, the names its `let`s have yet to bind. */
  type Plan = map<nat, set<string>>

  function Future(fut: Plan, b: nat): set<string> {
    if b in fut then fut[b] else {}
  }

  /** The copy has the name, or the shared scope has not and never will. */
  predicate Fixed(x: string, c: Env, d: Env, s: State, fut: Plan) {
    && c.base.Some? && c.base.value < |s.bases|
    && (x in NamesIn(d, s) || x !in s.bases[c.base.value].Keys + Future(fut, c.base.value))
  }

  predicate FixedAll(xs: set<string>, c: Env, d: Env, s: State, fut: Plan) {
    forall x :: x in xs ==> Fixed(x, c, d, s, fut)
  }

  function FreeIn(full: bool, c: Closure): set<string> {
    Free(full, Lambda(c.params, c.body))
  }

  predicate LambdaSame(full: bool, c: Closure, d: Closure, s: State, fut: Plan) {
    && c.params == d.params && c.body == d.body && c.depth == d.depth
    && Copied(c.env, d.env, s)
    && NoUses(c.body) && USES !in c.params && FixedAll(FreeIn(full, c), c.env, d.env, s, fut)
  }

  predicate SameState(full: bool, s: State, t: State, fut: Plan) {
    && s.bases == t.bases && s.log == t.log && s.unbound == t.unbound && |s.clos| == |t.clos|
    && (forall b :: b in fut ==> b < |s.bases|)
    && forall i :: 0 <= i < |s.clos| ==> LambdaSame(full, s.clos[i], t.clos[i], s, fut)
  }

  predicate Fits(full: bool, e: Expr, c: Env, d: Env, s: State, fut: Plan) {
    EnvSame(c, d, s) && NoUses(e) && FixedAll(Free(full, e), c, d, s, fut)
  }

  predicate FitsAll(full: bool, es: seq<Expr>, c: Env, d: Env, s: State, fut: Plan) {
    EnvSame(c, d, s) && (forall i :: 0 <= i < |es| ==> NoUses(es[i])) && FixedAll(FreeAll(full, es), c, d, s, fut)
  }

  function Copying(k: Config): Config {
    k.(copies := true)
  }

  predicate Same(full: bool, r: Res, q: Res, fut: Plan) {
    r.out == q.out && SameState(full, r.st, q.st, fut)
  }

  /** The run called nothing with a parameter left out, if that is what `full` is about. */
  predicate AllBound(full: bool, r: Res) {
    full ==> r.st.unbound == {}
  }

  lemma LookupAppend(fs: seq<Frame>, g: Frame, x: string)
    ensures LookupFrames(fs + [g], x) ==
      if LookupFrames(fs, x).Some? then LookupFrames(fs, x) else if x in g then Some(g[x]) else None
    ensures FrameNames(fs + [g]) == FrameNames(fs) + g.Keys
  {
    if fs != [] {
      LookupAppend(fs[1..], g, x);
      assert (fs + [g])[1..] == fs[1..] + [g];
    } else {
      assert [g][1..] == [];
    }
  }

  /** A shared environment and its copy find a name alike exactly if the copy has it or
      the shared scope has not; the list of namespaces is always found alike. */
  lemma LookupSame(c: Env, d: Env, s: State, t: State, x: string)
    requires EnvSame(c, d, s) && s.bases == t.bases
    ensures Lookup(c, s, x) == Lookup(d, t, x) <==> x in NamesIn(d, s) || x !in s.bases[c.base.value]
    ensures x == USES ==> Lookup(c, s, x) == Lookup(d, t, x)
  {
    LookupInFrames(c.frames, x);
    LookupInFrames(d.frames, x);
    if d != c {
      var g := d.frames[|c.frames|];
      assert d.frames == c.frames + [g];
      LookupAppend(c.frames, g, x);
    }
  }

  // ----- names stay fixed -----

  /** Every scope of `s` is still there in `s'`, with the same bindings and maybe more,
      all of them announced. */
  predicate SteadyState(s: State, fut: Plan, s': State, fut': Plan) {
    && |s.bases| <= |s'.bases|
    && forall b :: 0 <= b < |s.bases| ==>
         && Steady(s.bases[b], s'.bases[b])
         && s'.bases[b].Keys + Future(fut', b) <= s.bases[b].Keys + Future(fut, b)
  }

  lemma FixedLater(xs: set<string>, c: Env, d: Env, s: State, fut: Plan, s': State, fut': Plan)
    requires FixedAll(xs, c, d, s, fut) && SteadyState(s, fut, s', fut') && EnvSame(c, d, s)
    ensures FixedAll(xs, c, d, s', fut') && EnvSame(c, d, s')
  {
    var b := c.base.value;
    assert Steady(s.bases[b], s'.bases[b]);
    assert NamesIn(d, s) <= NamesIn(d, s');
    forall x | x in xs ensures Fixed(x, c, d, s', fut') {
      assert Fixed(x, c, d, s, fut);
    }
  }

  lemma GrowsSteady(s: State, s': State, fut: Plan)
    requires Grows(s, s')
    ensures SteadyState(s, fut, s', fut)
  {
  }

  lemma FitsLater(full: bool, e: Expr, c: Env, d: Env, s: State, s': State, fut: Plan)
    requires Fits(full, e, c, d, s, fut) && Grows(s, s')
    ensures Fits(full, e, c, d, s', fut)
  {
    GrowsSteady(s, s', fut);
    FixedLater(Free(full, e), c, d, s, fut, s', fut);
  }

  lemma FitsAllLater(full: bool, es: seq<Expr>, c: Env, d: Env, s: State, s': State, fut: Plan)
    requires FitsAll(full, es, c, d, s, fut) && Grows(s, s')
    ensures FitsAll(full, es, c, d, s', fut)
  {
    GrowsSteady(s, s', fut);
    FixedLater(FreeAll(full, es), c, d, s, fut, s', fut);
  }

  lemma SameLater(full: bool, s: State, t: State, fut: Plan, s': State, t': State, fut': Plan)
    requires SameState(full, s, t, fut) && SteadyState(s, fut, s', fut') && s'.clos == s.clos && t'.clos == t.clos
    requires s'.bases == t'.bases && s'.log == t'.log && s'.unbound == t'.unbound
    requires forall b :: b in fut' ==> b < |s'.bases|
    ensures SameState(full, s', t', fut')
  {
    forall i | 0 <= i < |s'.clos| ensures LambdaSame(full, s'.clos[i], t'.clos[i], s', fut') {
      assert LambdaSame(full, s.clos[i], t.clos[i], s, fut);
      FixedLater(FreeIn(full, s.clos[i]), s.clos[i].env, t.clos[i].env, s, fut, s', fut');
    }
  }

  // ----- the two ways of capturing give the same run -----

  lemma {:induction false} EvalSame(full: bool, k: Config, fuel: nat, c: Env, d: Env, depth: nat, e: Expr, s: State, t: State, fut: Plan)
    requires SteadyTable(full, k) && SameState(full, s, t, fut) && Fits(full, e, c, d, s, fut)
    requires AllBound(full, Eval(k, fuel, c, depth, e, s))
    ensures Same(full, Eval(k, fuel, c, depth, e, s), Eval(Copying(k), fuel, d, depth, e, t), fut)
    decreases fuel, 0, e, 1
  {
    hide EvalList, EvalFor, CallFn, Lookup, LambdaSame;
    if !TooDeep(k, depth) {
      match e {
        case Lit(_) =>
        case Ident(x) =>
          assert Fixed(x, c, d, s, fut);
          LookupSame(c, d, s, t, x);
        case Strict(_, es) => ListSame(full, k, fuel, c, d, depth, es, s, t, fut);
        case ArrayLit(es) => ListSame(full, k, fuel, c, d, depth, es, s, t, fut);
        case And(_, _) => TwoSame(full, k, fuel, c, d, depth, e, s, t, fut);
        case Or(_, _) => TwoSame(full, k, fuel, c, d, depth, e, s, t, fut);
        case If(_, _, _) => IfSame(full, k, fuel, c, d, depth, e, s, t, fut);
        case Coalesce(_, _) => TwoSame(full, k, fuel, c, d, depth, e, s, t, fut);
        case Try(_, _) => TrySame(full, k, fuel, c, d, depth, e, s, t, fut);
        case For(_, _, _, _) => ForSame(full, k, fuel, c, d, depth, e, s, t, fut);
        case Raise(m) => EvalSame(full, k, fuel, c, d, depth, m, s, t, fut);
        case Lambda(ps, b) => CaptureSame(full, k, fuel, c, d, depth, e, s, t, fut);
        case Call(_, _) => CallExprSame(full, k, fuel, c, d, depth, e, s, t, fut);
      }
    }
  }

  lemma {:induction false} CallExprSame(full: bool, k: Config, fuel: nat, c: Env, d: Env, depth: nat, e: Expr, s: State, t: State, fut: Plan)
    requires SteadyTable(full, k) && SameState(full, s, t, fut) && Fits(full, e, c, d, s, fut) && !TooDeep(k, depth) && e.Call?
    requires AllBound(full, Eval(k, fuel, c, depth, e, s))
    ensures Same(full, Eval(k, fuel, c, depth, e, s), Eval(Copying(k), fuel, d, depth, e, t), fut)
    decreases fuel, 0, e, 0
  {
    hide EvalList, EvalFor, CallFn, Lookup, SteadyTable, SameState;
    ListSame(full, k, fuel, c, d, depth, e.args, s, t, fut);
    var a := EvalList(k, fuel, c, depth, e.args, s);
    if a.out.Val? && fuel > 0 {
      FitsLater(full, e, c, d, s, a.st, fut);
      CallSame(full, k, fuel - 1, c, d, depth, e.fn, a.out.v.elems, a.st, EvalList(Copying(k), fuel, d, depth, e.args, t).st, fut);
    }
  }

  lemma {:induction false} TwoSame(full: bool, k: Config, fuel: nat, c: Env, d: Env, depth: nat, e: Expr, s: State, t: State, fut: Plan)
    requires SteadyTable(full, k) && SameState(full, s, t, fut) && Fits(full, e, c, d, s, fut) && !TooDeep(k, depth)
    requires e.And? || e.Or? || e.Coalesce?
    requires AllBound(full, Eval(k, fuel, c, depth, e, s))
    ensures Same(full, Eval(k, fuel, c, depth, e, s), Eval(Copying(k), fuel, d, depth, e, t), fut)
    decreases fuel, 0, e, 0
  {
    hide EvalList, EvalFor, CallFn, Lookup, SteadyTable, SameState;
    var a := Eval(k, fuel, c, depth, e.left, s);
    EvalSame(full, k, fuel, c, d, depth, e.left, s, t, fut);
    if a.out.Val? && if e.And? then ToBool(a.out.v) else if e.Or? then !ToBool(a.out.v) else a.out.v.Null? {
      assert Fits(full, e.right, c, d, s, fut);
      FitsLater(full, e.right, c, d, s, a.st, fut);
      EvalSame(full, k, fuel, c, d, depth, e.right, a.st, Eval(Copying(k), fuel, d, depth, e.left, t).st, fut);
    }
  }

  lemma {:induction false} IfSame(full: bool, k: Config, fuel: nat, c: Env, d: Env, depth: nat, e: Expr, s: State, t: State, fut: Plan)
    requires SteadyTable(full, k) && SameState(full, s, t, fut) && Fits(full, e, c, d, s, fut) && !TooDeep(k, depth) && e.If?
    requires AllBound(full, Eval(k, fuel, c, depth, e, s))
    ensures Same(full, Eval(k, fuel, c, depth, e, s), Eval(Copying(k), fuel, d, depth, e, t), fut)
    decreases fuel, 0, e, 0
  {
    hide EvalList, EvalFor, CallFn, Lookup, SteadyTable, SameState;
    var a := Eval(k, fuel, c, depth, e.cond, s);
    EvalSame(full, k, fuel, c, d, depth, e.cond, s, t, fut);
    if a.out.Val? && (ToBool(a.out.v) || e.els.Some?) {
      var e2 := if ToBool(a.out.v) then e.thn else e.els.value;
      assert Fits(full, e2, c, d, s, fut);
      FitsLater(full, e2, c, d, s, a.st, fut);
      EvalSame(full, k, fuel, c, d, depth, e2, a.st, Eval(Copying(k), fuel, d, depth, e.cond, t).st, fut);
    }
  }

  lemma {:induction false} TrySame(full: bool, k: Config, fuel: nat, c: Env, d: Env, depth: nat, e: Expr, s: State, t: State, fut: Plan)
    requires SteadyTable(full, k) && SameState(full, s, t, fut) && Fits(full, e, c, d, s, fut) && !TooDeep(k, depth) && e.Try?
    requires AllBound(full, Eval(k, fuel, c, depth, e, s))
    ensures Same(full, Eval(k, fuel, c, depth, e, s), Eval(Copying(k), fuel, d, depth, e, t), fut)
    decreases fuel, 0, e, 0
  {
    hide EvalList, EvalFor, CallFn, Lookup, SteadyTable, SameState;
    var a := Eval(k, fuel, c, depth, e.body, s);
    EvalSame(full, k, fuel, c, d, depth, e.body, s, t, fut);
    if a.out.Err? && e.default.Some? {
      assert Fits(full, e.default.value, c, d, s, fut);
      FitsLater(full, e.default.value, c, d, s, a.st, fut);
      EvalSame(full, k, fuel, c, d, depth, e.default.value, a.st, Eval(Copying(k), fuel, d, depth, e.body, t).st, fut);
    }
  }

  lemma {:induction false} ListSame(full: bool, k: Config, fuel: nat, c: Env, d: Env, depth: nat, es: seq<Expr>, s: State, t: State, fut: Plan)
    requires SteadyTable(full, k) && SameState(full, s, t, fut) && FitsAll(full, es, c, d, s, fut)
    requires AllBound(full, EvalList(k, fuel, c, depth, es, s))
    ensures Same(full, EvalList(k, fuel, c, depth, es, s), EvalList(Copying(k), fuel, d, depth, es, t), fut)
    decreases fuel, 0, es, 0
  {
    hide Eval, EvalFor, CallFn, Lookup, SteadyTable, SameState;
    if es != [] {
      var a := Eval(k, fuel, c, depth, es[0], s);
      assert Fits(full, es[0], c, d, s, fut) && FitsAll(full, es[1..], c, d, s, fut);
      EvalSame(full, k, fuel, c, d, depth, es[0], s, t, fut);
      if a.out.Val? {
        FitsAllLater(full, es[1..], c, d, s, a.st, fut);
        ListSame(full, k, fuel, c, d, depth, es[1..], a.st, Eval(Copying(k), fuel, d, depth, es[0], t).st, fut);
      }
    }
  }

  lemma {:induction false} ForSame(full: bool, k: Config, fuel: nat, c: Env, d: Env, depth: nat, e: Expr, s: State, t: State, fut: Plan)
    requires SteadyTable(full, k) && SameState(full, s, t, fut) && Fits(full, e, c, d, s, fut) && !TooDeep(k, depth) && e.For?
    requires AllBound(full, Eval(k, fuel, c, depth, e, s))
    ensures Same(full, Eval(k, fuel, c, depth, e, s), Eval(Copying(k), fuel, d, depth, e, t), fut)
    decreases fuel, 0, e, 0
  {
    hide EvalList, EvalFor, CallFn, Lookup, SteadyTable, SameState;
    var a := Eval(k, fuel, c, depth, e.iterable, s);
    assert Fits(full, e.iterable, c, d, s, fut);
    EvalSame(full, k, fuel, c, d, depth, e.iterable, s, t, fut);
    if a.out.Val? && a.out.v.Arr? {
      FitsLater(full, e, c, d, s, a.st, fut);
      RoundsSame(full, k, fuel, c, d, depth, e, a.out.v.elems, 0, a.st,
        Eval(Copying(k), fuel, d, depth, e.iterable, t).st, fut);
    }
  }

  /** Both environments get the same new innermost scope. */
  lemma PushSame(xs: set<string>, ys: set<string>, c: Env, d: Env, s: State, vars: Frame, fut: Plan)
    requires EnvSame(c, d, s) && USES !in vars && FixedAll(ys, c, d, s, fut) && xs <= ys + vars.Keys
    ensures var c', d' := Env([vars] + c.frames, c.base), Env([vars] + d.frames, d.base);
      EnvSame(c', d', s) && FixedAll(xs, c', d', s, fut)
  {
    var c', d' := Env([vars] + c.frames, c.base), Env([vars] + d.frames, d.base);
    assert c'.frames[1..] == c.frames && d'.frames[1..] == d.frames;
    assert NamesIn(d', s) == NamesIn(d, s) + vars.Keys;
    forall x | x in xs ensures Fixed(x, c', d', s, fut) {
      assert x in ys ==> Fixed(x, c, d, s, fut);
    }
    if d != c {
      assert d'.frames[..|c'.frames|] == [vars] + d.frames[..|c.frames|];
    }
  }

  lemma {:induction false} RoundsSame(full: bool, k: Config, fuel: nat, c: Env, d: Env, depth: nat, e: Expr,
                                      items: seq<Value>, i: nat, s: State, t: State, fut: Plan)
    requires SteadyTable(full, k) && SameState(full, s, t, fut) && e.For? && Fits(full, e, c, d, s, fut) && i <= |items|
    requires AllBound(full, EvalFor(k, fuel, c, depth, e.variable, e.index, e.body, items, i, s))
    ensures Same(full, EvalFor(k, fuel, c, depth, e.variable, e.index, e.body, items, i, s),
                 EvalFor(Copying(k), fuel, d, depth, e.variable, e.index, e.body, items, i, t), fut)
    decreases fuel, 0, e.body, 2, |items| - i
  {
    hide Eval, Free, SteadyTable, SameState, NoUses, FixedAll;
    if i < |items| && !TooDeep(k, depth) {
      var vars := ForFrame(e.variable, e.index, items[i], i);
      var c', d' := Env([vars] + c.frames, c.base), Env([vars] + d.frames, d.base);
      var a := Eval(k, fuel, c', depth, e.body, s);
      RoundSame(full, k, fuel, c, d, depth, e, vars, s, t, fut);
      if a.out.Val? {
        FitsLater(full, e, c, d, s, a.st, fut);
        RoundsSame(full, k, fuel, c, d, depth, e, items, i + 1, a.st, Eval(Copying(k), fuel, d', depth, e.body, t).st, fut);
      }
    }
  }

  lemma {:induction false} RoundSame(full: bool, k: Config, fuel: nat, c: Env, d: Env, depth: nat, e: Expr,
                                     vars: Frame, s: State, t: State, fut: Plan)
    requires SteadyTable(full, k) && SameState(full, s, t, fut) && e.For? && Fits(full, e, c, d, s, fut)
    requires vars.Keys == ForNames(e.variable, e.index)
    requires AllBound(full, Eval(k, fuel, Env([vars] + c.frames, c.base), depth, e.body, s))
    ensures Same(full, Eval(k, fuel, Env([vars] + c.frames, c.base), depth, e.body, s),
                 Eval(Copying(k), fuel, Env([vars] + d.frames, d.base), depth, e.body, t), fut)
    decreases fuel, 0, e.body, 2, 0
  {
    hide Eval, SteadyTable, SameState, FixedAll, EnvSame;
    PushSame(Free(full, e.body), Free(full, e), c, d, s, vars, fut);
    EvalSame(full, k, fuel, Env([vars] + c.frames, c.base), Env([vars] + d.frames, d.base), depth, e.body, s, t, fut);
  }

  /** A new closure: one side keeps the pointer, the other the bindings. */
  lemma CaptureSame(full: bool, k: Config, fuel: nat, c: Env, d: Env, depth: nat, e: Expr, s: State, t: State, fut: Plan)
    requires !k.copies && SameState(full, s, t, fut) && Fits(full, e, c, d, s, fut) && !TooDeep(k, depth) && e.Lambda?
    ensures Same(full, Eval(k, fuel, c, depth, e, s), Eval(Copying(k), fuel, d, depth, e, t), fut)
  {
    var r, q := Eval(k, fuel, c, depth, e, s), Eval(Copying(k), fuel, d, depth, e, t);
    var d' := Capture(Copying(k), d, t);
    if d == c {
      LookupAppend(c.frames, s.bases[c.base.value], "");
    }
    assert NamesIn(d', s) == NamesIn(d, s);
    forall x | x in Free(full, e) ensures Fixed(x, c, d', s, fut) {
      assert Fixed(x, c, d, s, fut);
    }
    forall i | 0 <= i < |r.st.clos| ensures LambdaSame(full, r.st.clos[i], q.st.clos[i], r.st, fut) {
      if i < |s.clos| {
        assert LambdaSame(full, s.clos[i], t.clos[i], s, fut);
        FixedLater(FreeIn(full, s.clos[i]), s.clos[i].env, t.clos[i].env, s, fut, r.st, fut);
      } else {
        GrowsSteady(s, r.st, fut);
        FixedLater(Free(full, e), c, d', s, fut, r.st, fut);
      }
    }
  }

  // ----- calls -----

  lemma {:induction false} CallSame(full: bool, k: Config, fuel: nat, c: Env, d: Env, depth: nat, name: string, args: seq<Value>,
                                    s: State, t: State, fut: Plan)
    requires SteadyTable(full, k) && SameState(full, s, t, fut) && EnvSame(c, d, s)
    requires AllBound(full, CallFn(k, fuel, c, depth, name, args, s))
    ensures Same(full, CallFn(k, fuel, c, depth, name, args, s), CallFn(Copying(k), fuel, d, depth, name, args, t), fut)
    decreases fuel, 3
  {
    hide LambdaSame;
    LookupSame(c, d, s, t, USES);
    var us := UsesOf(Lookup(c, s, USES));
    ResolveSame(k, us, name);
    ResolvedFrom(k, us, name);
    var x := Resolve(k, us, name);
    if IsDebugName(name) {
      SameLater(full, s, t, fut, s.(log := s.log + [DebugEntry(name, args)]), t.(log := t.log + [DebugEntry(name, args)]), fut);
    } else if x.UserTarget? {
      UserSame(full, k, fuel, depth, x.f, args, s, t, fut);
    } else if x.BuiltinTarget? && x.b.kind.HigherOrder? && !(x.checked && BadArity(x.b, |args|)) {
      HofSame(full, k, fuel, x.b.kind.hof, args, s, t, fut);
    }
  }

  lemma ResolveSame(k: Config, us: seq<Value>, name: string)
    ensures Resolve(Copying(k), us, name) == Resolve(k, us, name)
  {
    if us != [] {
      ResolveSame(k, us[1..], name);
      AnySame(k, Qualified(ToStr(k, us[0]), name));
    }
  }

  lemma AnySame(k: Config, names: seq<string>)
    ensures FindAny(Copying(k), names) == FindAny(k, names)
  {
  }

  lemma {:induction false} HofSame(full: bool, k: Config, fuel: nat, h: Hof, args: seq<Value>, s: State, t: State, fut: Plan)
    requires SteadyTable(full, k) && SameState(full, s, t, fut)
    requires AllBound(full, CallHof(k, fuel, h, args, s))
    ensures Same(full, CallHof(k, fuel, h, args, s), CallHof(Copying(k), fuel, h, args, t), fut)
    decreases fuel, 2, 1
  {
    hide SameState;
    if |args| >= HofArity(h) && args[0].Arr? {
      LoopSame(full, k, fuel, h, args[HofArity(h) - 1], args[0].elems, HofInit(h, args), s, t, fut);
    }
  }

  lemma {:induction false} LoopSame(full: bool, k: Config, fuel: nat, h: Hof, f: Value, items: seq<Value>, acc: Value,
                                    s: State, t: State, fut: Plan)
    requires SteadyTable(full, k) && SameState(full, s, t, fut)
    requires AllBound(full, HofLoop(k, fuel, h, f, items, acc, s))
    ensures Same(full, HofLoop(k, fuel, h, f, items, acc, s), HofLoop(Copying(k), fuel, h, f, items, acc, t), fut)
    decreases fuel, 2, 0, |items|
  {
    hide SameState, Apply;
    if items != [] {
      var args := HofArgs(h, acc, items[0]);
      var a := Apply(k, fuel, f, args, s);
      ApplySame(full, k, fuel, f, args, s, t, fut);
      if a.out.Val? {
        LoopSame(full, k, fuel, h, f, items[1..], HofStep(h, acc, items[0], a.out.v), a.st,
          Apply(Copying(k), fuel, f, args, t).st, fut);
      }
    }
  }

  lemma {:induction false} ApplySame(full: bool, k: Config, fuel: nat, f: Value, args: seq<Value>, s: State, t: State, fut: Plan)
    requires SteadyTable(full, k) && SameState(full, s, t, fut)
    requires AllBound(full, Apply(k, fuel, f, args, s))
    ensures Same(full, Apply(k, fuel, f, args, s), Apply(Copying(k), fuel, f, args, t), fut)
    decreases fuel, 1
  {
    hide Eval, Free, NoUses, FixedAll;
    if f.Clo? && f.id < |s.clos| {
      var c, d := s.clos[f.id], t.clos[f.id];
      assert LambdaSame(full, c, d, s, fut);
      var missing := Missing(c.params, |args|);
      var s1, t1 := s.(unbound := s.unbound + missing), t.(unbound := t.unbound + missing);
      SameLater(full, s, t, fut, s1, t1, fut);
      if !TooDeep(k, c.depth + 1) {
        FixedLater(FreeIn(full, c), c.env, d.env, s, fut, s1, fut);
        AllPassed(full, c, args, Eval(k, fuel, CallEnv(c, args), c.depth + 1, c.body, s1));
        PushSame(Free(full, c.body), FreeIn(full, c), c.env, d.env, s1, Bind(c.params, args), fut);
        EvalSame(full, k, fuel, CallEnv(c, args), CallEnv(d, args), c.depth + 1, c.body, s1, t1, fut);
      }
    }
  }

  /** Where no parameter was left out, the body's names are the closure's and its
      parameters, all of them bound. */
  lemma AllPassed(full: bool, c: Closure, args: seq<Value>, r: Res)
    requires AllBound(full, r) && Missing(c.params, |args|) <= r.st.unbound
    ensures Free(full, c.body) <= FreeIn(full, c) + Bind(c.params, args).Keys
  {
    if full {
      forall x | x in Names(c.params) ensures x in Bind(c.params, args) {
        var i: nat :| i < |c.params| && c.params[i] == x;
        assert c.params[i] !in Missing(c.params, |args|);
      }
    }
  }

  // ----- user functions -----

  predicate NoBase(s: State, b: nat) {
    forall i :: 0 <= i < |s.clos| ==> s.clos[i].env.base != Some(b)
  }

  lemma {:induction false} UserSame(full: bool, k: Config, fuel: nat, depth: nat, f: FnDef, args: seq<Value>, s: State, t: State, fut: Plan)
    requires SteadyTable(full, k) && SameState(full, s, t, fut) && SteadyFn(full, k, f)
    requires AllBound(full, CallUser(k, fuel, depth, f, args, s))
    ensures Same(full, CallUser(k, fuel, depth, f, args, s), CallUser(Copying(k), fuel, depth, f, args, t), fut)
    decreases fuel, 2, 0, 0
  {
    hide ExecBody, BindParams, UsesFirst, BoundBefore, FixedAll, NoUses;
    var b := |s.bases|;
    var s1, t1 := s.(bases := s.bases + [map[]]), t.(bases := t.bases + [map[]]);
    SameLater(full, s, t, fut, s1, t1, fut);
    forall i | 0 <= i < |s1.clos| ensures s1.clos[i].env.base != Some(b) {
      assert LambdaSame(full, s.clos[i], t.clos[i], s, fut);
    }
    if !TooDeep(k, depth + 1) {
      var p := BindParams(k, fuel, b, depth + 1, f.params, args, s1);
      BindSame(full, k, fuel, b, depth + 1, f.params, args, s1, t1, fut);
      if p.out.Val? {
        var q := BindParams(Copying(k), fuel, b, depth + 1, f.params, args, t1);
        BodySame(full, k, fuel, b, depth + 1, f.body, Null, ParamNames(f.params), [], p.st, q.st, fut);
      }
    }
  }

  /** While no closure knows scope `b`, anything may be set in it and announced for it. */
  lemma SetUnseen(full: bool, s: State, t: State, b: nat, x: string, v: Value, fut: Plan)
    requires SameState(full, s, t, fut) && b < |s.bases| && NoBase(s, b)
    ensures SameState(full, SetBase(s, b, x, v), SetBase(t, b, x, v), fut) && NoBase(SetBase(s, b, x, v), b)
  {
    hide Free, NoUses;
    var s' := SetBase(s, b, x, v);
    forall i | 0 <= i < |s'.clos| ensures LambdaSame(full, s'.clos[i], t.clos[i], s', fut) {
      assert LambdaSame(full, s.clos[i], t.clos[i], s, fut);
      UnseenFixed(FreeIn(full, s.clos[i]), s.clos[i].env, t.clos[i].env, s, fut, s', fut, b);
    }
  }

  lemma UnseenFixed(xs: set<string>, c: Env, d: Env, s: State, fut: Plan, s': State, fut': Plan, b: nat)
    requires FixedAll(xs, c, d, s, fut) && Copied(c, d, s) && c.base != Some(b)
    requires |s.bases| == |s'.bases|
    requires forall i :: 0 <= i < |s.bases| && i != b ==> s'.bases[i] == s.bases[i] && Future(fut', i) == Future(fut, i)
    ensures FixedAll(xs, c, d, s', fut') && Copied(c, d, s')
  {
    forall x | x in xs ensures Fixed(x, c, d, s', fut') {
      assert Fixed(x, c, d, s, fut);
    }
  }

  lemma AnnounceUnseen(full: bool, s: State, t: State, b: nat, xs: set<string>, fut: Plan)
    requires SameState(full, s, t, fut) && b < |s.bases| && NoBase(s, b)
    ensures SameState(full, s, t, fut[b := xs])
  {
    hide Free, NoUses;
    forall i | 0 <= i < |s.clos| ensures LambdaSame(full, s.clos[i], t.clos[i], s, fut[b := xs]) {
      assert LambdaSame(full, s.clos[i], t.clos[i], s, fut);
      UnseenFixed(FreeIn(full, s.clos[i]), s.clos[i].env, t.clos[i].env, s, fut, s, fut[b := xs], b);
    }
  }

  lemma {:induction false} BindSame(full: bool, k: Config, fuel: nat, b: nat, depth: nat, params: seq<Param>, args: seq<Value>,
                                    s: State, t: State, fut: Plan)
    requires SameState(full, s, t, fut) && b < |s.bases| && NoBase(s, b) && PlainParams(params)
    ensures var r := BindParams(k, fuel, b, depth, params, args, s);
      && Same(full, r, BindParams(Copying(k), fuel, b, depth, params, args, t), fut)
      && NoBase(r.st, b) && r.st.bases[b].Keys <= s.bases[b].Keys + ParamNames(params)
    decreases params
  {
    hide LambdaSame;
    if params != [] {
      var p := params[0];
      SplitNames(params);
      if args != [] {
        SetUnseen(full, s, t, b, p.name, args[0], fut);
        BindSame(full, k, fuel, b, depth, params[1..], args[1..], SetBase(s, b, p.name, args[0]), SetBase(t, b, p.name, args[0]), fut);
      } else if p.default.Some? {
        if !TooDeep(k, depth) {
          var v := LitValue(p.default.value.lit);
          assert Eval(k, fuel, Env([], Some(b)), depth, p.default.value, s) == Res(Val(v), s);
          assert Eval(Copying(k), fuel, Env([], Some(b)), depth, p.default.value, t) == Res(Val(v), t);
          SetUnseen(full, s, t, b, p.name, v, fut);
          BindSame(full, k, fuel, b, depth, params[1..], [], SetBase(s, b, p.name, v), SetBase(t, b, p.name, v), fut);
        }
      } else {
        var s1, t1 := s.(unbound := s.unbound + {p.name}), t.(unbound := t.unbound + {p.name});
        SameLater(full, s, t, fut, s1, t1, fut);
        BindSame(full, k, fuel, b, depth, params[1..], [], s1, t1, fut);
      }
    }
  }

  lemma SplitNames(params: seq<Param>)
    requires params != []
    ensures ParamNames(params) == {params[0].name} + ParamNames(params[1..])
  {
    forall x | x in ParamNames(params) ensures x == params[0].name || x in ParamNames(params[1..]) {
      var i :| 0 <= i < |params| && params[i].name == x;
      if i > 0 {
        assert params[1..][i - 1] == params[i];
      }
    }
  }

  /** A function's statements, run in a scope that nothing else will bind names in. */
  lemma {:induction false} BodySame(full: bool, k: Config, fuel: nat, b: nat, depth: nat, stmts: seq<Stmt>, result: Value,
                                    vars: set<string>, uses: seq<string>, s: State, t: State, fut: Plan)
    requires SteadyTable(full, k) && SameState(full, s, t, fut) && b < |s.bases| && NoBase(s, b) && b !in fut
    requires BodyErrors(k, stmts, vars, uses) == [] && UsesFirst(stmts) && BoundBefore(full, stmts)
    requires (forall i :: 0 <= i < |stmts| ==> NoUsesStmt(stmts[i])) && s.bases[b].Keys <= vars + {USES}
    requires AllBound(full, ExecBody(k, fuel, b, depth, stmts, result, s))
    ensures Same(full, ExecBody(k, fuel, b, depth, stmts, result, s), ExecBody(Copying(k), fuel, b, depth, stmts, result, t), fut)
    decreases fuel, 1, stmts, 2
  {
    AnnounceUnseen(full, s, t, b, Lets(stmts), fut);
    var rest := StmtsSame(full, k, fuel, b, depth, stmts, result, vars, uses, s, t, fut);
    var r, q := ExecBody(k, fuel, b, depth, stmts, result, s), ExecBody(Copying(k), fuel, b, depth, stmts, result, t);
    SameLater(full, r.st, q.st, fut[b := rest], r.st, q.st, fut);
  }

  /** Statement by statement: `use` lines while nothing has captured the scope, then
      statements that only ever add announced names to it. */
  lemma {:induction false} StmtsSame(full: bool, k: Config, fuel: nat, b: nat, depth: nat, stmts: seq<Stmt>, result: Value,
                                     vars: set<string>, uses: seq<string>, s: State, t: State, fut: Plan)
    returns (rest: set<string>)
    requires SteadyTable(full, k) && SameState(full, s, t, fut[b := Lets(stmts)]) && b < |s.bases| && |s.bases| == |t.bases|
    requires BodyErrors(k, stmts, vars, uses) == [] && UsesFirst(stmts) && BoundBefore(full, stmts)
    requires forall i :: 0 <= i < |stmts| ==> NoUsesStmt(stmts[i])
    requires s.bases[b].Keys <= vars + {USES}
    requires NoUseIn(stmts) || NoBase(s, b)
    requires AllBound(full, ExecBody(k, fuel, b, depth, stmts, result, s))
    ensures Same(full, ExecBody(k, fuel, b, depth, stmts, result, s), ExecBody(Copying(k), fuel, b, depth, stmts, result, t),
      fut[b := rest])
    decreases fuel, 1, stmts, 1
  {
    hide SameState, Free, NoUses, Errors, ExecStmt;
    rest := Lets(stmts);
    if stmts != [] {
      var stmt := stmts[0];
      var a, a' := ExecStmt(k, fuel, b, depth, stmt, s), ExecStmt(Copying(k), fuel, b, depth, stmt, t);
      BodyStep(k, stmts, vars, uses);
      assert Lets(stmts) == LetsOf(stmt) + Lets(stmts[1..]);
      if stmt.Use? {
        UseSame(full, k, fuel, b, depth, stmt, s, t, fut[b := Lets(stmts)]);
        assert Lets(stmts) == Lets(stmts[1..]);
      } else {
        StmtSame(full, k, fuel, b, depth, stmt, vars, uses, s, t, fut, Lets(stmts[1..]));
      }
      if a.out.Val? {
        SameBases(full, a.st, a'.st, fut[b := Lets(stmts[1..])]);
        rest := StmtsSame(full, k, fuel, b, depth, stmts[1..], a.out.v, VarsAfter(stmt, vars), UsesAfter(stmt, uses), a.st, a'.st, fut);
      }
    }
  }

  lemma SameBases(full: bool, s: State, t: State, fut: Plan)
    requires SameState(full, s, t, fut)
    ensures |s.bases| == |t.bases|
  {
  }

  function LetsOf(stmt: Stmt): set<string> {
    if stmt.Let? then {stmt.name} else {}
  }

  lemma {:induction false} UseSame(full: bool, k: Config, fuel: nat, b: nat, depth: nat, stmt: Stmt, s: State, t: State, fut: Plan)
    requires SameState(full, s, t, fut) && b < |s.bases| && NoBase(s, b) && stmt.Use?
    ensures var a := ExecStmt(k, fuel, b, depth, stmt, s);
      && Same(full, a, ExecStmt(Copying(k), fuel, b, depth, stmt, t), fut) && NoBase(a.st, b)
      && a.st.bases[b].Keys <= s.bases[b].Keys + {USES}
  {
    if !TooDeep(k, depth) {
      var us := UsesOf(Lookup(Env([], Some(b)), s, USES));
      SetUnseen(full, s, t, b, USES, Arr(us + [Str(stmt.ns)]), fut);
    }
  }

  lemma {:induction false} StmtSame(full: bool, k: Config, fuel: nat, b: nat, depth: nat, stmt: Stmt, vars: set<string>, uses: seq<string>,
                                    s: State, t: State, fut: Plan, rest: set<string>)
    requires SteadyTable(full, k) && b < |s.bases| && !stmt.Use? && NoUsesStmt(stmt)
    requires SameState(full, s, t, fut[b := LetsOf(stmt) + rest]) && Free(full, stmt.value) !! (LetsOf(stmt) + rest)
    requires StmtErrors(k, stmt, vars, uses) == [] && s.bases[b].Keys <= vars + {USES}
    requires AllBound(full, ExecStmt(k, fuel, b, depth, stmt, s))
    ensures var a, a' := ExecStmt(k, fuel, b, depth, stmt, s), ExecStmt(Copying(k), fuel, b, depth, stmt, t);
      if a.out.Val?
      then Same(full, a, a', fut[b := rest]) && a.st.bases[b].Keys <= VarsAfter(stmt, vars) + {USES}
      else Same(full, a, a', fut[b := LetsOf(stmt) + rest])
    decreases fuel, 1, stmt, 0
  {
    hide Eval, NoUses, SameState, Errors;
    if !TooDeep(k, depth) {
      var env := Env([], Some(b));
      var fut0 := fut[b := LetsOf(stmt) + rest];
      SameBases(full, s, t, fut0);
      forall x | x in Free(full, stmt.value) ensures Fixed(x, env, env, s, fut0) {
      }
      EvalSame(full, k, fuel, env, env, depth, stmt.value, s, t, fut0);
      var a, a' := Eval(k, fuel, env, depth, stmt.value, s), Eval(Copying(k), fuel, env, depth, stmt.value, t);
      if a.out.Val? {
        if stmt.Let? {
          BindAnnounced(full, a.st, a'.st, b, stmt.name, a.out.v, fut, rest);
        } else {
          assert LetsOf(stmt) + rest == rest;
        }
      }
    }
  }

  /** A `let` of an announced name that is not bound yet. */
  lemma BindAnnounced(full: bool, s: State, t: State, b: nat, x: string, v: Value, fut: Plan, rest: set<string>)
    requires b < |s.bases| && SameState(full, s, t, fut[b := {x} + rest]) && x !in s.bases[b] && x != USES
    ensures SameState(full, SetBase(s, b, x, v), SetBase(t, b, x, v), fut[b := rest])
  {
    hide LambdaSame;
    var fut0, fut1 := fut[b := {x} + rest], fut[b := rest];
    assert forall i :: i in fut1 ==> i in fut0;
    SameLater(full, s, t, fut0, SetBase(s, b, x, v), SetBase(t, b, x, v), fut1);
  }

  lemma {:induction false} RunsSame(full: bool, k: Config, fuel: nat, f: FnDef, args: Frame)
    requires SteadyTable(full, k) && SteadyFn(full, k, f) && AllBound(full, Execute(k, fuel, f, args))
    ensures Execute(Copying(k), fuel, f, args).out == Execute(k, fuel, f, args).out
    ensures Execute(Copying(k), fuel, f, args).st.log == Execute(k, fuel, f, args).st.log
  {
    hide ExecBody, BindNamed, UsesFirst, BoundBefore;
    var s := State([map[]], [], [], {});
    NamedSame(full, k, fuel, 0, f.params, args, s, s);
    var p, q := BindNamed(k, fuel, 0, f.params, args, s), BindNamed(Copying(k), fuel, 0, f.params, args, s);
    if p.out.Val? {
      BodySame(full, k, fuel, 0, 0, f.body, Null, ParamNames(f.params), [], p.st, q.st, map[]);
    }
  }

  /** Sharing and copying give the same outcome and the same debug log, in every run of
      such a function over a table of such functions, omitted arguments included. */
  lemma SharingIsCopying(k: Config, fuel: nat, f: FnDef, args: Frame)
    requires SteadyTable(false, k) && SteadyFn(false, k, f)
    ensures Execute(Copying(k), fuel, f, args).out == Execute(k, fuel, f, args).out
    ensures Execute(Copying(k), fuel, f, args).st.log == Execute(k, fuel, f, args).st.log
  {
    hide Execute;
    RunsSame(false, k, fuel, f, args);
  }

  // ----- with enough arguments at every call -----

  /** A checked expression that passes enough arguments looks up only what is in scope. */
  lemma {:induction false} SuppliedNames(k: Config, ns: Spaces, e: Expr, scope: set<string>)
    requires VarsOk(e, scope) && Arguments.Supplied(k, ns, e)
    ensures Free(true, e) <= scope
    decreases e
  {
    hide Arguments.CallSupplied, OnlyHof;
    match e {
      case Lit(_) =>
      case Ident(_) =>
      case Strict(_, es) => SuppliedNamesAll(k, ns, es, scope);
      case ArrayLit(es) => SuppliedNamesAll(k, ns, es, scope);
      case And(l, r) => SuppliedNames(k, ns, l, scope); SuppliedNames(k, ns, r, scope);
      case Or(l, r) => SuppliedNames(k, ns, l, scope); SuppliedNames(k, ns, r, scope);
      case If(c, t, f) =>
        SuppliedNames(k, ns, c, scope);
        SuppliedNames(k, ns, t, scope);
        if f.Some? {
          SuppliedNames(k, ns, f.value, scope);
        }
      case Coalesce(l, r) => SuppliedNames(k, ns, l, scope); SuppliedNames(k, ns, r, scope);
      case Try(b, d) =>
        SuppliedNames(k, ns, b, scope);
        if d.Some? {
          SuppliedNames(k, ns, d.value, scope);
        }
      case For(x, i, it, b) => SuppliedNames(k, ns, it, scope); SuppliedNames(k, ns, b, scope + ForNames(x, i));
      case Raise(m) => SuppliedNames(k, ns, m, scope);
      case Lambda(ps, b) => SuppliedNames(k, ns, b, scope + Names(ps));
      case Call(name, es) =>
        if Arguments.ReduceCall(k, ns, name, es) {
          SuppliedNamesAll(k, ns, es[..2], scope);
          assert VarsOk(es[2], scope);
          SuppliedNames(k, ns, es[2].body, scope + Names(es[2].params));
          ThreeFree(es);
        } else {
          SuppliedNamesAll(k, ns, es, scope);
        }
    }
  }

  lemma ThreeFree(es: seq<Expr>)
    requires |es| == 3
    ensures FreeAll(true, es) == FreeAll(true, es[..2]) + Free(true, es[2])
  {
    hide Free;
    assert es[..2][0] == es[0] && es[..2][1..] == [es[1]] && [es[1]][1..] == [];
    assert es[1..][0] == es[1] && es[1..][1..] == [es[2]] && [es[2]][1..] == [];
    assert FreeAll(true, [es[1]]) == Free(true, es[1]) && FreeAll(true, [es[2]]) == Free(true, es[2]);
  }

  lemma {:induction false} SuppliedNamesAll(k: Config, ns: Spaces, es: seq<Expr>, scope: set<string>)
    requires (forall i :: 0 <= i < |es| ==> VarsOk(es[i], scope)) && Arguments.SuppliedAll(k, ns, es)
    ensures FreeAll(true, es) <= scope
    decreases es
  {
    if es != [] {
      SuppliedNames(k, ns, es[0], scope);
      SuppliedNamesAll(k, ns, es[1..], scope);
    }
  }

  lemma {:induction false} SuppliedBoundBefore(k: Config, ns: Spaces, stmts: seq<Stmt>, vars: set<string>, uses: seq<string>)
    requires BodyErrors(k, stmts, vars, uses) == [] && Arguments.SuppliedStmts(k, ns, stmts)
    ensures BoundBefore(true, stmts) && Lets(stmts) !! vars
  {
    hide Errors, Free, Arguments.Supplied, NoUsesStmt;
    if stmts != [] {
      BodyStep(k, stmts, vars, uses);
      assert Arguments.SuppliedStmt(k, ns, stmts[0]);
      SuppliedBoundBefore(k, ns, stmts[1..], VarsAfter(stmts[0], vars), UsesAfter(stmts[0], uses));
      if !stmts[0].Use? {
        NoErrors(k, stmts[0].value, vars, uses);
        SuppliedNames(k, ns, stmts[0].value, vars);
      }
    }
  }

  lemma SuppliedSteady(k: Config, f: FnDef)
    requires Arguments.SuppliedFn(k, f) && UsesFirst(f.body)
    ensures SteadyFn(true, k, f)
  {
    hide Arguments.Supplied, Declared, UsesFirst, BoundBefore;
    Arguments.SuppliedBody(k, f);
    SuppliedBoundBefore(k, Declared(f), f.body, ParamNames(f.params), []);
  }

  /** Where every call passes enough arguments, lambda parameters may share their names with
      any `let`: sharing and copying give the same outcome and log in every run. */
  lemma SuppliedSharingIsCopying(k: Config, fuel: nat, f: FnDef, args: Frame)
    requires Arguments.SuppliedTable(k) && Arguments.SuppliedFn(k, f) && Arguments.FrameWithin(args, {})
    requires UsesFirst(f.body) && forall n :: n in k.fns ==> UsesFirst(k.fns[n].body)
    ensures Execute(Copying(k), fuel, f, args).out == Execute(k, fuel, f, args).out
    ensures Execute(Copying(k), fuel, f, args).st.log == Execute(k, fuel, f, args).st.log
  {
    hide Execute, Arguments.PassOn, Arguments.SuppliedFn, UsesFirst, SteadyFn;
    Arguments.NothingUnbound(k, fuel, f, args);
    SuppliedSteady(k, f);
    forall n | n in k.fns ensures SteadyFn(true, k, k.fns[n]) {
      SuppliedSteady(k, k.fns[n]);
    }
    RunsSame(true, k, fuel, f, args);
  }

  lemma {:induction false} NamedSame(full: bool, k: Config, fuel: nat, b: nat, params: seq<Param>, args: Frame, s: State, t: State)
    requires SameState(full, s, t, map[]) && b < |s.bases| && NoBase(s, b) && PlainParams(params)
    ensures var r := BindNamed(k, fuel, b, params, args, s);
      && Same(full, r, BindNamed(Copying(k), fuel, b, params, args, t), map[])
      && NoBase(r.st, b) && r.st.bases[b].Keys <= s.bases[b].Keys + ParamNames(params)
    decreases params
  {
    hide LambdaSame;
    if params != [] {
      var p := params[0];
      SplitNames(params);
      if p.name !in args && p.default.Some? {
        if !TooDeep(k, 0) {
          var v := LitValue(p.default.value.lit);
          assert Eval(k, fuel, Env([], Some(b)), 0, p.default.value, s) == Res(Val(v), s);
          assert Eval(Copying(k), fuel, Env([], Some(b)), 0, p.default.value, t) == Res(Val(v), t);
          SetUnseen(full, s, t, b, p.name, v, map[]);
          NamedSame(full, k, fuel, b, params[1..], args, SetBase(s, b, p.name, v), SetBase(t, b, p.name, v));
        }
      } else {
        var v := if p.name in args then args[p.name] else Null;
        SetUnseen(full, s, t, b, p.name, v, map[]);
        NamedSame(full, k, fuel, b, params[1..], args, SetBase(s, b, p.name, v), SetBase(t, b, p.name, v));
      }
    }
  }

  // ----- where copying would show -----

  /** `let f = (a, x) => x`, `let x = 5`, `map([1], f)`: it compiles, and `f` is called
      without its second parameter after a variable of that name was made. */
  const LATE_LET: FnDef := FnDef([], [
    Let("f", Lambda(["a", "x"], Ident("x"))),
    Let("x", Lit(NumLit(5))),
    ExprStmt(Call("map", [ArrayLit([Lit(NumLit(1))]), Ident("f")]))])

  lemma LateLetCompiles(k: Config)
    requires MapIsBuiltin(k)
    ensures GoodFn(k, LATE_LET) && UsesFirst(LATE_LET.body) && !BoundBefore(false, LATE_LET.body)
  {
    hide Errors, Free, VarsOk, CallsOk;
    var ss := LATE_LET.body;
    LateLetChecks(k);
    BodyStep(k, ss, {}, []);
    BodyStep(k, ss[1..], {"f"}, []);
    BodyStep(k, ss[1..][1..], {"f", "x"}, []);
    LateLetNames();
    assert NoUseIn(ss);
    assert ParamNames([]) == {};
    assert VarsAfter(ss[0], {}) == {"f"} && VarsAfter(ss[1], {"f"}) == {"f", "x"};
    assert BodyErrors(k, ss[1..][1..][1..], {"f", "x"}, []) == [];
  }

  lemma LateLetNames()
    ensures !BoundBefore(false, LATE_LET.body)
    ensures forall i :: 0 <= i < 3 ==> NoUsesStmt(LATE_LET.body[i])
  {
    var ss := LATE_LET.body;
    assert "x" in Free(false, ss[0].value) && "x" in Lets(ss[1..]) && Lets(ss[1..]) <= Lets(ss);
    assert |USES| == 8 && |"a"| == |"x"| == |"f"| == 1;
  }

  lemma LateLetChecks(k: Config)
    requires MapIsBuiltin(k)
    ensures Errors(k, LATE_LET.body[0].value, {}, []) == []
    ensures Errors(k, LATE_LET.body[1].value, {"f"}, []) == []
    ensures Errors(k, LATE_LET.body[2].value, {"f", "x"}, []) == []
  {
    var scope := {"f", "x"};
    var list, f := ArrayLit([Lit(NumLit(1))]), Ident("f");
    assert Errors(k, Ident("x"), {} + Names(["a", "x"]), []) == [];
    assert ListErrors(k, [Lit(NumLit(1))], scope, []) == [];
    assert [list, f][1..] == [f];
    assert ListErrors(k, [f], scope, []) == [];
    assert ListErrors(k, [list, f], scope, []) == [];
    assert "map" !in LEGACY;
  }

  /** Shared, `f` finds the `x` made after it; from a copy it would not. */
  lemma LateLetRuns(k: Config, fuel: nat)
    requires MapIsBuiltin(k) && fuel > 0
    ensures Execute(k, fuel, LATE_LET, map[]).out == if k.copies then Err(Undefined("x")) else Val(Arr([Num(5)]))
  {
    var ss := LATE_LET.body;
    var s0 := State([map[]], [], [], {});
    var env := Env([], Some(0));
    var c := Closure(["a", "x"], Ident("x"), if k.copies then Env([map[]], None) else env, 0);
    var s1 := State([map["f" := Clo(0)]], [c], [], {});
    var s2 := State([map["f" := Clo(0), "x" := Num(5)]], [c], [], {});
    assert ExecStmt(k, fuel, 0, 0, ss[0], s0) == Res(Val(Null), s1) by {
      assert env.frames + [s0.bases[0]] == [map[]];
      assert Eval(k, fuel, env, 0, ss[0].value, s0) == Res(Val(Clo(0)), s0.(clos := [c]));
    }
    assert ExecStmt(k, fuel, 0, 0, ss[1], s1) == Res(Val(Null), s2) by {
      assert Eval(k, fuel, env, 0, ss[1].value, s1) == Res(Val(Num(5)), s1);
    }
    LateLetMaps(k, fuel, c, s2);
    BodyOfThree(k, fuel, ss, s0, s1, s2);
  }

  lemma BodyOfThree(k: Config, fuel: nat, ss: seq<Stmt>, s0: State, s1: State, s2: State)
    requires |ss| == 3 && |s0.bases| == |s1.bases| == |s2.bases| == 1
    requires ExecStmt(k, fuel, 0, 0, ss[0], s0) == Res(Val(Null), s1)
    requires ExecStmt(k, fuel, 0, 0, ss[1], s1) == Res(Val(Null), s2)
    ensures ExecBody(k, fuel, 0, 0, ss, Null, s0) == ExecStmt(k, fuel, 0, 0, ss[2], s2)
  {
    hide ExecStmt;
    assert ss[1..][0] == ss[1] && ss[1..][1..][0] == ss[2] && ss[1..][1..][1..] == [];
    assert ExecBody(k, fuel, 0, 0, ss[1..][1..], Null, s2) == ExecStmt(k, fuel, 0, 0, ss[2], s2);
    assert ExecBody(k, fuel, 0, 0, ss[1..], Null, s1) == ExecBody(k, fuel, 0, 0, ss[1..][1..], Null, s2);
  }

  lemma LateLetMaps(k: Config, fuel: nat, c: Closure, s: State)
    requires MapIsBuiltin(k) && fuel > 0
    requires s == State([map["f" := Clo(0), "x" := Num(5)]], [c], [], {})
    requires c == Closure(["a", "x"], Ident("x"), if k.copies then Env([map[]], None) else Env([], Some(0)), 0)
    ensures ExecStmt(k, fuel, 0, 0, LATE_LET.body[2], s).out == if k.copies then Err(Undefined("x")) else Val(Arr([Num(5)]))
  {
    hide CallHof, EvalList, Apply;
    var env := Env([], Some(0));
    var one := Lit(NumLit(1));
    var es := LATE_LET.body[2].value.args;
    ListOfOne(k, fuel, env, 0, one, s);
    assert |USES| == 8 && |"f"| == |"x"| == 1;
    assert Lookup(env, s, "f") == Some(Clo(0)) && Lookup(env, s, USES) == None;
    assert Eval(k, fuel, env, 0, es[0], s) == Res(Val(Arr([Num(1)])), s);
    assert Eval(k, fuel, env, 0, es[1], s) == Res(Val(Clo(0)), s);
    MapCall(k, fuel, env, 0, es, [Num(1)], Clo(0), s, s);
    LateLetApplies(k, fuel - 1, c, s);
    MapOverOne(k, fuel - 1, Clo(0), Num(1), s);
  }

  lemma LateLetApplies(k: Config, fuel: nat, c: Closure, s: State)
    requires s == State([map["f" := Clo(0), "x" := Num(5)]], [c], [], {})
    requires c == Closure(["a", "x"], Ident("x"), if k.copies then Env([map[]], None) else Env([], Some(0)), 0)
    ensures Apply(k, fuel, Clo(0), [Num(1)], s).out == if k.copies then Err(Undefined("x")) else Val(Num(5))
  {
    var s1 := s.(unbound := s.unbound + Missing(c.params, 1));
    var env := CallEnv(c, [Num(1)]);
    assert Bind(["a", "x"], [Num(1)]) == BindUpTo(["a", "x"], [Num(1)], 1) == map["a" := Num(1)];
    assert env.frames[1..] == c.env.frames;
    assert "x" !in map["a" := Num(1)] by {
      assert "x"[0] != "a"[0];
    }
    assert LookupFrames(env.frames, "x") == LookupFrames(c.env.frames, "x");
    if k.copies {
      assert c.env.frames == [map[]] && c.env.frames[1..] == [];
      assert LookupFrames(c.env.frames, "x") == None;
    }
  }
}
