/** Calls that pass enough arguments leave no parameter unbound, so that a function that
    compiles never meets an undefined variable. */
module Arguments {
  import opened Wrappers
  import opened Syntax
  import opened Lexical
  import opened Compiler
  import opened Soundness
  import opened Termination

  // ----- enough arguments, read off the program -----

  /** Every parameter beyond the first `n` has a default. */
  predicate EnoughFor(t: Target, n: nat) {
    t.UserTarget? ==> forall i :: n <= i < |t.f.params| ==> t.f.params[i].default.Some?
  }

  /** Whatever function of the table the name may reach, `n` arguments are enough for it. */
  ghost predicate CallSupplied(k: Config, ns: Spaces, name: string, n: nat) {
    forall uses :: Among(ns, uses) ==> EnoughFor(Resolve(k, uses, name), n)
  }

  /** A call that can only be `reduce`, with its closure written in place. */
  ghost predicate ReduceCall(k: Config, ns: Spaces, name: string, es: seq<Expr>) {
    |es| == 3 && LambdaLast(es) && OnlyHof(k, ns, name, 3)
  }

  /** Every call passes enough arguments, lambdas have at most one parameter, or two when
      they are written as the argument of `reduce`, and no name begins with `$`. */
  ghost predicate Supplied(k: Config, ns: Spaces, e: Expr)
    decreases e
  {
    match e
    case Lit(_) => true
    case Ident(x) => !Dollar(x)
    case Strict(_, es) => SuppliedAll(k, ns, es)
    case ArrayLit(es) => SuppliedAll(k, ns, es)
    case And(l, r) => Supplied(k, ns, l) && Supplied(k, ns, r)
    case Or(l, r) => Supplied(k, ns, l) && Supplied(k, ns, r)
    case If(c, t, f) => Supplied(k, ns, c) && Supplied(k, ns, t) && (f.Some? ==> Supplied(k, ns, f.value))
    case Coalesce(l, r) => Supplied(k, ns, l) && Supplied(k, ns, r)
    case Try(b, d) => Supplied(k, ns, b) && (d.Some? ==> Supplied(k, ns, d.value))
    case For(_, _, it, b) => Supplied(k, ns, it) && Supplied(k, ns, b)
    case Raise(m) => Supplied(k, ns, m)
    case Lambda(ps, b) => |ps| <= 1 && Supplied(k, ns, b)
    case Call(name, es) =>
      && CallSupplied(k, ns, name, |es|)
      && if ReduceCall(k, ns, name, es)
         then SuppliedAll(k, ns, es[..2]) && |es[2].params| <= 2 && Supplied(k, ns, es[2].body)
         else SuppliedAll(k, ns, es)
  }

  ghost predicate SuppliedAll(k: Config, ns: Spaces, es: seq<Expr>)
    decreases es
  {
    forall i :: 0 <= i < |es| ==> Supplied(k, ns, es[i])
  }

  ghost predicate SuppliedStmt(k: Config, ns: Spaces, st: Stmt) {
    NoUsesStmt(st) && if st.Use? then ns.None? || st.ns in ns.value else Supplied(k, ns, st.value)
  }

  ghost predicate SuppliedStmts(k: Config, ns: Spaces, stmts: seq<Stmt>) {
    forall i :: 0 <= i < |stmts| ==> SuppliedStmt(k, ns, stmts[i])
  }

  ghost predicate SuppliedFn(k: Config, f: FnDef) {
    GoodFn(k, f) && forall i :: 0 <= i < |f.body| ==> !f.body[i].Use? ==> Supplied(k, Declared(f), f.body[i].value)
  }

  lemma SuppliedBody(k: Config, f: FnDef)
    requires SuppliedFn(k, f)
    ensures SuppliedStmts(k, Declared(f), f.body)
  {
    forall i | 0 <= i < |f.body| ensures SuppliedStmt(k, Declared(f), f.body[i]) {
      assert NoUsesStmt(f.body[i]);
    }
  }

  /** The closures in a value are among these. */
  predicate Within(v: Value, ids: set<nat>) {
    match v
    case Arr(es) => forall i :: 0 <= i < |es| ==> Within(es[i], ids)
    case Obj(m) => forall x :: x in m ==> Within(m[x], ids)
    case Clo(id) => id in ids
    case _ => true
  }

  predicate WithinAll(vs: seq<Value>, ids: set<nat>) {
    forall i :: 0 <= i < |vs| ==> Within(vs[i], ids)
  }

  predicate FrameWithin(f: Frame, ids: set<nat>) {
    forall x :: x in f ==> Within(f[x], ids)
  }

  /** Operators and plain builtins return no closure they were not given. */
  ghost predicate PassOn(k: Config) {
    && (forall op, vs, ids :: WithinAll(vs, ids) && k.prim(op, vs).Ok? ==> Within(k.prim(op, vs).v, ids))
    && (forall n :: n in k.builtins && k.builtins[n].kind.Plain? ==> BuiltinPassesOn(k.builtins[n].kind.f))
  }

  ghost predicate BuiltinPassesOn(f: seq<Value> -> Prim) {
    forall vs, ids :: WithinAll(vs, ids) && f(vs).Ok? ==> Within(f(vs).v, ids)
  }

  ghost predicate SuppliedTable(k: Config) {
    !k.copies && PassOn(k) && forall n :: n in k.fns ==> SuppliedFn(k, k.fns[n])
  }

  // ----- what is true of the state -----

  /** The closures that any collection builtin may be given. */
  function OneParam(s: State): set<nat> {
    set id | 0 <= id < |s.clos| && |s.clos[id].params| <= 1
  }

  /** For every function scope, the namespaces its function declares. */
  type Scopes = seq<Spaces>

  predicate FramesWithin(frames: seq<Frame>, ids: set<nat>) {
    forall i :: 0 <= i < |frames| ==> FrameWithin(frames[i], ids)
  }

  predicate BaseFits(f: Frame, ns: Spaces, ids: set<nat>) {
    FrameWithin(f, ids) && (USES in f ==> Among(ns, UsesOf(Some(f[USES]))))
  }

  ghost predicate ClosureFits(k: Config, c: Closure, s: State, sp: Scopes, ids: set<nat>) {
    && EnvOk(c.env, s) && c.env.base.value < |sp| && FramesWithin(c.env.frames, ids)
    && USES !in c.params && NoUses(c.body) && Supplied(k, sp[c.env.base.value], c.body)
  }

  ghost predicate Tame(k: Config, s: State, sp: Scopes) {
    && |sp| == |s.bases|
    && (forall b :: 0 <= b < |sp| ==> BaseFits(s.bases[b], sp[b], OneParam(s)))
    && (forall c :: 0 <= c < |s.clos| ==> ClosureFits(k, s.clos[c], s, sp, OneParam(s)))
  }

  predicate EnvFits(env: Env, s: State) {
    EnvOk(env, s) && FramesWithin(env.frames, OneParam(s))
  }

  /** The expression may be evaluated here. */
  ghost predicate Runnable(k: Config, env: Env, e: Expr, s: State, sp: Scopes) {
    EnvFits(env, s) && env.base.value < |sp| && NoUses(e) && Supplied(k, sp[env.base.value], e)
  }

  ghost predicate RunnableAll(k: Config, env: Env, es: seq<Expr>, s: State, sp: Scopes) {
    && EnvFits(env, s) && env.base.value < |sp| && (forall i :: 0 <= i < |es| ==> NoUses(es[i]))
    && SuppliedAll(k, sp[env.base.value], es)
  }

  /** What a run keeps, and that it leaves out no parameter and misses no `$` name. */
  ghost predicate Full(k: Config, s: State, sp: Scopes, r: Res, sp': Scopes) {
    Calm(k, s, sp, r, sp') && (r.out.Val? ==> Within(r.out.v, OneParam(r.st)))
  }

  ghost predicate Calm(k: Config, s: State, sp: Scopes, r: Res, sp': Scopes) {
    && sp <= sp' && Tame(k, r.st, sp') && r.st.unbound == s.unbound
    && (r.out.Err? && r.out.e.Undefined? ==> !Dollar(r.out.e.name))
  }

  lemma {:induction v} WithinMore(v: Value, ids: set<nat>, ids': set<nat>)
    requires Within(v, ids) && ids <= ids'
    ensures Within(v, ids')
  {
  }

  lemma FrameMore(f: Frame, ids: set<nat>, ids': set<nat>)
    requires FrameWithin(f, ids) && ids <= ids'
    ensures FrameWithin(f, ids')
  {
    forall x | x in f ensures Within(f[x], ids') {
      WithinMore(f[x], ids, ids');
    }
  }

  lemma FramesMore(fs: seq<Frame>, ids: set<nat>, ids': set<nat>)
    requires FramesWithin(fs, ids) && ids <= ids'
    ensures FramesWithin(fs, ids')
  {
    forall i | 0 <= i < |fs| ensures FrameWithin(fs[i], ids') {
      FrameMore(fs[i], ids, ids');
    }
  }

  lemma OneParamGrows(s: State, s': State)
    requires s.clos <= s'.clos
    ensures OneParam(s) <= OneParam(s')
  {
  }

  lemma RunnableLater(k: Config, env: Env, e: Expr, s: State, sp: Scopes, s': State, sp': Scopes)
    requires Runnable(k, env, e, s, sp) && Grows(s, s') && sp <= sp'
    ensures Runnable(k, env, e, s', sp')
  {
    OneParamGrows(s, s');
    FramesMore(env.frames, OneParam(s), OneParam(s'));
  }

  lemma RunnableAllLater(k: Config, env: Env, es: seq<Expr>, s: State, sp: Scopes, s': State, sp': Scopes)
    requires RunnableAll(k, env, es, s, sp) && Grows(s, s') && sp <= sp'
    ensures RunnableAll(k, env, es, s', sp')
  {
    OneParamGrows(s, s');
    FramesMore(env.frames, OneParam(s), OneParam(s'));
  }

  /** Later function scopes and recorded names change nothing for the others. */
  lemma TameLater(k: Config, s: State, sp: Scopes, s': State, sp': Scopes)
    requires Tame(k, s, sp) && s'.clos == s.clos && sp <= sp' && |sp'| == |s'.bases|
    requires forall b :: 0 <= b < |sp'| ==> BaseFits(s'.bases[b], sp'[b], OneParam(s'))
    ensures Tame(k, s', sp')
  {
    assert OneParam(s') == OneParam(s);
    forall c | 0 <= c < |s'.clos| ensures ClosureFits(k, s'.clos[c], s', sp', OneParam(s')) {
      assert ClosureFits(k, s.clos[c], s, sp, OneParam(s));
    }
  }

  lemma LookupWithin(env: Env, s: State, x: string, k: Config, sp: Scopes)
    requires EnvFits(env, s) && Tame(k, s, sp)
    ensures var v := Lookup(env, s, x); v.Some? ==> Within(v.value, OneParam(s))
  {
    FramesLookup(env.frames, x, OneParam(s));
    assert BaseFits(s.bases[env.base.value], sp[env.base.value], OneParam(s));
  }

  lemma FramesLookup(frames: seq<Frame>, x: string, ids: set<nat>)
    requires FramesWithin(frames, ids)
    ensures var v := LookupFrames(frames, x); v.Some? ==> Within(v.value, ids)
  {
    if frames != [] {
      assert FrameWithin(frames[0], ids);
      FramesLookup(frames[1..], x, ids);
    }
  }

  /** The list of namespaces found here is made of declared ones. */
  lemma UsesDeclared(k: Config, env: Env, s: State, sp: Scopes)
    requires EnvOk(env, s) && Tame(k, s, sp)
    ensures Among(sp[env.base.value], UsesOf(Lookup(env, s, USES)))
  {
    LookupInFrames(env.frames, USES);
    assert BaseFits(s.bases[env.base.value], sp[env.base.value], OneParam(s));
  }

  // ----- no run leaves a parameter unbound -----

  lemma {:induction false} EvalFull(k: Config, fuel: nat, env: Env, depth: nat, e: Expr, s: State, sp: Scopes)
    returns (sp': Scopes)
    requires SuppliedTable(k) && Tame(k, s, sp) && Runnable(k, env, e, s, sp)
    ensures Full(k, s, sp, Eval(k, fuel, env, depth, e, s), sp')
    decreases fuel, 0, e, 1
  {
    hide EvalList, EvalFor, CallFn, PassOn, CallSupplied, Tame, FramesWithin;
    sp' := sp;
    if !TooDeep(k, depth) {
      match e {
        case Lit(_) =>
        case Ident(x) => LookupWithin(env, s, x, k, sp);
        case Strict(op, es) =>
          sp' := ListFull(k, fuel, env, depth, es, s, sp);
          PrimWithin(k, op, EvalList(k, fuel, env, depth, es, s));
        case ArrayLit(es) => sp' := ListFull(k, fuel, env, depth, es, s, sp);
        case And(_, _) => sp' := TwoFull(k, fuel, env, depth, e, s, sp);
        case Or(_, _) => sp' := TwoFull(k, fuel, env, depth, e, s, sp);
        case If(_, _, _) => sp' := ChoiceFull(k, fuel, env, depth, e, s, sp);
        case Coalesce(_, _) => sp' := TwoFull(k, fuel, env, depth, e, s, sp);
        case Try(_, _) => sp' := ChoiceFull(k, fuel, env, depth, e, s, sp);
        case For(_, _, _, _) => sp' := ForFull(k, fuel, env, depth, e, s, sp);
        case Raise(m) => sp' := EvalFull(k, fuel, env, depth, m, s, sp);
        case Lambda(ps, b) => LambdaCalm(k, fuel, env, depth, e, s, sp);
        case Call(_, _) => sp' := CallExprFull(k, fuel, env, depth, e, s, sp);
      }
    }
  }

  lemma PrimWithin(k: Config, op: string, a: Res)
    requires PassOn(k) && (a.out.Val? ==> a.out.v.Arr? && Within(a.out.v, OneParam(a.st)))
    ensures a.out.Val? && k.prim(op, a.out.v.elems).Ok? ==> Within(k.prim(op, a.out.v.elems).v, OneParam(a.st))
  {
    if a.out.Val? {
      assert WithinAll(a.out.v.elems, OneParam(a.st));
    }
  }

  lemma {:induction false} TwoFull(k: Config, fuel: nat, env: Env, depth: nat, e: Expr, s: State, sp: Scopes)
    returns (sp': Scopes)
    requires SuppliedTable(k) && Tame(k, s, sp) && Runnable(k, env, e, s, sp) && !TooDeep(k, depth)
    requires e.And? || e.Or? || e.Coalesce?
    ensures Full(k, s, sp, Eval(k, fuel, env, depth, e, s), sp')
    decreases fuel, 0, e, 0
  {
    hide EvalList, EvalFor, CallFn, PassOn, CallSupplied, Tame, FramesWithin;
    assert Runnable(k, env, e.left, s, sp) && Runnable(k, env, e.right, s, sp);
    sp' := EvalFull(k, fuel, env, depth, e.left, s, sp);
    var a := Eval(k, fuel, env, depth, e.left, s);
    if a.out.Val? && if e.And? then ToBool(a.out.v) else if e.Or? then !ToBool(a.out.v) else a.out.v.Null? {
      RunnableLater(k, env, e.right, s, sp, a.st, sp');
      sp' := EvalFull(k, fuel, env, depth, e.right, a.st, sp');
    }
  }

  lemma {:induction false} ChoiceFull(k: Config, fuel: nat, env: Env, depth: nat, e: Expr, s: State, sp: Scopes)
    returns (sp': Scopes)
    requires SuppliedTable(k) && Tame(k, s, sp) && Runnable(k, env, e, s, sp) && !TooDeep(k, depth)
    requires e.If? || e.Try?
    ensures Full(k, s, sp, Eval(k, fuel, env, depth, e, s), sp')
    decreases fuel, 0, e, 0
  {
    hide EvalList, EvalFor, CallFn, PassOn, CallSupplied, Tame, FramesWithin;
    var first := if e.If? then e.cond else e.body;
    assert Runnable(k, env, first, s, sp);
    sp' := EvalFull(k, fuel, env, depth, first, s, sp);
    var a := Eval(k, fuel, env, depth, first, s);
    var next := if e.Try? then (if a.out.Err? then e.default else None)
                else if !a.out.Val? then None else if ToBool(a.out.v) then Some(e.thn) else e.els;
    if next.Some? {
      assert Runnable(k, env, next.value, s, sp);
      RunnableLater(k, env, next.value, s, sp, a.st, sp');
      sp' := EvalFull(k, fuel, env, depth, next.value, a.st, sp');
    }
  }

  lemma {:induction false} ListFull(k: Config, fuel: nat, env: Env, depth: nat, es: seq<Expr>, s: State, sp: Scopes)
    returns (sp': Scopes)
    requires SuppliedTable(k) && Tame(k, s, sp) && RunnableAll(k, env, es, s, sp)
    ensures Full(k, s, sp, EvalList(k, fuel, env, depth, es, s), sp')
    decreases fuel, 0, es, 0
  {
    hide Eval, CallSupplied, Tame, FramesWithin, SuppliedTable;
    sp' := sp;
    if es != [] {
      assert Runnable(k, env, es[0], s, sp) && RunnableAll(k, env, es[1..], s, sp);
      sp' := EvalFull(k, fuel, env, depth, es[0], s, sp);
      var a := Eval(k, fuel, env, depth, es[0], s);
      if a.out.Val? {
        RunnableAllLater(k, env, es[1..], s, sp, a.st, sp');
        sp' := ListFull(k, fuel, env, depth, es[1..], a.st, sp');
        var b := EvalList(k, fuel, env, depth, es[1..], a.st);
        OneParamGrows(a.st, b.st);
        WithinMore(a.out.v, OneParam(a.st), OneParam(b.st));
      }
    }
  }

  lemma {:induction false} ForFull(k: Config, fuel: nat, env: Env, depth: nat, e: Expr, s: State, sp: Scopes)
    returns (sp': Scopes)
    requires SuppliedTable(k) && Tame(k, s, sp) && Runnable(k, env, e, s, sp) && !TooDeep(k, depth) && e.For?
    ensures Full(k, s, sp, Eval(k, fuel, env, depth, e, s), sp')
    decreases fuel, 0, e, 0
  {
    hide EvalList, EvalFor, CallFn, PassOn, CallSupplied, Tame, FramesWithin;
    assert Runnable(k, env, e.iterable, s, sp);
    sp' := EvalFull(k, fuel, env, depth, e.iterable, s, sp);
    var a := Eval(k, fuel, env, depth, e.iterable, s);
    if a.out.Val? && a.out.v.Arr? {
      RunnableLater(k, env, e, s, sp, a.st, sp');
      sp' := RoundsFull(k, fuel, env, depth, e, a.out.v.elems, 0, a.st, sp');
    }
  }

  lemma {:induction false} RoundsFull(k: Config, fuel: nat, env: Env, depth: nat, e: Expr, items: seq<Value>, i: nat,
                                      s: State, sp: Scopes)
    returns (sp': Scopes)
    requires SuppliedTable(k) && Tame(k, s, sp) && e.For? && Runnable(k, env, e, s, sp)
    requires WithinAll(items, OneParam(s)) && i <= |items|
    ensures Full(k, s, sp, EvalFor(k, fuel, env, depth, e.variable, e.index, e.body, items, i, s), sp')
    decreases fuel, 0, e.body, |items| - i + 2
  {
    hide Eval, SuppliedTable, Tame, Runnable, OneParam;
    sp' := sp;
    if i < |items| && !TooDeep(k, depth) {
      var vars := ForFrame(e.variable, e.index, items[i], i);
      var env' := Env([vars] + env.frames, env.base);
      RoundReady(k, env, e, vars, s, sp);
      sp' := EvalFull(k, fuel, env', depth, e.body, s, sp);
      var a := Eval(k, fuel, env', depth, e.body, s);
      if a.out.Val? {
        RunnableLater(k, env, e, s, sp, a.st, sp');
        OneParamGrows(s, a.st);
        AllMore(items, OneParam(s), OneParam(a.st));
        sp' := RoundsFull(k, fuel, env, depth, e, items, i + 1, a.st, sp');
        var b := EvalFor(k, fuel, env, depth, e.variable, e.index, e.body, items, i + 1, a.st);
        OneParamGrows(a.st, b.st);
        WithinMore(a.out.v, OneParam(a.st), OneParam(b.st));
      }
    }
  }

  lemma AllMore(vs: seq<Value>, ids: set<nat>, ids': set<nat>)
    requires WithinAll(vs, ids) && ids <= ids'
    ensures WithinAll(vs, ids')
  {
    forall i | 0 <= i < |vs| ensures Within(vs[i], ids') {
      WithinMore(vs[i], ids, ids');
    }
  }

  lemma RoundReady(k: Config, env: Env, e: Expr, vars: Frame, s: State, sp: Scopes)
    requires e.For? && Runnable(k, env, e, s, sp)
    requires FrameWithin(vars, OneParam(s)) && vars.Keys <= {e.variable, e.index}
    ensures Runnable(k, Env([vars] + env.frames, env.base), e.body, s, sp)
  {
    assert ([vars] + env.frames)[1..] == env.frames;
  }

  lemma LambdaCalm(k: Config, fuel: nat, env: Env, depth: nat, e: Expr, s: State, sp: Scopes)
    requires !k.copies && Tame(k, s, sp) && !TooDeep(k, depth) && e.Lambda?
    requires EnvFits(env, s) && env.base.value < |sp| && NoUses(e) && Supplied(k, sp[env.base.value], e.body)
    ensures var r := Eval(k, fuel, env, depth, e, s);
      && Calm(k, s, sp, r, sp) && r.out == Val(Clo(|s.clos|)) && |r.st.clos| == |s.clos| + 1
      && r.st.clos[|s.clos|].params == e.params
      && (|e.params| <= 1 ==> Within(r.out.v, OneParam(r.st)))
  {
    var r := Eval(k, fuel, env, depth, e, s);
    OneParamGrows(s, r.st);
    var ids, ids' := OneParam(s), OneParam(r.st);
    FramesMore(env.frames, ids, ids');
    forall b | 0 <= b < |sp| ensures BaseFits(r.st.bases[b], sp[b], ids') {
      assert BaseFits(s.bases[b], sp[b], ids);
      FrameMore(s.bases[b], ids, ids');
    }
    forall c | 0 <= c < |r.st.clos| ensures ClosureFits(k, r.st.clos[c], r.st, sp, ids') {
      if c < |s.clos| {
        assert ClosureFits(k, s.clos[c], s, sp, ids);
        FramesMore(s.clos[c].env.frames, ids, ids');
      }
    }
  }

  // ----- calls -----

  lemma {:induction false} CallExprFull(k: Config, fuel: nat, env: Env, depth: nat, e: Expr, s: State, sp: Scopes)
    returns (sp': Scopes)
    requires SuppliedTable(k) && Tame(k, s, sp) && Runnable(k, env, e, s, sp) && !TooDeep(k, depth) && e.Call?
    ensures Full(k, s, sp, Eval(k, fuel, env, depth, e, s), sp')
    decreases fuel, 0, e, 0
  {
    hide EvalList, EvalFor, CallFn, PassOn, CallSupplied, Tame, FramesWithin, SuppliedAll;
    var ns := sp[env.base.value];
    var a := EvalList(k, fuel, env, depth, e.args, s);
    if ReduceCall(k, ns, e.fn, e.args) {
      assert RunnableAll(k, env, e.args[..2], s, sp);
      sp' := ReduceListCalm(k, fuel, env, depth, e.args, s, sp);
      if a.out.Val? && fuel > 0 {
        RunnableLater(k, env, e, s, sp, a.st, sp');
        sp' := ReduceCallFull(k, fuel - 1, env, depth, e, a.out.v.elems, a.st, sp');
      }
    } else {
      assert RunnableAll(k, env, e.args, s, sp);
      sp' := ListFull(k, fuel, env, depth, e.args, s, sp);
      if a.out.Val? && fuel > 0 {
        RunnableLater(k, env, e, s, sp, a.st, sp');
        sp' := CallFull(k, fuel - 1, env, depth, e.fn, a.out.v.elems, a.st, sp');
      }
    }
  }

  /** A closure of at most two parameters. */
  predicate TwoParam(f: Value, s: State) {
    f.Clo? && f.id < |s.clos| && |s.clos[f.id].params| <= 2
  }

  lemma {:induction false} ReduceListCalm(k: Config, fuel: nat, env: Env, depth: nat, es: seq<Expr>, s: State, sp: Scopes)
    returns (sp': Scopes)
    requires SuppliedTable(k) && Tame(k, s, sp) && !TooDeep(k, depth) && LambdaLast(es)
    requires RunnableAll(k, env, es[..|es| - 1], s, sp)
    requires NoUses(es[|es| - 1]) && |es[|es| - 1].params| <= 2 && Supplied(k, sp[env.base.value], es[|es| - 1].body)
    ensures var r := EvalList(k, fuel, env, depth, es, s);
      && Calm(k, s, sp, r, sp')
      && (r.out.Val? ==>
            WithinAll(r.out.v.elems[..|es| - 1], OneParam(r.st)) && TwoParam(r.out.v.elems[|es| - 1], r.st))
    decreases fuel, 0, es, 0
  {
    hide CallSupplied, Tame, FramesWithin, Supplied;
    if |es| == 1 {
      sp' := sp;
      assert es[1..] == [];
      LambdaCalm(k, fuel, env, depth, es[0], s, sp);
    } else {
      hide Eval;
      assert es[..|es| - 1][0] == es[0] && es[1..][..|es| - 2] == es[..|es| - 1][1..];
      assert Runnable(k, env, es[0], s, sp) && RunnableAll(k, env, es[1..][..|es| - 2], s, sp);
      sp' := EvalFull(k, fuel, env, depth, es[0], s, sp);
      var a := Eval(k, fuel, env, depth, es[0], s);
      if a.out.Val? {
        RunnableAllLater(k, env, es[1..][..|es| - 2], s, sp, a.st, sp');
        sp' := ReduceListCalm(k, fuel, env, depth, es[1..], a.st, sp');
        var b := EvalList(k, fuel, env, depth, es[1..], a.st);
        OneParamGrows(a.st, b.st);
        WithinMore(a.out.v, OneParam(a.st), OneParam(b.st));
        if b.out.Val? {
          var vs := [a.out.v] + b.out.v.elems;
          assert vs[..|es| - 1] == [a.out.v] + b.out.v.elems[..|es| - 2];
        }
      }
    }
  }

  lemma {:induction false} ReduceCallFull(k: Config, fuel: nat, env: Env, depth: nat, e: Expr, args: seq<Value>,
                                          s: State, sp: Scopes)
    returns (sp': Scopes)
    requires SuppliedTable(k) && Tame(k, s, sp) && EnvOk(env, s) && env.base.value < |sp| && e.Call? && |args| == 3
    requires ReduceCall(k, sp[env.base.value], e.fn, e.args)
    requires WithinAll(args[..2], OneParam(s)) && TwoParam(args[2], s)
    ensures Full(k, s, sp, CallFn(k, fuel, env, depth, e.fn, args, s), sp')
    decreases fuel, 3
  {
    hide SuppliedTable, Tame, CallHof, OneParam;
    sp' := sp;
    UsesDeclared(k, env, s, sp);
    var t := Resolve(k, UsesOf(Lookup(env, s, USES)), e.fn);
    assert HofTarget(t, 3);
    assert args[..2][0] == args[0] && args[..2][1] == args[1];
    if t.BuiltinTarget? && !(t.checked && BadArity(t.b, |args|)) {
      sp' := HofFull(k, fuel, t.b.kind.hof, args, s, sp);
    }
  }

  lemma {:induction false} CallFull(k: Config, fuel: nat, env: Env, depth: nat, name: string, args: seq<Value>,
                                    s: State, sp: Scopes)
    returns (sp': Scopes)
    requires SuppliedTable(k) && Tame(k, s, sp) && EnvOk(env, s) && env.base.value < |sp|
    requires WithinAll(args, OneParam(s)) && CallSupplied(k, sp[env.base.value], name, |args|)
    ensures Full(k, s, sp, CallFn(k, fuel, env, depth, name, args, s), sp')
    decreases fuel, 3
  {
    hide Tame, CallHof, CallUser, SuppliedFn;
    sp' := sp;
    UsesDeclared(k, env, s, sp);
    var us := UsesOf(Lookup(env, s, USES));
    ResolvedFrom(k, us, name);
    var t := Resolve(k, us, name);
    if IsDebugName(name) {
      SameHeapTame(k, s, sp, s.(log := s.log + [DebugEntry(name, args)]));
    } else if t.UserTarget? {
      assert EnoughFor(t, |args|);
      sp' := UserFull(k, fuel, depth, t.f, args, s, sp);
    } else if t.BuiltinTarget? && t.b.kind.HigherOrder? && !(t.checked && BadArity(t.b, |args|)) {
      assert forall i :: 0 <= i < |args| && args[i].Clo? ==> args[i].id in OneParam(s);
      sp' := HofFull(k, fuel, t.b.kind.hof, args, s, sp);
    } else if t.BuiltinTarget? && t.b.kind.Plain? {
      assert BuiltinPassesOn(t.b.kind.f);
    }
  }

  lemma SameHeapTame(k: Config, s: State, sp: Scopes, s': State)
    requires Tame(k, s, sp) && s'.bases == s.bases && s'.clos == s.clos
    ensures Tame(k, s', sp)
  {
    TameLater(k, s, sp, s', sp);
  }

  /** No more parameters than a collection builtin passes. */
  predicate TakesEnough(h: Hof, f: Value, s: State) {
    f.Clo? ==> f.id < |s.clos| && |s.clos[f.id].params| <= HofArity(h) - 1
  }

  predicate HofFits(h: Hof, args: seq<Value>, s: State) {
    && (forall i :: 0 <= i < |args| && i < HofArity(h) - 1 ==> Within(args[i], OneParam(s)))
    && (|args| >= HofArity(h) ==> TakesEnough(h, args[HofArity(h) - 1], s))
  }

  lemma {:induction false} HofFull(k: Config, fuel: nat, h: Hof, args: seq<Value>, s: State, sp: Scopes)
    returns (sp': Scopes)
    requires SuppliedTable(k) && Tame(k, s, sp) && HofFits(h, args, s)
    ensures Full(k, s, sp, CallHof(k, fuel, h, args, s), sp')
    decreases fuel, 2, 1
  {
    hide SuppliedTable, Tame, OneParam, HofLoop;
    sp' := sp;
    if |args| >= HofArity(h) && args[0].Arr? {
      sp' := LoopFull(k, fuel, h, args[HofArity(h) - 1], args[0].elems, HofInit(h, args), s, sp);
    }
  }

  lemma {:induction false} LoopFull(k: Config, fuel: nat, h: Hof, f: Value, items: seq<Value>, acc: Value, s: State, sp: Scopes)
    returns (sp': Scopes)
    requires SuppliedTable(k) && Tame(k, s, sp) && TakesEnough(h, f, s)
    requires WithinAll(items, OneParam(s)) && Within(acc, OneParam(s))
    ensures Full(k, s, sp, HofLoop(k, fuel, h, f, items, acc, s), sp')
    decreases fuel, 2, 0, |items|
  {
    hide SuppliedTable, Tame, OneParam, Apply;
    sp' := sp;
    if items != [] {
      var args := HofArgs(h, acc, items[0]);
      sp' := ApplyFull(k, fuel, f, args, s, sp);
      var a := Apply(k, fuel, f, args, s);
      if a.out.Val? {
        var acc' := HofStep(h, acc, items[0], a.out.v);
        OneParamGrows(s, a.st);
        AllMore(items, OneParam(s), OneParam(a.st));
        WithinMore(acc, OneParam(s), OneParam(a.st));
        sp' := LoopFull(k, fuel, h, f, items[1..], acc', a.st, sp');
      }
    }
  }

  lemma {:induction false} ApplyFull(k: Config, fuel: nat, f: Value, args: seq<Value>, s: State, sp: Scopes)
    returns (sp': Scopes)
    requires SuppliedTable(k) && Tame(k, s, sp) && WithinAll(args, OneParam(s))
    requires f.Clo? ==> f.id < |s.clos| && |s.clos[f.id].params| <= |args|
    ensures Full(k, s, sp, Apply(k, fuel, f, args, s), sp')
    decreases fuel, 1
  {
    hide SuppliedTable, Supplied;
    sp' := sp;
    if f.Clo? {
      var c := s.clos[f.id];
      assert ClosureFits(k, c, s, sp, OneParam(s));
      var s1 := s.(unbound := s.unbound + Missing(c.params, |args|));
      assert s1 == s;
      if !TooDeep(k, c.depth + 1) {
        CallReady(c, args, s);
        sp' := EvalFull(k, fuel, CallEnv(c, args), c.depth + 1, c.body, s, sp);
      }
    }
  }

  lemma CallReady(c: Closure, args: seq<Value>, s: State)
    requires EnvOk(c.env, s) && FramesWithin(c.env.frames, OneParam(s)) && USES !in c.params && WithinAll(args, OneParam(s))
    ensures EnvFits(CallEnv(c, args), s)
  {
    assert CallEnv(c, args).frames[1..] == c.env.frames;
    BindWithin(c.params, args, if |c.params| < |args| then |c.params| else |args|, OneParam(s));
  }

  lemma BindWithin(params: seq<string>, args: seq<Value>, n: nat, ids: set<nat>)
    requires n <= |params| && n <= |args| && WithinAll(args, ids)
    ensures FrameWithin(BindUpTo(params, args, n), ids)
  {
  }

  // ----- user functions -----

  lemma {:induction false} UserFull(k: Config, fuel: nat, depth: nat, f: FnDef, args: seq<Value>, s: State, sp: Scopes)
    returns (sp': Scopes)
    requires SuppliedTable(k) && Tame(k, s, sp) && SuppliedFn(k, f)
    requires WithinAll(args, OneParam(s)) && EnoughFor(UserTarget(f), |args|)
    ensures Full(k, s, sp, CallUser(k, fuel, depth, f, args, s), sp')
    decreases fuel, 2, 0, 0
  {
    hide Declared, BindParams, ExecBody, Clean, NoUsesStmt, Supplied, OneParam;
    SuppliedBody(k, f);
    var b := |s.bases|;
    var s1 := s.(bases := s.bases + [map[]]);
    sp' := sp + [Declared(f)];
    AddBase(k, s, sp, Declared(f));
    if !TooDeep(k, depth + 1) {
      BindFull(k, fuel, b, depth + 1, f.params, args, s1, sp');
      var p := BindParams(k, fuel, b, depth + 1, f.params, args, s1);
      if p.out.Val? {
        sp' := BodyFull(k, fuel, b, depth + 1, f.body, Null, p.st, sp');
      }
    }
  }

  lemma AddBase(k: Config, s: State, sp: Scopes, ns: Spaces)
    requires Tame(k, s, sp)
    ensures Tame(k, s.(bases := s.bases + [map[]]), sp + [ns])
    ensures OneParam(s.(bases := s.bases + [map[]])) == OneParam(s)
  {
    var s' := s.(bases := s.bases + [map[]]);
    assert OneParam(s') == OneParam(s);
    forall b | 0 <= b < |sp + [ns]| ensures BaseFits(s'.bases[b], (sp + [ns])[b], OneParam(s')) {
      if b < |sp| {
        assert BaseFits(s.bases[b], sp[b], OneParam(s));
      }
    }
    TameLater(k, s, sp, s', sp + [ns]);
  }

  lemma SetTame(k: Config, s: State, sp: Scopes, b: nat, x: string, v: Value)
    requires Tame(k, s, sp) && b < |s.bases| && Within(v, OneParam(s))
    requires x == USES ==> Among(sp[b], UsesOf(Some(v)))
    ensures Tame(k, SetBase(s, b, x, v), sp) && OneParam(SetBase(s, b, x, v)) == OneParam(s)
  {
    hide Among;
    var s' := SetBase(s, b, x, v);
    assert OneParam(s') == OneParam(s);
    forall c | 0 <= c < |sp| ensures BaseFits(s'.bases[c], sp[c], OneParam(s')) {
      assert BaseFits(s.bases[c], sp[c], OneParam(s));
    }
    TameLater(k, s, sp, s', sp);
  }

  lemma {:induction false} BindFull(k: Config, fuel: nat, b: nat, depth: nat, params: seq<Param>, args: seq<Value>,
                                    s: State, sp: Scopes)
    requires Tame(k, s, sp) && b < |s.bases| && PlainParams(params) && WithinAll(args, OneParam(s))
    requires forall i :: |args| <= i < |params| ==> params[i].default.Some?
    ensures Full(k, s, sp, BindParams(k, fuel, b, depth, params, args, s), sp)
    decreases params
  {
    hide Tame, OneParam;
    if params != [] {
      var p := params[0];
      if args != [] {
        SetTame(k, s, sp, b, p.name, args[0]);
        BindFull(k, fuel, b, depth, params[1..], args[1..], SetBase(s, b, p.name, args[0]), sp);
      } else if !TooDeep(k, depth) {
        var v := LitValue(p.default.value.lit);
        assert Eval(k, fuel, Env([], Some(b)), depth, p.default.value, s) == Res(Val(v), s);
        SetTame(k, s, sp, b, p.name, v);
        BindFull(k, fuel, b, depth, params[1..], [], SetBase(s, b, p.name, v), sp);
      }
    }
  }

  lemma {:induction false} BodyFull(k: Config, fuel: nat, b: nat, depth: nat, stmts: seq<Stmt>, result: Value,
                                    s: State, sp: Scopes)
    returns (sp': Scopes)
    requires SuppliedTable(k) && Tame(k, s, sp) && b < |s.bases| && b < |sp| && Within(result, OneParam(s))
    requires SuppliedStmts(k, sp[b], stmts)
    ensures Full(k, s, sp, ExecBody(k, fuel, b, depth, stmts, result, s), sp')
    decreases fuel, 1, stmts, 1
  {
    hide SuppliedTable, Tame, OneParam, SuppliedStmt, ExecStmt;
    sp' := sp;
    if stmts != [] {
      sp' := StmtFull(k, fuel, b, depth, stmts[0], s, sp);
      var a := ExecStmt(k, fuel, b, depth, stmts[0], s);
      if a.out.Val? {
        sp' := BodyFull(k, fuel, b, depth, stmts[1..], a.out.v, a.st, sp');
      }
    }
  }

  lemma {:induction false} StmtFull(k: Config, fuel: nat, b: nat, depth: nat, stmt: Stmt, s: State, sp: Scopes)
    returns (sp': Scopes)
    requires SuppliedTable(k) && Tame(k, s, sp) && b < |s.bases| && b < |sp| && SuppliedStmt(k, sp[b], stmt)
    ensures Full(k, s, sp, ExecStmt(k, fuel, b, depth, stmt, s), sp')
    decreases fuel, 1, stmt, 0
  {
    hide SuppliedTable, Tame, OneParam, Supplied, NoUses, Eval;
    sp' := sp;
    var env := Env([], Some(b));
    if !TooDeep(k, depth) {
      if stmt.Use? {
        UsesDeclared(k, env, s, sp);
        var us := UsesOf(Lookup(env, s, USES));
        LookupWithin(env, s, USES, k, sp);
        assert Within(Arr(us + [Str(stmt.ns)]), OneParam(s));
        SetTame(k, s, sp, b, USES, Arr(us + [Str(stmt.ns)]));
      } else {
        sp' := EvalFull(k, fuel, env, depth, stmt.value, s, sp);
        var a := Eval(k, fuel, env, depth, stmt.value, s);
        if stmt.Let? && a.out.Val? {
          SetTame(k, a.st, sp', b, stmt.name, a.out.v);
        }
      }
    }
  }

  // ----- the whole run -----

  lemma {:induction false} NamedFull(k: Config, fuel: nat, b: nat, params: seq<Param>, args: Frame, s: State, sp: Scopes)
    requires Tame(k, s, sp) && b < |s.bases| && PlainParams(params) && FrameWithin(args, OneParam(s))
    ensures Full(k, s, sp, BindNamed(k, fuel, b, params, args, s), sp)
    decreases params
  {
    hide Tame, OneParam;
    if params != [] {
      var p := params[0];
      if p.name !in args && p.default.Some? {
        if !TooDeep(k, 0) {
          var v := LitValue(p.default.value.lit);
          assert Eval(k, fuel, Env([], Some(b)), 0, p.default.value, s) == Res(Val(v), s);
          SetTame(k, s, sp, b, p.name, v);
          NamedFull(k, fuel, b, params[1..], args, SetBase(s, b, p.name, v), sp);
        }
      } else {
        var v := if p.name in args then args[p.name] else Null;
        SetTame(k, s, sp, b, p.name, v);
        NamedFull(k, fuel, b, params[1..], args, SetBase(s, b, p.name, v), sp);
      }
    }
  }

  /** Nothing is left out at any call of any run. */
  lemma {:induction false} NothingUnbound(k: Config, fuel: nat, f: FnDef, args: Frame)
    requires SuppliedTable(k) && SuppliedFn(k, f) && FrameWithin(args, {})
    ensures var r := Execute(k, fuel, f, args);
      r.st.unbound == {} && (r.out.Err? && r.out.e.Undefined? ==> !Dollar(r.out.e.name))
  {
    hide Declared, BindNamed, ExecBody, Clean, NoUsesStmt, Supplied;
    SuppliedBody(k, f);
    var s := State([map[]], [], [], {});
    var sp := [Declared(f)];
    assert OneParam(s) == {};
    NamedFull(k, fuel, 0, f.params, args, s, sp);
    var p := BindNamed(k, fuel, 0, f.params, args, s);
    if p.out.Val? {
      var _ := BodyFull(k, fuel, 0, 0, f.body, Null, p.st, sp);
    }
  }

  /** A function that compiles, over a table of such functions, with enough arguments at
      every call and no `$` names, never ends in an undefined variable or function. */
  lemma EnoughArgumentsNoUndefined(k: Config, fuel: nat, f: FnDef, args: Frame)
    requires SuppliedTable(k) && SuppliedFn(k, f) && FrameWithin(args, {})
    ensures var r := Execute(k, fuel, f, args).out;
      r.Err? ==> !r.e.Undefined? && !r.e.NotDefined?
  {
    NothingUnbound(k, fuel, f, args);
    assert GoodTable(k);
    CleanRunsFindTheirNames(k, fuel, f, args);
  }

  // ----- what an omitted parameter does -----

  /** A parameter that the call left out is looked up where the lambda was written. */
  lemma OmittedParameter(k: Config, fuel: nat, id: nat, args: seq<Value>, x: string, s: State)
    requires id < |s.clos| && s.clos[id].body == Ident(x) && !TooDeep(k, s.clos[id].depth + 1)
    requires forall i :: 0 <= i < |args| && i < |s.clos[id].params| ==> s.clos[id].params[i] != x
    ensures var v := Lookup(s.clos[id].env, s, x);
      Apply(k, fuel, Clo(id), args, s).out == if v.Some? then Val(v.value) else Err(Undefined(x))
  {
    var c := s.clos[id];
    var s1 := s.(unbound := s.unbound + Missing(c.params, |args|));
    assert CallEnv(c, args).frames[1..] == c.env.frames;
    assert Lookup(c.env, s1, x) == Lookup(c.env, s, x);
    assert Lookup(CallEnv(c, args), s1, x) == Lookup(c.env, s1, x);
  }

  /** `map([1], (a, b) => b)` */
  const SHORT_CALL: FnDef := FnDef([], [
    ExprStmt(Call("map", [ArrayLit([Lit(NumLit(1))]), Lambda(["a", "b"], Ident("b"))]))])

  lemma ShortCallChecks(k: Config)
    requires MapIsBuiltin(k)
    ensures Errors(k, SHORT_CALL.body[0].value, {}, []) == []
  {
    var es := SHORT_CALL.body[0].value.args;
    assert ListErrors(k, [Lit(NumLit(1))], {}, []) == [];
    assert Errors(k, es[1].body, {} + Names(["a", "b"]), []) == [];
    assert es[1..] == [es[1]] && es[1..][1..] == [];
    assert ListErrors(k, es[1..], {}, []) == [];
    assert "map" !in LEGACY;
  }

  lemma ShortCallCompiles(k: Config)
    requires MapIsBuiltin(k)
    ensures GoodFn(k, SHORT_CALL)
  {
    hide Errors;
    ShortCallChecks(k);
    BodyStep(k, SHORT_CALL.body, {}, []);
    assert SHORT_CALL.body[1..] == [];
    assert ParamNames([]) == {};
    assert |USES| == 8 && |"a"| == |"b"| == 1;
  }

  /** It compiles, and every run of it ends in the undefined variable `b`. */
  lemma ShortCallRuns(k: Config, fuel: nat)
    requires MapIsBuiltin(k) && !k.copies && fuel > 0
    ensures Execute(k, fuel, SHORT_CALL, map[]).out == Err(Undefined("b"))
  {
    hide EvalList, CallFn, HofLoop, Apply;
    var env := Env([], Some(0));
    var s := State([map[]], [], [], {});
    var s1 := s.(clos := [Closure(["a", "b"], Ident("b"), env, 0)]);
    var es := SHORT_CALL.body[0].value.args;
    ListOfOne(k, fuel, env, 0, Lit(NumLit(1)), s);
    assert Eval(k, fuel, env, 0, es[0], s) == Res(Val(Arr([Num(1)])), s);
    assert s.clos + [s1.clos[0]] == s1.clos;
    assert Eval(k, fuel, env, 0, es[1], s) == Res(Val(Clo(0)), s1);
    MapCall(k, fuel, env, 0, es, [Num(1)], Clo(0), s, s1);
    ShortCallFails(k, fuel - 1, env, s1);
    assert ExecStmt(k, fuel, 0, 0, SHORT_CALL.body[0], s).out == Err(Undefined("b"));
  }

  lemma ShortCallFails(k: Config, fuel: nat, env: Env, s: State)
    requires s == State([map[]], [Closure(["a", "b"], Ident("b"), env, 0)], [], {}) && env == Env([], Some(0))
    ensures HofLoop(k, fuel, MapHof, Clo(0), [Num(1)], Arr([]), s).out == Err(Undefined("b"))
  {
    MapOverOne(k, fuel, Clo(0), Num(1), s);
    assert "a"[0] != "b"[0];
    OmittedParameter(k, fuel, 0, [Num(1)], "b", s);
  }
}
