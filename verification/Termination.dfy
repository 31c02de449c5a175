/** What the call-depth limit buys: with lambdas written directly as arguments of the
    collection builtins every run ends within the limit; a closure passed to itself
    never meets it. */
module Termination {
  import opened Wrappers
  import opened Chars
  import opened Syntax
  import opened Lexical

  const DEFAULT_MAX_CALL_DEPTH: nat := 1000

  /** The executor's limit for a configured one: zero asks for the default, a negative
      value switches the limit off, which the executor writes as zero. */
  function ResolveMaxDepth(configured: int): (limit: nat)
    ensures limit == 0 <==> configured < 0
    ensures configured > 0 ==> limit == configured
    ensures configured == 0 ==> limit == 1000
  {
    if configured == 0 then DEFAULT_MAX_CALL_DEPTH
    else if configured < 0 then 0
    else configured
  }

  // ----- values and programs without stray closures -----

  predicate Flat(v: Value) {
    match v
    case Arr(es) => forall i :: 0 <= i < |es| ==> Flat(es[i])
    case Obj(m) => forall x :: x in m ==> Flat(m[x])
    case Clo(_) => false
    case _ => true
  }

  predicate FlatAll(vs: seq<Value>) {
    forall i :: 0 <= i < |vs| ==> Flat(vs[i])
  }

  predicate FlatFrame(f: Frame) {
    forall x :: x in f ==> Flat(f[x])
  }

  predicate FlatEnv(env: Env) {
    forall i :: 0 <= i < |env.frames| ==> FlatFrame(env.frames[i])
  }

  predicate FlatState(s: State) {
    forall b :: 0 <= b < |s.bases| ==> FlatFrame(s.bases[b])
  }

  /** Operators and plain builtins make no closures of their own. */
  ghost predicate FlatPrims(k: Config) {
    && (forall op, vs :: FlatAll(vs) && k.prim(op, vs).Ok? ==> Flat(k.prim(op, vs).v))
    && (forall n :: n in k.builtins && k.builtins[n].kind.Plain? ==> FlatBuiltin(k.builtins[n].kind.f))
  }

  ghost predicate FlatBuiltin(f: seq<Value> -> Prim) {
    forall vs :: FlatAll(vs) && f(vs).Ok? ==> Flat(f(vs).v)
  }

  /** What is known of the namespaces in force: which ones they are among, if anything. */
  type Spaces = Option<set<string>>

  predicate Among(ns: Spaces, uses: seq<Value>) {
    ns.Some? ==> forall i :: 0 <= i < |uses| ==> uses[i].Str? && uses[i].s in ns.value
  }

  /** A local variable of the executor's own name for the list hides the list. */
  function Hidden(ns: Spaces, names: set<string>): Spaces {
    if USES in names then None else ns
  }

  /** The namespaces a function declares. */
  function Declared(f: FnDef): Spaces {
    if exists i :: 0 <= i < |f.params| && f.params[i].name == USES then None
    else if exists i :: 0 <= i < |f.body| && f.body[i].Let? && f.body[i].name == USES then None
    else Some(set i | 0 <= i < |f.body| && f.body[i].Use? :: f.body[i].ns)
  }

  /** The list found here is made of such namespaces. */
  predicate UsesFit(ns: Spaces, env: Env, s: State) {
    (env.base.Some? ==> env.base.value < |s.bases|) && Among(ns, UsesOf(Lookup(env, s, USES)))
  }

  lemma UsesLater(ns: Spaces, env: Env, s: State, s': State)
    requires UsesFit(ns, env, s) && Grows(s, s')
    ensures UsesFit(ns, env, s')
  {
    assert Lookup(env, s', USES) == Lookup(env, s, USES);
  }

  lemma UsesPushed(ns: Spaces, env: Env, s: State, vars: Frame, names: set<string>)
    requires UsesFit(ns, env, s) && vars.Keys <= names
    ensures UsesFit(Hidden(ns, names), Env([vars] + env.frames, env.base), s)
  {
    assert ([vars] + env.frames)[1..] == env.frames;
  }

  /** Under any such namespaces, `name` is a collection builtin of `n` arguments. */
  ghost predicate OnlyHof(k: Config, ns: Spaces, name: string, n: nat) {
    !IsDebugName(name) && forall uses :: Among(ns, uses) ==> HofTarget(Resolve(k, uses, name), n)
  }

  predicate HofTarget(t: Target, n: nat) {
    t.NoTarget? || (t.BuiltinTarget? && t.b.kind.HigherOrder? && HofArity(t.b.kind.hof) == n)
  }

  /** Lambdas stand only as the last argument of a collection builtin. */
  ghost predicate Direct(k: Config, ns: Spaces, e: Expr)
    decreases e
  {
    match e
    case Lit(_) => true
    case Ident(_) => true
    case Strict(_, es) => DirectAll(k, ns, es)
    case ArrayLit(es) => DirectAll(k, ns, es)
    case And(l, r) => Direct(k, ns, l) && Direct(k, ns, r)
    case Or(l, r) => Direct(k, ns, l) && Direct(k, ns, r)
    case If(c, t, f) => Direct(k, ns, c) && Direct(k, ns, t) && (f.Some? ==> Direct(k, ns, f.value))
    case Coalesce(l, r) => Direct(k, ns, l) && Direct(k, ns, r)
    case Try(b, d) => Direct(k, ns, b) && (d.Some? ==> Direct(k, ns, d.value))
    case For(x, i, it, b) => Direct(k, ns, it) && Direct(k, Hidden(ns, {x, i}), b)
    case Raise(x) => Direct(k, ns, x)
    case Lambda(_, _) => false
    case Call(name, es) =>
      if LambdaLast(es)
      then OnlyHof(k, ns, name, |es|) && DirectAll(k, ns, es[..|es| - 1]) && DirectBody(k, ns, es[|es| - 1])
      else DirectAll(k, ns, es)
  }

  predicate LambdaLast(es: seq<Expr>) {
    es != [] && es[|es| - 1].Lambda?
  }

  ghost predicate DirectAll(k: Config, ns: Spaces, es: seq<Expr>)
    decreases es
  {
    forall i :: 0 <= i < |es| ==> Direct(k, ns, es[i])
  }

  /** The same of a lambda's body. */
  ghost predicate DirectBody(k: Config, ns: Spaces, e: Expr)
    requires e.Lambda?
    decreases e, 0
  {
    Direct(k, Hidden(ns, set x | x in e.params), e.body)
  }

  ghost predicate DirectParams(k: Config, ns: Spaces, params: seq<Param>) {
    forall i :: 0 <= i < |params| ==>
      && (params[i].name == USES ==> ns.None?)
      && (params[i].default.Some? ==> Direct(k, ns, params[i].default.value))
  }

  ghost predicate DirectStmts(k: Config, ns: Spaces, stmts: seq<Stmt>) {
    forall i :: 0 <= i < |stmts| ==> DirectStmt(k, ns, stmts[i])
  }

  ghost predicate DirectStmt(k: Config, ns: Spaces, st: Stmt) {
    match st
    case Let(x, e) => (x == USES ==> ns.None?) && Direct(k, ns, e)
    case Return(e) => Direct(k, ns, e)
    case ExprStmt(e) => Direct(k, ns, e)
    case Use(x) => ns.None? || x in ns.value
  }

  /** Every expression of the function is direct under the namespaces it declares. */
  ghost predicate DirectFn(k: Config, f: FnDef) {
    && (forall i :: 0 <= i < |f.params| ==>
         f.params[i].default.Some? ==> Direct(k, Declared(f), f.params[i].default.value))
    && (forall i :: 0 <= i < |f.body| ==> !f.body[i].Use? ==> Direct(k, Declared(f), f.body[i].value))
  }

  lemma DirectParts(k: Config, f: FnDef)
    requires DirectFn(k, f)
    ensures DirectParams(k, Declared(f), f.params) && DirectStmts(k, Declared(f), f.body)
  {
  }

  /** A program of such functions. */
  ghost predicate DirectTable(k: Config) {
    FlatPrims(k) && forall n :: n in k.fns ==> DirectFn(k, k.fns[n])
  }

  /** Such a program under a positive limit. */
  ghost predicate Limited(k: Config) {
    k.limit > 0 && DirectTable(k)
  }

  /** Enough stack: the calls a positive limit still allows at this depth. */
  predicate Enough(k: Config, fuel: nat, depth: nat) {
    k.limit > 0 && fuel + depth > k.limit
  }

  /** The values stay free of closures, and with enough stack the run ends. */
  ghost predicate Fine(enough: bool, r: Res) {
    (enough ==> !r.out.Overflow?) && (r.out.Val? ==> Flat(r.out.v)) && FlatState(r.st)
  }

  // ----- every run ends within the limit -----

  lemma {:induction false} EvalEnds(k: Config, ns: Spaces, fuel: nat, env: Env, depth: nat, e: Expr, s: State)
    requires DirectTable(k) && FlatEnv(env) && FlatState(s) && UsesFit(ns, env, s) && Direct(k, ns, e)
    ensures Fine(Enough(k, fuel, depth), Eval(k, fuel, env, depth, e, s))
    decreases fuel, 0, e, 1
  {
    hide EvalList, EvalFor, CallFn, DirectTable, FlatEnv;
    if !TooDeep(k, depth) {
      match e {
        case Lit(_) =>
        case Ident(x) => LookupFlat(env, s, x);
        case Strict(op, es) =>
          ListEnds(k, ns, fuel, env, depth, es, s);
          PrimFlat(k, op, EvalList(k, fuel, env, depth, es, s));
        case ArrayLit(es) => ListEnds(k, ns, fuel, env, depth, es, s);
        case And(_, _) => TwoEnds(k, ns, fuel, env, depth, e, s);
        case Or(_, _) => TwoEnds(k, ns, fuel, env, depth, e, s);
        case If(_, _, _) => ChoiceEnds(k, ns, fuel, env, depth, e, s);
        case Coalesce(_, _) => TwoEnds(k, ns, fuel, env, depth, e, s);
        case Try(_, _) => ChoiceEnds(k, ns, fuel, env, depth, e, s);
        case For(_, _, _, _) => ForEnds(k, ns, fuel, env, depth, e, s);
        case Raise(m) => EvalEnds(k, ns, fuel, env, depth, m, s);
        case Call(_, _) => CallEnds(k, ns, fuel, env, depth, e, s);
      }
    }
  }

  lemma LookupFlat(env: Env, s: State, x: string)
    requires FlatEnv(env) && FlatState(s)
    ensures var v := Lookup(env, s, x); v.Some? ==> Flat(v.value)
  {
    FramesFlat(env.frames, x);
  }

  lemma FramesFlat(frames: seq<Frame>, x: string)
    requires forall i :: 0 <= i < |frames| ==> FlatFrame(frames[i])
    ensures var v := LookupFrames(frames, x); v.Some? ==> Flat(v.value)
  {
  }

  lemma PrimFlat(k: Config, op: string, a: Res)
    requires DirectTable(k) && (a.out.Val? ==> a.out.v.Arr? && Flat(a.out.v))
    ensures a.out.Val? && k.prim(op, a.out.v.elems).Ok? ==> Flat(k.prim(op, a.out.v.elems).v)
  {
    if a.out.Val? {
      assert FlatAll(a.out.v.elems);
    }
  }

  lemma {:induction false} TwoEnds(k: Config, ns: Spaces, fuel: nat, env: Env, depth: nat, e: Expr, s: State)
    requires DirectTable(k) && FlatEnv(env) && FlatState(s) && UsesFit(ns, env, s) && Direct(k, ns, e)
    requires (e.And? || e.Or? || e.Coalesce?) && !TooDeep(k, depth)
    ensures Fine(Enough(k, fuel, depth), Eval(k, fuel, env, depth, e, s))
    decreases fuel, 0, e, 0
  {
    hide EvalList, EvalFor, CallFn, DirectTable, FlatEnv, FlatState, UsesFit;
    EvalEnds(k, ns, fuel, env, depth, e.left, s);
    var s' := Eval(k, fuel, env, depth, e.left, s).st;
    UsesLater(ns, env, s, s');
    EvalEnds(k, ns, fuel, env, depth, e.right, s');
  }

  lemma {:induction false} ChoiceEnds(k: Config, ns: Spaces, fuel: nat, env: Env, depth: nat, e: Expr, s: State)
    requires DirectTable(k) && FlatEnv(env) && FlatState(s) && UsesFit(ns, env, s) && Direct(k, ns, e)
    requires (e.If? || e.Try?) && !TooDeep(k, depth)
    ensures Fine(Enough(k, fuel, depth), Eval(k, fuel, env, depth, e, s))
    decreases fuel, 0, e, 0
  {
    hide EvalList, EvalFor, CallFn, DirectTable, FlatEnv, FlatState, UsesFit;
    var first := if e.If? then e.cond else e.body;
    EvalEnds(k, ns, fuel, env, depth, first, s);
    var s' := Eval(k, fuel, env, depth, first, s).st;
    UsesLater(ns, env, s, s');
    if e.If? {
      EvalEnds(k, ns, fuel, env, depth, e.thn, s');
    }
    var last := if e.If? then e.els else e.default;
    if last.Some? {
      EvalEnds(k, ns, fuel, env, depth, last.value, s');
    }
  }

  lemma {:induction false} ListEnds(k: Config, ns: Spaces, fuel: nat, env: Env, depth: nat, es: seq<Expr>, s: State)
    requires DirectTable(k) && FlatEnv(env) && FlatState(s) && UsesFit(ns, env, s) && DirectAll(k, ns, es)
    ensures Fine(Enough(k, fuel, depth), EvalList(k, fuel, env, depth, es, s))
    decreases fuel, 0, es, 0
  {
    hide Eval, DirectTable, FlatEnv, FlatState, UsesFit;
    if es != [] {
      EvalEnds(k, ns, fuel, env, depth, es[0], s);
      var s' := Eval(k, fuel, env, depth, es[0], s).st;
      UsesLater(ns, env, s, s');
      ListEnds(k, ns, fuel, env, depth, es[1..], s');
    }
  }

  lemma {:induction false} ForEnds(k: Config, ns: Spaces, fuel: nat, env: Env, depth: nat, e: Expr, s: State)
    requires DirectTable(k) && FlatEnv(env) && FlatState(s) && UsesFit(ns, env, s) && Direct(k, ns, e)
    requires e.For? && !TooDeep(k, depth)
    ensures Fine(Enough(k, fuel, depth), Eval(k, fuel, env, depth, e, s))
    decreases fuel, 0, e, 0
  {
    hide EvalList, CallFn, EvalFor, DirectTable, FlatEnv, FlatState, UsesFit;
    EvalEnds(k, ns, fuel, env, depth, e.iterable, s);
    var a := Eval(k, fuel, env, depth, e.iterable, s);
    UsesLater(ns, env, s, a.st);
    if a.out.Val? && a.out.v.Arr? {
      RoundsEnd(k, ns, fuel, env, depth, e.variable, e.index, e.body, a.out.v.elems, 0, a.st);
    }
  }

  lemma {:induction false} RoundsEnd(k: Config, ns: Spaces, fuel: nat, env: Env, depth: nat, x: string, index: string,
                                     body: Expr, items: seq<Value>, i: nat, s: State)
    requires DirectTable(k) && FlatEnv(env) && FlatState(s) && UsesFit(ns, env, s) && Direct(k, Hidden(ns, {x, index}), body)
    requires FlatAll(items) && i <= |items|
    ensures Fine(Enough(k, fuel, depth), EvalFor(k, fuel, env, depth, x, index, body, items, i, s))
    decreases fuel, 0, body, |items| - i + 2
  {
    hide Eval, DirectTable, FlatState, UsesFit, Direct;
    if i < |items| && !TooDeep(k, depth) {
      var vars := ForFrame(x, index, items[i], i);
      var env' := Env([vars] + env.frames, env.base);
      UsesPushed(ns, env, s, vars, {x, index});
      EvalEnds(k, Hidden(ns, {x, index}), fuel, env', depth, body, s);
      var s' := Eval(k, fuel, env', depth, body, s).st;
      UsesLater(ns, env, s, s');
      RoundsEnd(k, ns, fuel, env, depth, x, index, body, items, i + 1, s');
    }
  }

  lemma {:induction false} CallEnds(k: Config, ns: Spaces, fuel: nat, env: Env, depth: nat, e: Expr, s: State)
    requires DirectTable(k) && FlatEnv(env) && FlatState(s) && UsesFit(ns, env, s) && Direct(k, ns, e)
    requires e.Call? && !TooDeep(k, depth)
    ensures Fine(Enough(k, fuel, depth), Eval(k, fuel, env, depth, e, s))
    decreases fuel, 0, e, 0
  {
    hide EvalFor, EvalList, CallFn, DirectTable, FlatEnv, FlatState, UsesFit;
    var es := e.args;
    var a := EvalList(k, fuel, env, depth, es, s);
    if LambdaLast(es) {
      LambdaListEnds(k, ns, fuel, env, depth, es, s);
      UsesLater(ns, env, s, a.st);
      if a.out.Val? && fuel > 0 {
        DirectCallEnds(k, ns, fuel - 1, env, depth, e, a.out.v.elems, a.st);
      }
    } else {
      ListEnds(k, ns, fuel, env, depth, es, s);
      if a.out.Val? && fuel > 0 {
        FlatCallEnds(k, fuel - 1, env, depth, e.fn, a.out.v.elems, a.st);
      }
    }
  }

  /** `Clo(id)` is the lambda `e`, written at this depth where the namespaces are such. */
  ghost predicate Written(k: Config, ns: Spaces, v: Value, e: Expr, depth: nat, s: State) {
    && e.Lambda? && v.Clo? && v.id < |s.clos|
    && s.clos[v.id].params == e.params && s.clos[v.id].body == e.body && s.clos[v.id].depth == depth
    && FlatEnv(s.clos[v.id].env) && UsesFit(ns, s.clos[v.id].env, s)
  }

  lemma WrittenLater(k: Config, ns: Spaces, v: Value, e: Expr, depth: nat, s: State, s': State)
    requires Written(k, ns, v, e, depth, s) && Grows(s, s')
    ensures Written(k, ns, v, e, depth, s')
  {
    UsesLater(ns, s.clos[v.id].env, s, s');
  }

  lemma {:induction false} DirectCallEnds(k: Config, ns: Spaces, fuel: nat, env: Env, depth: nat, e: Expr,
                                          args: seq<Value>, s: State)
    requires DirectTable(k) && FlatState(s) && UsesFit(ns, env, s)
    requires e.Call? && LambdaLast(e.args) && Direct(k, ns, e) && |args| == |e.args|
    requires FlatAll(args[..|args| - 1]) && Written(k, ns, args[|args| - 1], e.args[|args| - 1], depth, s)
    ensures Fine(Enough(k, fuel, depth + 1), CallFn(k, fuel, env, depth, e.fn, args, s))
    decreases fuel, 3
  {
    hide DirectTable, FlatState, CallHof;
    var t := Resolve(k, UsesOf(Lookup(env, s, USES)), e.fn);
    assert HofTarget(t, |args|);
    if t.BuiltinTarget? {
      HofEnds(k, ns, fuel, depth, t.b.kind.hof, args, e.args[|args| - 1], s);
    }
  }

  lemma CaptureUses(k: Config, ns: Spaces, env: Env, s: State)
    requires UsesFit(ns, env, s) && FlatEnv(env) && FlatState(s)
    ensures UsesFit(ns, Capture(k, env, s), s) && FlatEnv(Capture(k, env, s))
  {
    if k.copies && env.base.Some? {
      AppendedLookup(env.frames, s.bases[env.base.value], USES);
    }
  }

  lemma AppendedLookup(fs: seq<Frame>, g: Frame, x: string)
    ensures LookupFrames(fs + [g], x) ==
      if LookupFrames(fs, x).Some? then LookupFrames(fs, x) else if x in g then Some(g[x]) else None
  {
    if fs != [] {
      AppendedLookup(fs[1..], g, x);
      assert (fs + [g])[1..] == fs[1..] + [g];
    } else {
      assert [g][1..] == [];
    }
  }

  lemma {:induction false} LambdaListEnds(k: Config, ns: Spaces, fuel: nat, env: Env, depth: nat, es: seq<Expr>, s: State)
    requires DirectTable(k) && FlatEnv(env) && FlatState(s) && UsesFit(ns, env, s)
    requires LambdaLast(es) && DirectAll(k, ns, es[..|es| - 1]) && !TooDeep(k, depth)
    ensures var r := EvalList(k, fuel, env, depth, es, s);
      && (Enough(k, fuel, depth) ==> !r.out.Overflow?) && FlatState(r.st)
      && (r.out.Val? ==>
        FlatAll(r.out.v.elems[..|es| - 1]) && Written(k, ns, r.out.v.elems[|es| - 1], es[|es| - 1], depth, r.st))
    decreases fuel, 0, es, 0
  {
    hide DirectTable, FlatEnv, UsesFit, Direct;
    var a := Eval(k, fuel, env, depth, es[0], s);
    if |es| == 1 {
      assert es[1..] == [];
      CaptureUses(k, ns, env, s);
      UsesLater(ns, Capture(k, env, s), s, a.st);
    } else {
      hide Eval, Written, FlatState;
      assert es[..|es| - 1][0] == es[0] && es[1..][..|es| - 2] == es[..|es| - 1][1..];
      EvalEnds(k, ns, fuel, env, depth, es[0], s);
      UsesLater(ns, env, s, a.st);
      LambdaListEnds(k, ns, fuel, env, depth, es[1..], a.st);
      var b := EvalList(k, fuel, env, depth, es[1..], a.st);
      if a.out.Val? && b.out.Val? {
        var vs := [a.out.v] + b.out.v.elems;
        assert vs[..|es| - 1] == [a.out.v] + b.out.v.elems[..|es| - 2];
      }
    }
  }

  lemma {:induction false} HofEnds(k: Config, ns: Spaces, fuel: nat, depth: nat, h: Hof, args: seq<Value>, e: Expr, s: State)
    requires DirectTable(k) && FlatState(s) && |args| == HofArity(h)
    requires FlatAll(args[..|args| - 1]) && Written(k, ns, args[|args| - 1], e, depth, s) && DirectBody(k, ns, e)
    ensures Fine(Enough(k, fuel, depth + 1), CallHof(k, fuel, h, args, s))
    decreases fuel, 2, 1
  {
    hide DirectTable, FlatState, Written, HofLoop;
    assert args[..|args| - 1][0] == args[0];
    if args[0].Arr? {
      var acc := HofInit(h, args);
      assert h == ReduceHof ==> args[..|args| - 1][1] == args[1];
      LoopEnds(k, ns, fuel, depth, h, args[|args| - 1], args[0].elems, acc, e, s);
    }
  }

  lemma {:induction false} LoopEnds(k: Config, ns: Spaces, fuel: nat, depth: nat, h: Hof, f: Value, items: seq<Value>,
                                    acc: Value, e: Expr, s: State)
    requires DirectTable(k) && FlatState(s) && FlatAll(items) && Flat(acc)
    requires Written(k, ns, f, e, depth, s) && DirectBody(k, ns, e)
    ensures Fine(Enough(k, fuel, depth + 1), HofLoop(k, fuel, h, f, items, acc, s))
    decreases fuel, 2, 0, |items|
  {
    hide DirectTable, FlatState, Written, Apply;
    if items != [] {
      var args := HofArgs(h, acc, items[0]);
      ApplyEnds(k, ns, fuel, depth, f, args, e, s);
      var a := Apply(k, fuel, f, args, s);
      if a.out.Val? {
        WrittenLater(k, ns, f, e, depth, s, a.st);
        LoopEnds(k, ns, fuel, depth, h, f, items[1..], HofStep(h, acc, items[0], a.out.v), e, a.st);
      }
    }
  }

  lemma {:induction false} ApplyEnds(k: Config, ns: Spaces, fuel: nat, depth: nat, f: Value, args: seq<Value>, e: Expr, s: State)
    requires DirectTable(k) && FlatState(s) && FlatAll(args)
    requires Written(k, ns, f, e, depth, s) && DirectBody(k, ns, e)
    ensures Fine(Enough(k, fuel, depth + 1), Apply(k, fuel, f, args, s))
    decreases fuel, 1
  {
    hide DirectTable, Direct;
    var c := s.clos[f.id];
    var s1 := s.(unbound := s.unbound + Missing(c.params, |args|));
    BindFlat(c.params, args, if |c.params| < |args| then |c.params| else |args|);
    UsesPushed(ns, c.env, s1, Bind(c.params, args), set x | x in c.params);
    EvalEnds(k, Hidden(ns, set x | x in e.params), fuel, CallEnv(c, args), c.depth + 1, c.body, s1);
  }

  lemma BindFlat(params: seq<string>, args: seq<Value>, n: nat)
    requires n <= |params| && n <= |args| && FlatAll(args)
    ensures FlatFrame(BindUpTo(params, args, n))
  {
  }

  lemma {:induction false} FlatCallEnds(k: Config, fuel: nat, env: Env, depth: nat, name: string, args: seq<Value>, s: State)
    requires DirectTable(k) && FlatState(s) && FlatAll(args)
    ensures Fine(Enough(k, fuel, depth + 1), CallFn(k, fuel, env, depth, name, args, s))
    decreases fuel, 3
  {
    var t := Resolve(k, UsesOf(Lookup(env, s, USES)), name);
    ResolvedFrom(k, UsesOf(Lookup(env, s, USES)), name);
    match t {
      case BuiltinTarget(b, _) =>
        if b.kind.HigherOrder? {
          FlatHof(k, fuel, b.kind.hof, args, s);
        } else {
          assert FlatBuiltin(b.kind.f);
        }
      case UserTarget(f) =>
        UserEnds(k, fuel, depth, f, args, s);
      case NoTarget =>
    }
  }

  /** Without a closure among the arguments, a collection builtin calls nothing. */
  lemma FlatHof(k: Config, fuel: nat, h: Hof, args: seq<Value>, s: State)
    requires FlatState(s) && FlatAll(args)
    ensures Fine(true, CallHof(k, fuel, h, args, s))
  {
    if |args| >= HofArity(h) && args[0].Arr? && args[0].elems != [] {
      var f := args[HofArity(h) - 1];
      assert Flat(f);
      assert !Apply(k, fuel, f, HofArgs(h, HofInit(h, args), args[0].elems[0]), s).out.Val?;
    }
  }

  lemma {:induction false} UserEnds(k: Config, fuel: nat, depth: nat, f: FnDef, args: seq<Value>, s: State)
    requires DirectTable(k) && FlatState(s) && FlatAll(args) && DirectFn(k, f)
    ensures Fine(Enough(k, fuel, depth + 1), CallUser(k, fuel, depth, f, args, s))
    decreases fuel, 2, 0, 0
  {
    hide DirectTable, DirectFn, DirectStmts, DirectParams, Declared;
    DirectParts(k, f);
    var b := |s.bases|;
    var s1 := s.(bases := s.bases + [map[]]);
    if !TooDeep(k, depth + 1) {
      BindEnds(k, Declared(f), fuel, b, depth + 1, f.params, args, s1);
      var p := BindParams(k, fuel, b, depth + 1, f.params, args, s1);
      if p.out.Val? {
        BodyEnds(k, Declared(f), fuel, b, depth + 1, f.body, Null, p.st);
      }
    }
  }

  /** Binding a flat value, under the list's name only where nothing is known of the list. */
  lemma SetFlat(ns: Spaces, b: nat, x: string, v: Value, s: State)
    requires FlatState(s) && UsesFit(ns, Env([], Some(b)), s) && Flat(v)
    requires x == USES ==> Among(ns, UsesOf(Some(v)))
    ensures FlatState(SetBase(s, b, x, v)) && UsesFit(ns, Env([], Some(b)), SetBase(s, b, x, v))
  {
  }

  lemma SameBasesFlat(s: State, s': State)
    requires FlatState(s) && s'.bases == s.bases
    ensures FlatState(s')
  {
  }

  lemma {:induction false} BindEnds(k: Config, ns: Spaces, fuel: nat, b: nat, depth: nat, params: seq<Param>,
                                    args: seq<Value>, s: State)
    requires DirectTable(k) && FlatState(s) && FlatAll(args) && b < |s.bases|
    requires UsesFit(ns, Env([], Some(b)), s) && DirectParams(k, ns, params)
    ensures var r := BindParams(k, fuel, b, depth, params, args, s);
      Fine(Enough(k, fuel, depth), r) && UsesFit(ns, Env([], Some(b)), r.st)
    decreases fuel, 1, params
  {
    hide DirectTable, FlatState, UsesFit, Direct, Eval;
    if params != [] {
      var env := Env([], Some(b));
      if args != [] {
        SetFlat(ns, b, params[0].name, args[0], s);
        BindEnds(k, ns, fuel, b, depth, params[1..], args[1..], SetBase(s, b, params[0].name, args[0]));
      } else if params[0].default.Some? {
        DefaultEnds(k, ns, fuel, b, depth, params[0], s);
        var a := Eval(k, fuel, env, depth, params[0].default.value, s);
        if a.out.Val? {
          BindEnds(k, ns, fuel, b, depth, params[1..], [], SetBase(a.st, b, params[0].name, a.out.v));
        }
      } else {
        var s1 := s.(unbound := s.unbound + {params[0].name});
        UsesLater(ns, env, s, s1);
        SameBasesFlat(s, s1);
        BindEnds(k, ns, fuel, b, depth, params[1..], [], s1);
      }
    }
  }

  lemma {:induction false} DefaultEnds(k: Config, ns: Spaces, fuel: nat, b: nat, depth: nat, p: Param, s: State)
    requires DirectTable(k) && FlatState(s) && b < |s.bases| && UsesFit(ns, Env([], Some(b)), s)
    requires DirectParams(k, ns, [p]) && p.default.Some?
    ensures var a := Eval(k, fuel, Env([], Some(b)), depth, p.default.value, s);
      && Fine(Enough(k, fuel, depth), a) && UsesFit(ns, Env([], Some(b)), a.st)
      && (a.out.Val? ==>
            var s' := SetBase(a.st, b, p.name, a.out.v); FlatState(s') && UsesFit(ns, Env([], Some(b)), s'))
    decreases fuel, 0, p, 2
  {
    hide DirectTable, FlatState, UsesFit, Direct, Eval;
    var env := Env([], Some(b));
    assert [p][0] == p;
    EvalEnds(k, ns, fuel, env, depth, p.default.value, s);
    var a := Eval(k, fuel, env, depth, p.default.value, s);
    UsesLater(ns, env, s, a.st);
    if a.out.Val? {
      SetFlat(ns, b, p.name, a.out.v, a.st);
    }
  }

  lemma {:induction false} BodyEnds(k: Config, ns: Spaces, fuel: nat, b: nat, depth: nat, stmts: seq<Stmt>, result: Value, s: State)
    requires DirectTable(k) && FlatState(s) && Flat(result) && b < |s.bases|
    requires UsesFit(ns, Env([], Some(b)), s) && DirectStmts(k, ns, stmts)
    ensures Fine(Enough(k, fuel, depth), ExecBody(k, fuel, b, depth, stmts, result, s))
    decreases fuel, 1, stmts
  {
    hide DirectTable, FlatState, UsesFit, DirectStmt, ExecStmt;
    if stmts != [] {
      StmtEnds(k, ns, fuel, b, depth, stmts[0], s);
      var a := ExecStmt(k, fuel, b, depth, stmts[0], s);
      if a.out.Val? {
        BodyEnds(k, ns, fuel, b, depth, stmts[1..], a.out.v, a.st);
      }
    }
  }

  lemma {:induction false} StmtEnds(k: Config, ns: Spaces, fuel: nat, b: nat, depth: nat, stmt: Stmt, s: State)
    requires DirectTable(k) && FlatState(s) && b < |s.bases|
    requires UsesFit(ns, Env([], Some(b)), s) && DirectStmt(k, ns, stmt)
    ensures var r := ExecStmt(k, fuel, b, depth, stmt, s);
      Fine(Enough(k, fuel, depth), r) && UsesFit(ns, Env([], Some(b)), r.st)
    decreases fuel, 1, stmt
  {
    hide DirectTable, Direct, Eval;
    var env := Env([], Some(b));
    if stmt.Use? {
      LookupFlat(env, s, USES);
      var uses := UsesOf(Lookup(env, s, USES));
      assert FlatAll(uses);
      SetFlat(ns, b, USES, Arr(uses + [Str(stmt.ns)]), s);
    } else {
      hide FlatState, UsesFit;
      EvalEnds(k, ns, fuel, env, depth, stmt.value, s);
      var a := Eval(k, fuel, env, depth, stmt.value, s);
      UsesLater(ns, env, s, a.st);
      if stmt.Let? && a.out.Val? {
        SetFlat(ns, b, stmt.name, a.out.v, a.st);
      }
    }
  }

  /** Under a positive limit, a stack of `limit + 1` calls is enough for every run. */
  lemma {:induction false} ExecuteEnds(k: Config, fuel: nat, f: FnDef, args: Frame)
    requires Limited(k) && DirectFn(k, f) && FlatFrame(args) && fuel > k.limit
    ensures !Execute(k, fuel, f, args).out.Overflow?
  {
    hide DirectTable, DirectFn, DirectStmts, DirectParams, Declared, BindNamed, ExecBody;
    DirectParts(k, f);
    var s := State([map[]], [], [], {});
    assert FlatFrame(map[]);
    NamedEnds(k, Declared(f), fuel, 0, f.params, args, s);
    var p := BindNamed(k, fuel, 0, f.params, args, s);
    if p.out.Val? {
      BodyEnds(k, Declared(f), fuel, 0, 0, f.body, Null, p.st);
    }
  }

  lemma {:induction false} NamedEnds(k: Config, ns: Spaces, fuel: nat, b: nat, params: seq<Param>, args: Frame, s: State)
    requires DirectTable(k) && FlatState(s) && FlatFrame(args) && b < |s.bases|
    requires UsesFit(ns, Env([], Some(b)), s) && DirectParams(k, ns, params)
    ensures var r := BindNamed(k, fuel, b, params, args, s);
      Fine(Enough(k, fuel, 0), r) && UsesFit(ns, Env([], Some(b)), r.st)
    decreases params
  {
    hide DirectTable, FlatState, UsesFit, Direct, Eval;
    if params != [] {
      var env := Env([], Some(b));
      if params[0].name !in args && params[0].default.Some? {
        DefaultEnds(k, ns, fuel, b, 0, params[0], s);
        var a := Eval(k, fuel, env, 0, params[0].default.value, s);
        if a.out.Val? {
          NamedEnds(k, ns, fuel, b, params[1..], args, SetBase(a.st, b, params[0].name, a.out.v));
        }
      } else {
        var v := if params[0].name in args then args[params[0].name] else Null;
        SetFlat(ns, b, params[0].name, v, s);
        NamedEnds(k, ns, fuel, b, params[1..], args, SetBase(s, b, params[0].name, v));
      }
    }
  }

  // ----- a closure that is handed to itself -----

  /** `map([g], g)` */
  const SELF_BODY: Expr := Call("map", [ArrayLit([Ident("g")]), Ident("g")])

  /** `let f = g => map([g], g)` followed by `map([f], f)` */
  const SELF_APPLIED: FnDef := FnDef([], [
    Let("f", Lambda(["g"], SELF_BODY)),
    ExprStmt(Call("map", [ArrayLit([Ident("f")]), Ident("f")]))])

  predicate MapIsBuiltin(k: Config) {
    "map" in k.builtins && k.builtins["map"] == Builtin(2, 2, HigherOrder(MapHof))
  }

  lemma NotDebug()
    ensures !IsDebugName("map")
  {
    assert |Upper("map")| == 3;
  }

  /** A call of `map`, its operands evaluated in turn. */
  lemma MapCall(k: Config, fuel: nat, env: Env, depth: nat, es: seq<Expr>, items: seq<Value>, f: Value, s: State, s': State)
    requires MapIsBuiltin(k) && fuel > 0 && !TooDeep(k, depth) && |es| == 2 && Lookup(env, s', USES) == None
    requires Eval(k, fuel, env, depth, es[0], s) == Res(Val(Arr(items)), s)
    requires Eval(k, fuel, env, depth, es[1], s) == Res(Val(f), s')
    ensures Eval(k, fuel, env, depth, Call("map", es), s) == HofLoop(k, fuel - 1, MapHof, f, items, Arr([]), s')
  {
    hide HofLoop;
    var args := [Arr(items), f];
    assert es[1..] == [es[1]] && [Arr(items)] + [f] == args;
    ListOfOne(k, fuel, env, depth, es[1], s);
    assert EvalList(k, fuel, env, depth, es, s) == Res(Val(Arr(args)), s');
    NotDebug();
    assert Resolve(k, [], "map") == BuiltinTarget(k.builtins["map"], true);
    assert CallFn(k, fuel - 1, env, depth, "map", args, s') == CallHof(k, fuel - 1, MapHof, args, s');
  }

  lemma MapOverOne(k: Config, fuel: nat, f: Value, item: Value, s: State)
    ensures HofLoop(k, fuel, MapHof, f, [item], Arr([]), s) ==
      var a := Apply(k, fuel, f, [item], s); if a.out.Val? then Res(Val(Arr([a.out.v])), a.st) else a
  {
    hide Apply;
    var a := Apply(k, fuel, f, [item], s);
    assert HofArgs(MapHof, Arr([]), item) == [item] && [item][1..] == [];
    if a.out.Val? {
      assert HofStep(MapHof, Arr([]), item, a.out.v) == Arr([a.out.v]);
      assert HofLoop(k, fuel, MapHof, f, [], Arr([a.out.v]), a.st) == Res(Val(Arr([a.out.v])), a.st);
    }
  }

  lemma {:induction false} MapOfSelf(k: Config, fuel: nat, env: Env, depth: nat, x: string, v: Value, s: State)
    requires MapIsBuiltin(k) && !TooDeep(k, depth)
    requires Lookup(env, s, x) == Some(v) && Lookup(env, s, USES) == None
    ensures var r := Eval(k, fuel, env, depth, Call("map", [ArrayLit([Ident(x)]), Ident(x)]), s);
      if fuel == 0 then r.out == Overflow
      else Apply(k, fuel - 1, v, [v], s).out == Overflow ==> r.out == Overflow
  {
    hide HofLoop, CallHof;
    var es := [ArrayLit([Ident(x)]), Ident(x)];
    ListOfOne(k, fuel, env, depth, Ident(x), s);
    ListOfOne(k, fuel, env, depth, es[1], s);
    assert Eval(k, fuel, env, depth, es[0], s) == Res(Val(Arr([v])), s);
    assert es[1..] == [Ident(x)];
    assert EvalList(k, fuel, env, depth, es, s).out.Val?;
    if fuel > 0 {
      MapCall(k, fuel, env, depth, es, [v], v, s, s);
      MapOverOne(k, fuel - 1, v, v, s);
    }
  }

  lemma ListOfOne(k: Config, fuel: nat, env: Env, depth: nat, e: Expr, s: State)
    ensures EvalList(k, fuel, env, depth, [e], s) ==
      var a := Eval(k, fuel, env, depth, e, s); if a.out.Val? then Res(Val(Arr([a.out.v])), a.st) else a
  {
    assert [e][1..] == [];
    var a := Eval(k, fuel, env, depth, e, s);
    assert a.out.Val? ==> [a.out.v] + [] == [a.out.v];
  }

  /** However much stack there is, the self-application uses it up. */
  lemma {:induction false} SelfApplyOverflows(k: Config, fuel: nat, id: nat, s: State)
    requires MapIsBuiltin(k) && id < |s.clos|
    requires s.clos[id].params == ["g"] && s.clos[id].body == SELF_BODY && !TooDeep(k, s.clos[id].depth + 1)
    requires Lookup(s.clos[id].env, s, USES) == None
    ensures Apply(k, fuel, Clo(id), [Clo(id)], s).out == Overflow
    decreases fuel
  {
    var c := s.clos[id];
    var s1 := s.(unbound := s.unbound + Missing(c.params, 1));
    var env := CallEnv(c, [Clo(id)]);
    assert Bind(["g"], [Clo(id)]) == BindUpTo(["g"], [Clo(id)], 1) == map["g" := Clo(id)];
    assert env.frames[1..] == c.env.frames;
    assert Lookup(env, s1, "g") == Some(Clo(id));
    assert Lookup(env, s1, USES) == Lookup(c.env, s, USES);
    if fuel > 0 {
      SelfApplyOverflows(k, fuel - 1, id, s1);
    }
    MapOfSelf(k, fuel, env, c.depth + 1, "g", Clo(id), s1);
  }

  /** The heap after `let f = g => map([g], g)`. */
  function AfterLet(k: Config): State {
    State([map["f" := Clo(0)]],
          [Closure(["g"], SELF_BODY, if k.copies then Env([map[]], None) else Env([], Some(0)), 0)], [], {})
  }

  lemma LetBindsSelf(k: Config, fuel: nat)
    ensures ExecStmt(k, fuel, 0, 0, SELF_APPLIED.body[0], State([map[]], [], [], {})) == Res(Val(Null), AfterLet(k))
  {
    var s := State([map[]], [], [], {});
    var lam := Lambda(["g"], SELF_BODY);
    assert Env([], Some(0)).frames + [s.bases[0]] == [map[]];
    var s1 := s.(clos := [AfterLet(k).clos[0]]);
    assert Eval(k, fuel, Env([], Some(0)), 0, lam, s) == Res(Val(Clo(0)), s1);
    assert SetBase(s1, 0, "f", Clo(0)) == AfterLet(k);
  }

  /** No limit ends this run: the depth of a closure call is counted from where the
      closure was written, not from where it is called. */
  lemma {:induction false} LimitMissesSelfApplication(k: Config, fuel: nat)
    requires MapIsBuiltin(k)
    ensures Execute(k, fuel, SELF_APPLIED, map[]).out == Overflow
  {
    var s := State([map[]], [], [], {});
    var s2 := AfterLet(k);
    var stmts := SELF_APPLIED.body;
    LetBindsSelf(k, fuel);
    SecondStmtOverflows(k, fuel);
    assert stmts[1..][0] == stmts[1];
    assert ExecBody(k, fuel, 0, 0, stmts[1..], Null, s2).out == Overflow;
    assert ExecBody(k, fuel, 0, 0, stmts, Null, s).out == Overflow;
  }

  lemma {:induction false} SecondStmtOverflows(k: Config, fuel: nat)
    requires MapIsBuiltin(k)
    ensures ExecStmt(k, fuel, 0, 0, SELF_APPLIED.body[1], AfterLet(k)).out == Overflow
  {
    var s2 := AfterLet(k);
    assert |USES| == 8 && |"f"| == 1;
    assert Lookup(s2.clos[0].env, s2, USES) == None;
    if fuel > 0 {
      SelfApplyOverflows(k, fuel - 1, 0, s2);
    }
    MapOfSelf(k, fuel, Env([], Some(0)), 0, "f", Clo(0), s2);
  }
}
