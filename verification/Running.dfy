/** What the executor does, step by step, as a function of its heap: argument scopes are
    reused, guarded by `inCall`, and copied when a closure captures them.  Nothing here
    knows about lexical scoping. */
module Running {
  import opened Wrappers
  import opened Syntax
  import opened Lexical
  import opened Store

  datatype Ran = Ran(out: Outcome, h: Heap)

  /** Walks the chain outwards until a scope binds the name. */
  function Get(sc: seq<Scope>, r: nat, x: string): Option<Value>
    decreases r
  {
    if r >= |sc| then None
    else if x in sc[r].vars then Some(sc[r].vars[x])
    else if sc[r].parent.Some? && sc[r].parent.value < r then Get(sc, sc[r].parent.value, x)
    else None
  }

  datatype Copy = Copy(scopes: seq<Scope>, scope: nat)

  /** Copies the chain for as long as its scopes are reusable. */
  function Snapshot(sc: seq<Scope>, env: nat): Copy
    decreases env
  {
    if env >= |sc| || !sc[env].reusable then Copy(sc, env)
    else if sc[env].parent.Some? && sc[env].parent.value < env then
      var p := Snapshot(sc, sc[env].parent.value);
      Copy(p.scopes + [Scope(Some(p.scope), sc[env].vars, false)], |p.scopes|)
    else Copy(sc + [Scope(None, sc[env].vars, false)], |sc|)
  }

  /** A closure keeps a snapshot of the scope it is written in. */
  function Capturing(h: Heap, env: nat, depth: nat, params: seq<string>, body: Expr): Heap {
    var copy := Snapshot(h.scopes, env);
    WithLambda(h.(scopes := copy.scopes), LambdaObj(params, body, copy.scope, depth, None, false))
  }

  function RunExpr(k: Config, fuel: nat, env: nat, depth: nat, e: Expr, h: Heap): Ran
    decreases fuel, 0, e, 0
  {
    if TooDeep(k, depth) then Ran(Err(MaxDepth), h) else
    match e
    case Lit(l) => Ran(Val(LitValue(l)), h)
    case Ident(x) =>
      (match Get(h.scopes, env, x)
       case Some(v) => Ran(Val(v), h)
       case None => Ran(Err(Undefined(x)), h))
    case Strict(op, operands) =>
      var a := RunList(k, fuel, env, depth, operands, h);
      if a.out.Val? && a.out.v.Arr? then Ran(PrimOut(k.prim(op, a.out.v.elems)), a.h) else a
    case ArrayLit(elems) => RunList(k, fuel, env, depth, elems, h)
    case And(l, r) =>
      var a := RunExpr(k, fuel, env, depth, l, h);
      if !a.out.Val? then a
      else if !ToBool(a.out.v) then Ran(Val(Bool(false)), a.h)
      else
        var b := RunExpr(k, fuel, env, depth, r, a.h);
        if b.out.Val? then Ran(Val(Bool(ToBool(b.out.v))), b.h) else b
    case Or(l, r) =>
      var a := RunExpr(k, fuel, env, depth, l, h);
      if !a.out.Val? then a
      else if ToBool(a.out.v) then Ran(Val(Bool(true)), a.h)
      else
        var b := RunExpr(k, fuel, env, depth, r, a.h);
        if b.out.Val? then Ran(Val(Bool(ToBool(b.out.v))), b.h) else b
    case If(c, t, f) =>
      var a := RunExpr(k, fuel, env, depth, c, h);
      if !a.out.Val? then a
      else if ToBool(a.out.v) then RunExpr(k, fuel, env, depth, t, a.h)
      else if f.Some? then RunExpr(k, fuel, env, depth, f.value, a.h)
      else Ran(Val(Null), a.h)
    case Coalesce(l, r) =>
      var a := RunExpr(k, fuel, env, depth, l, h);
      if a.out.Val? && a.out.v.Null? then RunExpr(k, fuel, env, depth, r, a.h) else a
    case Try(body, d) =>
      var a := RunExpr(k, fuel, env, depth, body, h);
      if !a.out.Err? then a
      else if d.Some? then RunExpr(k, fuel, env, depth, d.value, a.h)
      else Ran(Val(Null), a.h)
    case For(x, i, it, body) =>
      var a := RunExpr(k, fuel, env, depth, it, h);
      if !a.out.Val? then a
      else if !a.out.v.Arr? then Ran(Err(Failed("for..in: expected array")), a.h)
      else RunRounds(k, fuel, env, depth, x, i, body, a.out.v.elems, 0, a.h)
    case Raise(m) =>
      var a := RunExpr(k, fuel, env, depth, m, h);
      if a.out.Val? then Ran(Err(Raised(ToStr(k, a.out.v))), a.h) else a
    case Lambda(params, body) =>
      Ran(Val(Clo(|h.clos|)), Capturing(h, env, depth, params, body))
    case Call(name, args) =>
      var a := RunList(k, fuel, env, depth, args, h);
      if !a.out.Val? || !a.out.v.Arr? then a
      else if fuel == 0 then Ran(Overflow, a.h)
      else RunCall(k, fuel - 1, env, depth, name, a.out.v.elems, a.h)
  }

  /** Operands, elements or arguments, left to right. */
  function RunList(k: Config, fuel: nat, env: nat, depth: nat, es: seq<Expr>, h: Heap): (r: Ran)
    ensures r.out.Val? ==> r.out.v.Arr? && |r.out.v.elems| == |es|
    decreases fuel, 0, es, 0
  {
    if es == [] then Ran(Val(Arr([])), h)
    else
      var a := RunExpr(k, fuel, env, depth, es[0], h);
      if !a.out.Val? then a
      else
        var b := RunList(k, fuel, env, depth, es[1..], a.h);
        if b.out.Val? then Ran(Val(Arr([a.out.v] + b.out.v.elems)), b.h) else b
  }

  /** Each round in a scope of its own on top of the surrounding one. */
  function RunRounds(k: Config, fuel: nat, env: nat, depth: nat, x: string, index: string, body: Expr,
                     items: seq<Value>, i: nat, h: Heap): (r: Ran)
    requires i <= |items|
    ensures r.out.Val? ==> r.out.v.Arr? && |r.out.v.elems| == |items| - i
    decreases fuel, 0, body, |items| - i
  {
    if i == |items| then Ran(Val(Arr([])), h)
    else if TooDeep(k, depth) then Ran(Err(MaxDepth), h)
    else
      var h1 := WithScope(h, Scope(Some(env), ForFrame(x, index, items[i], i), false));
      var a := RunExpr(k, fuel, |h.scopes|, depth, body, h1);
      if !a.out.Val? then a
      else
        var b := RunRounds(k, fuel, env, depth, x, index, body, items, i + 1, a.h);
        if b.out.Val? then Ran(Val(Arr([a.out.v] + b.out.v.elems)), b.h) else b
  }

  function RunCall(k: Config, fuel: nat, env: nat, depth: nat, name: string, args: seq<Value>, h: Heap): Ran
    decreases fuel, 3
  {
    if IsDebugName(name) then
      Ran(Val(LastOr(args)), h.(log := h.log + [DebugEntry(name, args)]))
    else
      match Resolve(k, UsesOf(Get(h.scopes, env, USES)), name)
      case BuiltinTarget(b, checked) =>
        if checked && BadArity(b, |args|) then Ran(Err(Failed("arity")), h)
        else (match b.kind
              case Plain(f) => Ran(PrimOut(f(args)), h)
              case HigherOrder(hof) => RunHof(k, fuel, hof, args, h))
      case UserTarget(f) => RunUser(k, fuel, depth, f, args, h)
      case NoTarget => Ran(Err(NotDefined(name)), h)
  }

  function RunHof(k: Config, fuel: nat, hof: Hof, args: seq<Value>, h: Heap): Ran
    decreases fuel, 2, 1
  {
    if args == [] then Ran(Panic, h)
    else if !args[0].Arr? then Ran(Err(Failed("first argument must be an array")), h)
    else if hof == ReduceHof && |args| < 2 then Ran(Panic, h)
    else if |args| < HofArity(hof) then
      (if args[0].elems == [] then Ran(Val(HofInit(hof, args)), h) else Ran(Panic, h))
    else RunLoop(k, fuel, hof, args[HofArity(hof) - 1], args[0].elems, HofInit(hof, args), h)
  }

  /** The same closure, once per element. */
  function RunLoop(k: Config, fuel: nat, hof: Hof, f: Value, items: seq<Value>, acc: Value, h: Heap): Ran
    decreases fuel, 2, 0, |items|
  {
    if items == [] then Ran(Val(acc), h)
    else
      var a := RunLambda(k, fuel, f, HofArgs(hof, acc, items[0]), h);
      if a.out.Val? then RunLoop(k, fuel, hof, f, items[1..], HofStep(hof, acc, items[0], a.out.v), a.h) else a
  }

  /** A closure runs in its own argument scope, or in a fresh one if that is in use, and
      takes its guard down however the body ends. */
  function RunLambda(k: Config, fuel: nat, f: Value, args: seq<Value>, h: Heap): Ran
    decreases fuel, 1
  {
    if !f.Clo? || f.id >= |h.clos| then Ran(Err(Failed("expected lambda")), h)
    else
      var c := h.clos[f.id];
      var h1 := Enter(h, f.id, Bind(c.params, args));
      var a := if TooDeep(k, c.depth + 1) then Ran(Err(MaxDepth), h1)
               else RunExpr(k, fuel, ArgScope(h, f.id), c.depth + 1, c.body, h1);
      if c.inCall then a else Ran(a.out, Leave(a.h, f.id))
  }

  function RunUser(k: Config, fuel: nat, depth: nat, f: FnDef, args: seq<Value>, h: Heap): Ran
    decreases fuel, 2, 0, 0
  {
    var env := |h.scopes|;
    var h1 := WithBase(h);
    if TooDeep(k, depth + 1) then Ran(Err(MaxDepth), h1)
    else
      var p := RunParams(k, fuel, env, depth + 1, f.params, args, h1);
      if p.out.Val? then RunBody(k, fuel, env, depth + 1, f.body, Null, p.h) else p
  }

  /** Evaluates an expression in a function scope and binds its value there. */
  function RunBinding(k: Config, fuel: nat, env: nat, depth: nat, x: string, e: Expr, h: Heap): Ran
    decreases fuel, 0, e, 1
  {
    var a := RunExpr(k, fuel, env, depth, e, h);
    if a.out.Val? then Ran(a.out, WithVar(a.h, env, x, a.out.v)) else a
  }

  /** Positional arguments, then defaults; a parameter with neither stays unbound. */
  function RunParams(k: Config, fuel: nat, env: nat, depth: nat, params: seq<Param>, args: seq<Value>, h: Heap): Ran
    decreases fuel, 1, params
  {
    if params == [] then Ran(Val(Null), h)
    else if args != [] then
      RunParams(k, fuel, env, depth, params[1..], args[1..], WithVar(h, env, params[0].name, args[0]))
    else if params[0].default.Some? then
      var a := RunBinding(k, fuel, env, depth, params[0].name, params[0].default.value, h);
      if a.out.Val? then RunParams(k, fuel, env, depth, params[1..], [], a.h) else a
    else RunParams(k, fuel, env, depth, params[1..], [], h)
  }

  /** Every statement runs; the last one's value is the body's. */
  function RunBody(k: Config, fuel: nat, env: nat, depth: nat, stmts: seq<Stmt>, result: Value, h: Heap): Ran
    decreases fuel, 1, stmts
  {
    if stmts == [] then Ran(Val(result), h)
    else
      var a := RunStmt(k, fuel, env, depth, stmts[0], h);
      if a.out.Val? then RunBody(k, fuel, env, depth, stmts[1..], a.out.v, a.h) else a
  }

  function RunStmt(k: Config, fuel: nat, env: nat, depth: nat, stmt: Stmt, h: Heap): Ran
    decreases fuel, 1, stmt
  {
    if TooDeep(k, depth) then Ran(Err(MaxDepth), h) else
    match stmt
    case Let(x, e) =>
      var a := RunBinding(k, fuel, env, depth, x, e, h);
      if a.out.Val? then Ran(Val(Null), a.h) else a
    case Return(e) => RunExpr(k, fuel, env, depth, e, h)
    case ExprStmt(e) => RunExpr(k, fuel, env, depth, e, h)
    case Use(ns) =>
      var uses := UsesOf(Get(h.scopes, env, USES));
      Ran(Val(Null), WithVar(h, env, USES, Arr(uses + [Str(ns)])))
  }

  /** An execution from outside, with arguments by parameter name, on a fresh heap. */
  function RunExecute(k: Config, fuel: nat, f: FnDef, args: Frame): Ran {
    var p := RunNamed(k, fuel, 0, f.params, args, WithBase(EMPTY));
    if p.out.Val? then RunBody(k, fuel, 0, 0, f.body, Null, p.h) else p
  }

  const EMPTY: Heap := Heap([], [], [], [], [])

  function RunNamed(k: Config, fuel: nat, env: nat, params: seq<Param>, args: Frame, h: Heap): Ran
    decreases params
  {
    if params == [] then Ran(Val(Null), h)
    else if params[0].name in args then
      RunNamed(k, fuel, env, params[1..], args, WithVar(h, env, params[0].name, args[params[0].name]))
    else if params[0].default.Some? then
      var a := RunBinding(k, fuel, env, 0, params[0].name, params[0].default.value, h);
      if a.out.Val? then RunNamed(k, fuel, env, params[1..], args, a.h) else a
    else
      RunNamed(k, fuel, env, params[1..], args, WithVar(h, env, params[0].name, Null))
  }

  // ----- what every evaluation keeps, whatever the program -----

  lemma KeepsTrans(h0: Heap, h1: Heap, h2: Heap, x: int)
    requires Kept(h0, h1, x) && Keeps(h1, h2, x)
    ensures Keeps(h0, h2, x)
  {
    KeptTrans(h0, h1, h2, x);
  }

  lemma {:induction false} SnapshotKeeps(h: Heap, env: nat)
    requires WellFormed(h) && env < |h.scopes|
    ensures var copy := Snapshot(h.scopes, env);
      && Keeps(h, h.(scopes := copy.scopes), -1)
      && copy.scope < |copy.scopes| && h.scopes <= copy.scopes
    decreases env
  {
    KeptSelf(h);
    if h.scopes[env].reusable {
      if h.scopes[env].parent.Some? {
        SnapshotKeeps(h, h.scopes[env].parent.value);
        var p := Snapshot(h.scopes, h.scopes[env].parent.value);
        var h1 := h.(scopes := p.scopes);
        AddScope(h1, Scope(Some(p.scope), h.scopes[env].vars, false));
        KeepsTrans(h, h1, WithScope(h1, Scope(Some(p.scope), h.scopes[env].vars, false)), -1);
      } else {
        AddScope(h, Scope(None, h.scopes[env].vars, false));
      }
    }
  }

  lemma CapturingKeeps(h: Heap, env: nat, depth: nat, params: seq<string>, body: Expr)
    requires WellFormed(h) && env < |h.scopes|
    ensures Keeps(h, Capturing(h, env, depth, params, body), -1)
  {
    hide WellFormed, Kept;
    SnapshotKeeps(h, env);
    var copy := Snapshot(h.scopes, env);
    var h1 := h.(scopes := copy.scopes);
    AddLambda(h1, LambdaObj(params, body, copy.scope, depth, None, false));
    KeepsTrans(h, h1, Capturing(h, env, depth, params, body), -1);
  }

  /** The heap stays well formed, each argument scope serves at most one call in progress,
      guards return to what they were, and no scope changes but idle argument scopes. */
  lemma {:induction false} ExprKeeps(k: Config, fuel: nat, env: nat, depth: nat, e: Expr, h: Heap)
    requires WellFormed(h) && env < |h.scopes|
    ensures Keeps(h, RunExpr(k, fuel, env, depth, e, h).h, -1)
    decreases fuel, 0, e, 2
  {
    hide WellFormed, RunList, RunRounds, RunCall;
    KeptSelf(h);
    if !TooDeep(k, depth) {
      match e {
        case Lit(_) =>
        case Ident(_) =>
        case Strict(_, es) => ListKeeps(k, fuel, env, depth, es, h);
        case ArrayLit(es) => ListKeeps(k, fuel, env, depth, es, h);
        case And(_, _) => ControlKeeps(k, fuel, env, depth, e, h);
        case Or(_, _) => ControlKeeps(k, fuel, env, depth, e, h);
        case If(_, _, _) => ControlKeeps(k, fuel, env, depth, e, h);
        case Coalesce(_, _) => ControlKeeps(k, fuel, env, depth, e, h);
        case Try(_, _) => ControlKeeps(k, fuel, env, depth, e, h);
        case For(_, _, _, _) => ForKeeps(k, fuel, env, depth, e, h);
        case Raise(m) => ExprKeeps(k, fuel, env, depth, m, h);
        case Lambda(ps, b) => CapturingKeeps(h, env, depth, ps, b);
        case Call(_, _) => CallExprKeeps(k, fuel, env, depth, e, h);
      }
    }
  }

  /** A second part of `e`, run after the first. */
  lemma {:induction false} ThenKeeps(k: Config, fuel: nat, env: nat, depth: nat, e2: Expr, e: Expr, h: Heap, h1: Heap)
    requires WellFormed(h) && env < |h.scopes| && Keeps(h, h1, -1) && e2 < e
    ensures Keeps(h, RunExpr(k, fuel, env, depth, e2, h1).h, -1)
    decreases fuel, 0, e, 0
  {
    hide RunExpr;
    ExprKeeps(k, fuel, env, depth, e2, h1);
    KeepsTrans(h, h1, RunExpr(k, fuel, env, depth, e2, h1).h, -1);
  }

  lemma {:induction false} ControlKeeps(k: Config, fuel: nat, env: nat, depth: nat, e: Expr, h: Heap)
    requires WellFormed(h) && env < |h.scopes| && !TooDeep(k, depth)
    requires e.And? || e.Or? || e.If? || e.Coalesce? || e.Try?
    ensures Keeps(h, RunExpr(k, fuel, env, depth, e, h).h, -1)
    decreases fuel, 0, e, 1
  {
    hide WellFormed, Kept, RunList, RunRounds, RunCall;
    var first := if e.If? then e.cond else if e.Try? then e.body else e.left;
    ExprKeeps(k, fuel, env, depth, first, h);
    var h1 := RunExpr(k, fuel, env, depth, first, h).h;
    match e {
      case And(_, r) => ThenKeeps(k, fuel, env, depth, r, e, h, h1);
      case Or(_, r) => ThenKeeps(k, fuel, env, depth, r, e, h, h1);
      case If(_, t, f) =>
        ThenKeeps(k, fuel, env, depth, t, e, h, h1);
        if f.Some? {
          ThenKeeps(k, fuel, env, depth, f.value, e, h, h1);
        }
      case Coalesce(_, r) => ThenKeeps(k, fuel, env, depth, r, e, h, h1);
      case Try(_, d) =>
        if d.Some? {
          ThenKeeps(k, fuel, env, depth, d.value, e, h, h1);
        }
    }
  }

  lemma {:induction false} ListKeeps(k: Config, fuel: nat, env: nat, depth: nat, es: seq<Expr>, h: Heap)
    requires WellFormed(h) && env < |h.scopes|
    ensures Keeps(h, RunList(k, fuel, env, depth, es, h).h, -1)
    decreases fuel, 0, es, 0
  {
    hide WellFormed, RunExpr;
    KeptSelf(h);
    if es != [] {
      ExprKeeps(k, fuel, env, depth, es[0], h);
      var a := RunExpr(k, fuel, env, depth, es[0], h);
      ListKeeps(k, fuel, env, depth, es[1..], a.h);
      KeepsTrans(h, a.h, RunList(k, fuel, env, depth, es[1..], a.h).h, -1);
    }
  }

  lemma {:induction false} ForKeeps(k: Config, fuel: nat, env: nat, depth: nat, e: Expr, h: Heap)
    requires WellFormed(h) && env < |h.scopes| && !TooDeep(k, depth) && e.For?
    ensures Keeps(h, RunExpr(k, fuel, env, depth, e, h).h, -1)
    decreases fuel, 0, e, 0
  {
    hide WellFormed, RunList, RunRounds, RunCall;
    ExprKeeps(k, fuel, env, depth, e.iterable, h);
    var a := RunExpr(k, fuel, env, depth, e.iterable, h);
    if a.out.Val? && a.out.v.Arr? {
      RoundsKeep(k, fuel, env, depth, e.variable, e.index, e.body, a.out.v.elems, 0, a.h);
      KeepsTrans(h, a.h, RunRounds(k, fuel, env, depth, e.variable, e.index, e.body, a.out.v.elems, 0, a.h).h, -1);
    }
  }

  lemma {:induction false} RoundsKeep(k: Config, fuel: nat, env: nat, depth: nat, x: string, index: string, body: Expr,
                                      items: seq<Value>, i: nat, h: Heap)
    requires WellFormed(h) && env < |h.scopes| && i <= |items|
    ensures Keeps(h, RunRounds(k, fuel, env, depth, x, index, body, items, i, h).h, -1)
    decreases fuel, 0, body, |items| - i + 3
  {
    hide WellFormed, RunExpr;
    KeptSelf(h);
    if i < |items| && !TooDeep(k, depth) {
      var scope := Scope(Some(env), ForFrame(x, index, items[i], i), false);
      var h1 := WithScope(h, scope);
      AddScope(h, scope);
      ExprKeeps(k, fuel, |h.scopes|, depth, body, h1);
      var a := RunExpr(k, fuel, |h.scopes|, depth, body, h1);
      KeepsTrans(h, h1, a.h, -1);
      RoundsKeep(k, fuel, env, depth, x, index, body, items, i + 1, a.h);
      KeepsTrans(h, a.h, RunRounds(k, fuel, env, depth, x, index, body, items, i + 1, a.h).h, -1);
    }
  }

  lemma {:induction false} CallExprKeeps(k: Config, fuel: nat, env: nat, depth: nat, e: Expr, h: Heap)
    requires WellFormed(h) && env < |h.scopes| && !TooDeep(k, depth) && e.Call?
    ensures Keeps(h, RunExpr(k, fuel, env, depth, e, h).h, -1)
    decreases fuel, 0, e, 0
  {
    hide WellFormed, RunList, RunRounds, RunCall;
    ListKeeps(k, fuel, env, depth, e.args, h);
    var a := RunList(k, fuel, env, depth, e.args, h);
    if a.out.Val? && fuel > 0 {
      CallKeeps(k, fuel - 1, env, depth, e.fn, a.out.v.elems, a.h);
      KeepsTrans(h, a.h, RunCall(k, fuel - 1, env, depth, e.fn, a.out.v.elems, a.h).h, -1);
    }
  }

  lemma {:induction false} CallKeeps(k: Config, fuel: nat, env: nat, depth: nat, name: string, args: seq<Value>, h: Heap)
    requires WellFormed(h)
    ensures Keeps(h, RunCall(k, fuel, env, depth, name, args, h).h, -1)
    decreases fuel, 3
  {
    hide RunHof, RunUser;
    KeptSelf(h);
    var t := Resolve(k, UsesOf(Get(h.scopes, env, USES)), name);
    if IsDebugName(name) {
      LogKeeps(h, DebugEntry(name, args));
    } else if t.UserTarget? {
      UserKeeps(k, fuel, depth, t.f, args, h);
    } else if t.BuiltinTarget? && t.b.kind.HigherOrder? {
      HofKeeps(k, fuel, t.b.kind.hof, args, h);
    }
  }

  lemma LogKeeps(h: Heap, entry: Entry)
    requires WellFormed(h)
    ensures Keeps(h, h.(log := h.log + [entry]), -1)
  {
    var h' := h.(log := h.log + [entry]);
    forall c | 0 <= c < |h'.clos| ensures WellFormedLambda(h', h'.clos[c]) {
      assert WellFormedLambda(h, h.clos[c]);
    }
    forall b | 0 <= b < |h'.phi| ensures FunctionScope(h', h'.phi[b]) {
      assert FunctionScope(h, h.phi[b]);
    }
  }

  lemma {:induction false} HofKeeps(k: Config, fuel: nat, hof: Hof, args: seq<Value>, h: Heap)
    requires WellFormed(h)
    ensures Keeps(h, RunHof(k, fuel, hof, args, h).h, -1)
    decreases fuel, 2, 1
  {
    hide WellFormed, RunLoop;
    KeptSelf(h);
    if |args| >= HofArity(hof) && args[0].Arr? {
      LoopKeeps(k, fuel, hof, args[HofArity(hof) - 1], args[0].elems, HofInit(hof, args), h);
    }
  }

  lemma {:induction false} LoopKeeps(k: Config, fuel: nat, hof: Hof, f: Value, items: seq<Value>, acc: Value, h: Heap)
    requires WellFormed(h)
    ensures Keeps(h, RunLoop(k, fuel, hof, f, items, acc, h).h, -1)
    decreases fuel, 2, 0, |items|
  {
    hide WellFormed, RunLambda;
    KeptSelf(h);
    if items != [] {
      var args := HofArgs(hof, acc, items[0]);
      LambdaKeeps(k, fuel, f, args, h);
      var a := RunLambda(k, fuel, f, args, h);
      if a.out.Val? {
        var acc' := HofStep(hof, acc, items[0], a.out.v);
        LoopKeeps(k, fuel, hof, f, items[1..], acc', a.h);
        KeepsTrans(h, a.h, RunLoop(k, fuel, hof, f, items[1..], acc', a.h).h, -1);
      }
    }
  }

  lemma {:induction false} LambdaKeeps(k: Config, fuel: nat, f: Value, args: seq<Value>, h: Heap)
    requires WellFormed(h)
    ensures Keeps(h, RunLambda(k, fuel, f, args, h).h, -1)
    decreases fuel, 1
  {
    hide RunExpr, Enter, Leave, Kept;
    KeptSelf(h);
    if f.Clo? && f.id < |h.clos| {
      var c := h.clos[f.id];
      var vars := Bind(c.params, args);
      var h1 := Enter(h, f.id, vars);
      if c.inCall {
        EnterFresh(h, f.id, vars);
      } else {
        EnterOwn(h, f.id, vars);
      }
      ArgScopeThere(h, f.id, vars);
      KeptSelf(h1);
      ExprKeeps(k, fuel, ArgScope(h, f.id), c.depth + 1, c.body, h1);
      var h2 := if TooDeep(k, c.depth + 1) then h1 else RunExpr(k, fuel, ArgScope(h, f.id), c.depth + 1, c.body, h1).h;
      if c.inCall {
        KeepsTrans(h, h1, h2, -1);
      } else {
        LeaveKept(h, f.id, vars, h2);
        LeaveWellFormed(h2, f.id);
      }
    }
  }

  lemma ArgScopeThere(h: Heap, id: nat, vars: Frame)
    requires WellFormed(h) && id < |h.clos|
    ensures ArgScope(h, id) < |Enter(h, id, vars).scopes|
    ensures Enter(h, id, vars).scopes[ArgScope(h, id)] == Scope(Some(h.clos[id].env), vars, true)
    ensures h.clos[id].env < ArgScope(h, id)
  {
    assert WellFormedLambda(h, h.clos[id]);
  }

  lemma {:induction false} UserKeeps(k: Config, fuel: nat, depth: nat, f: FnDef, args: seq<Value>, h: Heap)
    requires WellFormed(h)
    ensures Keeps(h, RunUser(k, fuel, depth, f, args, h).h, -1)
    decreases fuel, 2, 0, 0
  {
    hide RunParams, RunBody, WellFormed, Kept;
    var env := |h.scopes|;
    var h1 := WithBase(h);
    AddBase(h);
    if !TooDeep(k, depth + 1) {
      ParamsKeep(k, fuel, env, depth + 1, f.params, args, h1);
      var p := RunParams(k, fuel, env, depth + 1, f.params, args, h1);
      KeptOlder(h, h1, p.h, env);
      if p.out.Val? {
        BodyKeeps(k, fuel, env, depth + 1, f.body, Null, p.h);
        KeptOlder(h, p.h, RunBody(k, fuel, env, depth + 1, f.body, Null, p.h).h, env);
      }
    }
  }

  /** The same where a function's own scope `x` may gain variables. */
  ghost predicate KeepsAt(h: Heap, h': Heap, x: nat) {
    Keeps(h, h', x) && FunctionScope(h', x)
  }

  lemma KeepsAtTrans(h0: Heap, h1: Heap, h2: Heap, x: nat)
    requires KeepsAt(h0, h1, x) && KeepsAt(h1, h2, x)
    ensures KeepsAt(h0, h2, x)
  {
    KeptTrans(h0, h1, h2, x);
  }

  lemma KeepsAtSelf(h: Heap, x: nat)
    requires WellFormed(h) && FunctionScope(h, x)
    ensures KeepsAt(h, h, x)
  {
  }

  lemma {:induction false} TopExprKeeps(k: Config, fuel: nat, env: nat, depth: nat, e: Expr, h: Heap)
    requires WellFormed(h) && FunctionScope(h, env)
    ensures KeepsAt(h, RunExpr(k, fuel, env, depth, e, h).h, env)
    decreases fuel, 0, e, 3
  {
    hide RunExpr;
    ExprKeeps(k, fuel, env, depth, e, h);
    var h' := RunExpr(k, fuel, env, depth, e, h).h;
    KeptAt(h, h', env);
    NotScratch(h, env);
  }

  lemma {:induction false} BindingKeeps(k: Config, fuel: nat, env: nat, depth: nat, x: string, e: Expr, h: Heap)
    requires WellFormed(h) && FunctionScope(h, env)
    ensures KeepsAt(h, RunBinding(k, fuel, env, depth, x, e, h).h, env)
    decreases fuel, 0, e, 4
  {
    hide RunExpr, WellFormed, Kept;
    TopExprKeeps(k, fuel, env, depth, e, h);
    var a := RunExpr(k, fuel, env, depth, e, h);
    if a.out.Val? {
      AddVar(a.h, env, x, a.out.v);
      KeepsAtTrans(h, a.h, WithVar(a.h, env, x, a.out.v), env);
    }
  }

  lemma {:induction false} ParamsKeep(k: Config, fuel: nat, env: nat, depth: nat, params: seq<Param>, args: seq<Value>, h: Heap)
    requires WellFormed(h) && FunctionScope(h, env)
    ensures KeepsAt(h, RunParams(k, fuel, env, depth, params, args, h).h, env)
    decreases fuel, 1, params, 1
  {
    hide RunBinding, WithVar, KeepsAt;
    KeepsAtSelf(h, env);
    if params != [] {
      var h1 := if args != [] then WithVar(h, env, params[0].name, args[0])
                else if params[0].default.Some?
                then RunBinding(k, fuel, env, depth, params[0].name, params[0].default.value, h).h
                else h;
      if args != [] {
        VarKeeps(h, env, params[0].name, args[0]);
      } else if params[0].default.Some? {
        BindingKeeps(k, fuel, env, depth, params[0].name, params[0].default.value, h);
      }
      var rest := if args != [] then args[1..] else [];
      KeepsAtParts(h, h1, env);
      ParamsKeep(k, fuel, env, depth, params[1..], rest, h1);
      KeepsAtTrans(h, h1, RunParams(k, fuel, env, depth, params[1..], rest, h1).h, env);
    }
  }

  lemma VarKeeps(h: Heap, r: nat, x: string, v: Value)
    requires WellFormed(h) && FunctionScope(h, r)
    ensures KeepsAt(h, WithVar(h, r, x, v), r)
  {
    AddVar(h, r, x, v);
  }

  lemma KeepsAtParts(h: Heap, h': Heap, x: nat)
    requires KeepsAt(h, h', x)
    ensures WellFormed(h') && FunctionScope(h', x)
  {
  }

  lemma {:induction false} BodyKeeps(k: Config, fuel: nat, env: nat, depth: nat, stmts: seq<Stmt>, result: Value, h: Heap)
    requires WellFormed(h) && FunctionScope(h, env)
    ensures KeepsAt(h, RunBody(k, fuel, env, depth, stmts, result, h).h, env)
    decreases fuel, 1, stmts, 1
  {
    hide RunStmt, KeepsAt;
    KeepsAtSelf(h, env);
    if stmts != [] {
      StmtKeeps(k, fuel, env, depth, stmts[0], h);
      var a := RunStmt(k, fuel, env, depth, stmts[0], h);
      KeepsAtParts(h, a.h, env);
      if a.out.Val? {
        BodyKeeps(k, fuel, env, depth, stmts[1..], a.out.v, a.h);
        KeepsAtTrans(h, a.h, RunBody(k, fuel, env, depth, stmts[1..], a.out.v, a.h).h, env);
      }
    }
  }

  lemma {:induction false} StmtKeeps(k: Config, fuel: nat, env: nat, depth: nat, stmt: Stmt, h: Heap)
    requires WellFormed(h) && FunctionScope(h, env)
    ensures KeepsAt(h, RunStmt(k, fuel, env, depth, stmt, h).h, env)
    decreases fuel, 1, stmt, 0
  {
    hide RunBinding, RunExpr, WithVar, KeepsAt;
    KeepsAtSelf(h, env);
    match stmt {
      case Let(x, e) => BindingKeeps(k, fuel, env, depth, x, e, h);
      case Return(e) => TopExprKeeps(k, fuel, env, depth, e, h);
      case ExprStmt(e) => TopExprKeeps(k, fuel, env, depth, e, h);
      case Use(ns) => VarKeeps(h, env, USES, Arr(UsesOf(Get(h.scopes, env, USES)) + [Str(ns)]));
    }
  }

  lemma {:induction false} NamedKeep(k: Config, fuel: nat, env: nat, params: seq<Param>, args: Frame, h: Heap)
    requires WellFormed(h) && FunctionScope(h, env)
    ensures KeepsAt(h, RunNamed(k, fuel, env, params, args, h).h, env)
    decreases params
  {
    hide RunBinding, WithVar, KeepsAt;
    KeepsAtSelf(h, env);
    if params != [] {
      var p := params[0];
      var defaulted := p.name !in args && p.default.Some?;
      var v := if p.name in args then args[p.name] else Null;
      var a := if defaulted then RunBinding(k, fuel, env, 0, p.name, p.default.value, h)
               else Ran(Val(Null), WithVar(h, env, p.name, v));
      if defaulted {
        BindingKeeps(k, fuel, env, 0, p.name, p.default.value, h);
      } else {
        VarKeeps(h, env, p.name, v);
      }
      KeepsAtParts(h, a.h, env);
      NamedKeep(k, fuel, env, params[1..], args, a.h);
      KeepsAtTrans(h, a.h, RunNamed(k, fuel, env, params[1..], args, a.h).h, env);
    }
  }

  /** From the empty heap, every run of every program ends in a well-formed heap in which
      no guard is up. */
  lemma ExecuteKeeps(k: Config, fuel: nat, f: FnDef, args: Frame)
    ensures var h := RunExecute(k, fuel, f, args).h; WellFormed(h) && h.live == []
    ensures forall c :: 0 <= c < |RunExecute(k, fuel, f, args).h.clos| ==> !RunExecute(k, fuel, f, args).h.clos[c].inCall
  {
    hide RunNamed, RunBody;
    var h0 := WithBase(EMPTY);
    AddBase(EMPTY);
    NamedKeep(k, fuel, 0, f.params, args, h0);
    var p := RunNamed(k, fuel, 0, f.params, args, h0);
    if p.out.Val? {
      BodyKeeps(k, fuel, 0, 0, f.body, Null, p.h);
    }
  }
}
