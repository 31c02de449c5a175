/** The size of the stack never changes what a run computes, only whether it survives. */
module Stack {
  import opened Wrappers
  import opened Syntax
  import opened Lexical
  import T = Termination

  /** `more` is what a run does with one more unit of stack than `r` had. */
  ghost predicate Agrees(r: Res, more: Res) {
    r.out.Overflow? || more == r
  }

  lemma {:induction false} EvalAgrees(k: Config, fuel: nat, env: Env, depth: nat, e: Expr, s: State)
    ensures Agrees(Eval(k, fuel, env, depth, e, s), Eval(k, fuel + 1, env, depth, e, s))
    decreases fuel, 0, e, 1
  {
    hide EvalList, EvalFor, CallFn;
    match e {
      case Lit(_) =>
      case Ident(_) =>
      case Strict(_, es) => ListAgrees(k, fuel, env, depth, es, s);
      case ArrayLit(es) => ListAgrees(k, fuel, env, depth, es, s);
      case And(_, _) => ControlAgrees(k, fuel, env, depth, e, s);
      case Or(_, _) => ControlAgrees(k, fuel, env, depth, e, s);
      case If(_, _, _) => ControlAgrees(k, fuel, env, depth, e, s);
      case Coalesce(_, _) => ControlAgrees(k, fuel, env, depth, e, s);
      case Try(_, _) => ControlAgrees(k, fuel, env, depth, e, s);
      case For(x, i, it, b) =>
        EvalAgrees(k, fuel, env, depth, it, s);
        var a := Eval(k, fuel, env, depth, it, s);
        if a.out.Val? && a.out.v.Arr? {
          ForAgrees(k, fuel, env, depth, x, i, b, a.out.v.elems, 0, a.st);
        }
      case Raise(m) => EvalAgrees(k, fuel, env, depth, m, s);
      case Lambda(_, _) =>
      case Call(name, es) =>
        ListAgrees(k, fuel, env, depth, es, s);
        var a := EvalList(k, fuel, env, depth, es, s);
        if a.out.Val? && fuel > 0 {
          CallAgrees(k, fuel - 1, env, depth, name, a.out.v.elems, a.st);
        }
    }
  }

  /** Expressions that choose which of their parts run. */
  lemma {:induction false} ControlAgrees(k: Config, fuel: nat, env: Env, depth: nat, e: Expr, s: State)
    requires e.And? || e.Or? || e.If? || e.Coalesce? || e.Try?
    ensures Agrees(Eval(k, fuel, env, depth, e, s), Eval(k, fuel + 1, env, depth, e, s))
    decreases fuel, 0, e, 0
  {
    hide EvalList, EvalFor, CallFn;
    var first := if e.If? then e.cond else if e.Try? then e.body else e.left;
    EvalAgrees(k, fuel, env, depth, first, s);
    var s' := Eval(k, fuel, env, depth, first, s).st;
    match e {
      case And(_, r) => EvalAgrees(k, fuel, env, depth, r, s');
      case Or(_, r) => EvalAgrees(k, fuel, env, depth, r, s');
      case If(_, t, f) =>
        EvalAgrees(k, fuel, env, depth, t, s');
        if f.Some? {
          EvalAgrees(k, fuel, env, depth, f.value, s');
        }
      case Coalesce(_, r) => EvalAgrees(k, fuel, env, depth, r, s');
      case Try(_, d) =>
        if d.Some? {
          EvalAgrees(k, fuel, env, depth, d.value, s');
        }
    }
  }

  lemma {:induction false} ListAgrees(k: Config, fuel: nat, env: Env, depth: nat, es: seq<Expr>, s: State)
    ensures Agrees(EvalList(k, fuel, env, depth, es, s), EvalList(k, fuel + 1, env, depth, es, s))
    decreases fuel, 0, es, 0
  {
    hide Eval;
    if es != [] {
      EvalAgrees(k, fuel, env, depth, es[0], s);
      ListAgrees(k, fuel, env, depth, es[1..], Eval(k, fuel, env, depth, es[0], s).st);
    }
  }

  lemma {:induction false} ForAgrees(k: Config, fuel: nat, env: Env, depth: nat, x: string, index: string, body: Expr,
                                     items: seq<Value>, i: nat, s: State)
    requires i <= |items|
    ensures Agrees(EvalFor(k, fuel, env, depth, x, index, body, items, i, s),
                   EvalFor(k, fuel + 1, env, depth, x, index, body, items, i, s))
    decreases fuel, 0, body, |items| - i + 2
  {
    hide Eval;
    if i < |items| {
      var env' := Env([ForFrame(x, index, items[i], i)] + env.frames, env.base);
      EvalAgrees(k, fuel, env', depth, body, s);
      ForAgrees(k, fuel, env, depth, x, index, body, items, i + 1, Eval(k, fuel, env', depth, body, s).st);
    }
  }

  lemma {:induction false} CallAgrees(k: Config, fuel: nat, env: Env, depth: nat, name: string, args: seq<Value>, s: State)
    ensures Agrees(CallFn(k, fuel, env, depth, name, args, s), CallFn(k, fuel + 1, env, depth, name, args, s))
    decreases fuel, 3
  {
    var t := Resolve(k, UsesOf(Lookup(env, s, USES)), name);
    if t.UserTarget? {
      UserAgrees(k, fuel, depth, t.f, args, s);
    } else if t.BuiltinTarget? && t.b.kind.HigherOrder? && args != [] && args[0].Arr? && |args| >= HofArity(t.b.kind.hof) {
      var h := t.b.kind.hof;
      LoopAgrees(k, fuel, h, args[HofArity(h) - 1], args[0].elems, HofInit(h, args), s);
    }
  }

  lemma {:induction false} LoopAgrees(k: Config, fuel: nat, h: Hof, f: Value, items: seq<Value>, acc: Value, s: State)
    ensures Agrees(HofLoop(k, fuel, h, f, items, acc, s), HofLoop(k, fuel + 1, h, f, items, acc, s))
    decreases fuel, 2, 0, |items|
  {
    if items != [] {
      ApplyAgrees(k, fuel, f, HofArgs(h, acc, items[0]), s);
      var a := Apply(k, fuel, f, HofArgs(h, acc, items[0]), s);
      if a.out.Val? {
        LoopAgrees(k, fuel, h, f, items[1..], HofStep(h, acc, items[0], a.out.v), a.st);
      }
    }
  }

  lemma {:induction false} ApplyAgrees(k: Config, fuel: nat, f: Value, args: seq<Value>, s: State)
    ensures Agrees(Apply(k, fuel, f, args, s), Apply(k, fuel + 1, f, args, s))
    decreases fuel, 1
  {
    if f.Clo? && f.id < |s.clos| {
      var c := s.clos[f.id];
      EvalAgrees(k, fuel, CallEnv(c, args), c.depth + 1, c.body, s.(unbound := s.unbound + Missing(c.params, |args|)));
    }
  }

  lemma {:induction false} UserAgrees(k: Config, fuel: nat, depth: nat, f: FnDef, args: seq<Value>, s: State)
    ensures Agrees(CallUser(k, fuel, depth, f, args, s), CallUser(k, fuel + 1, depth, f, args, s))
    decreases fuel, 2, 0, 0
  {
    var b := |s.bases|;
    var s1 := s.(bases := s.bases + [map[]]);
    BindAgrees(k, fuel, b, depth + 1, f.params, args, s1);
    var p := BindParams(k, fuel, b, depth + 1, f.params, args, s1);
    BodyAgrees(k, fuel, b, depth + 1, f.body, Null, p.st);
  }

  lemma {:induction false} BindAgrees(k: Config, fuel: nat, b: nat, depth: nat, params: seq<Param>, args: seq<Value>, s: State)
    requires b < |s.bases|
    ensures Agrees(BindParams(k, fuel, b, depth, params, args, s), BindParams(k, fuel + 1, b, depth, params, args, s))
    decreases fuel, 1, params
  {
    if params != [] {
      if args != [] {
        BindAgrees(k, fuel, b, depth, params[1..], args[1..], SetBase(s, b, params[0].name, args[0]));
      } else if params[0].default.Some? {
        EvalAgrees(k, fuel, Env([], Some(b)), depth, params[0].default.value, s);
        var a := Eval(k, fuel, Env([], Some(b)), depth, params[0].default.value, s);
        if a.out.Val? {
          BindAgrees(k, fuel, b, depth, params[1..], [], SetBase(a.st, b, params[0].name, a.out.v));
        }
      } else {
        BindAgrees(k, fuel, b, depth, params[1..], [], s.(unbound := s.unbound + {params[0].name}));
      }
    }
  }

  lemma {:induction false} BodyAgrees(k: Config, fuel: nat, b: nat, depth: nat, stmts: seq<Stmt>, result: Value, s: State)
    requires b < |s.bases|
    ensures Agrees(ExecBody(k, fuel, b, depth, stmts, result, s), ExecBody(k, fuel + 1, b, depth, stmts, result, s))
    decreases fuel, 1, stmts
  {
    if stmts != [] {
      if !stmts[0].Use? {
        EvalAgrees(k, fuel, Env([], Some(b)), depth, stmts[0].value, s);
      }
      var a := ExecStmt(k, fuel, b, depth, stmts[0], s);
      if a.out.Val? {
        BodyAgrees(k, fuel, b, depth, stmts[1..], a.out.v, a.st);
      }
    }
  }

  lemma {:induction false} NamedAgrees(k: Config, fuel: nat, b: nat, params: seq<Param>, args: Frame, s: State)
    requires b < |s.bases|
    ensures Agrees(BindNamed(k, fuel, b, params, args, s), BindNamed(k, fuel + 1, b, params, args, s))
    decreases params
  {
    if params != [] {
      if params[0].name in args {
        NamedAgrees(k, fuel, b, params[1..], args, SetBase(s, b, params[0].name, args[params[0].name]));
      } else if params[0].default.Some? {
        EvalAgrees(k, fuel, Env([], Some(b)), 0, params[0].default.value, s);
        var a := Eval(k, fuel, Env([], Some(b)), 0, params[0].default.value, s);
        if a.out.Val? {
          NamedAgrees(k, fuel, b, params[1..], args, SetBase(a.st, b, params[0].name, a.out.v));
        }
      } else {
        NamedAgrees(k, fuel, b, params[1..], args, SetBase(s, b, params[0].name, Null));
      }
    }
  }

  lemma {:induction false} ExecuteAgrees(k: Config, fuel: nat, f: FnDef, args: Frame)
    ensures Agrees(Execute(k, fuel, f, args), Execute(k, fuel + 1, f, args))
  {
    var s := State([map[]], [], [], {});
    NamedAgrees(k, fuel, 0, f.params, args, s);
    BodyAgrees(k, fuel, 0, 0, f.body, Null, BindNamed(k, fuel, 0, f.params, args, s).st);
  }

  /** A run that survives on some stack does exactly the same on any larger one. */
  lemma {:induction false} StackOnlyDecidesSurvival(k: Config, fuel: nat, more: nat, f: FnDef, args: Frame)
    requires fuel <= more && !Execute(k, fuel, f, args).out.Overflow?
    ensures Execute(k, more, f, args) == Execute(k, fuel, f, args)
    decreases more - fuel
  {
    if fuel < more {
      ExecuteAgrees(k, fuel, f, args);
      StackOnlyDecidesSurvival(k, fuel + 1, more, f, args);
    }
  }

  /** Under a positive limit, with lambdas written as arguments, a run has one result,
      reached by every stack of more than `limit` calls. */
  lemma LimitedRunsHaveOneResult(k: Config, fuel: nat, f: FnDef, args: Frame)
    requires T.Limited(k) && T.DirectFn(k, f) && T.FlatFrame(args) && fuel > k.limit
    ensures !Execute(k, fuel, f, args).out.Overflow?
    ensures Execute(k, fuel, f, args) == Execute(k, k.limit + 1, f, args)
  {
    T.ExecuteEnds(k, k.limit + 1, f, args);
    StackOnlyDecidesSurvival(k, k.limit + 1, fuel, f, args);
  }
}
