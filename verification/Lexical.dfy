/** Plain lexical scoping: the meaning the executor has to implement.

    A scope made by a lambda call or by one round of a `for` is an immutable value
    made once and never touched again; only a function's own scope is a cell, because
    its `let` statements go on adding to it.  `fuel` is the host's remaining stack:
    every call takes one unit and a run that needs more ends in `Overflow`. */
module Lexical {
  import opened Wrappers
  import opened Syntax

  /** Local scopes, innermost first, ending in a function scope, if there is one. */
  datatype Env = Env(frames: seq<Frame>, base: Option<nat>)

  datatype Closure = Closure(params: seq<string>, body: Expr, env: Env, depth: nat)

  /** `unbound` collects every parameter some call left without a value. */
  datatype State = State(bases: seq<Frame>, clos: seq<Closure>, log: seq<Entry>, unbound: set<string>)

  datatype Res = Res(out: Outcome, st: State)

  ghost predicate Grows(s: State, s': State) {
    && s.bases <= s'.bases
    && s.clos <= s'.clos
    && s.log <= s'.log
    && s.unbound <= s'.unbound
  }

  /** As `Grows`, but scope `b` may have changed. */
  ghost predicate GrowsBut(s: State, s': State, b: nat) {
    && |s.bases| <= |s'.bases|
    && (forall i :: 0 <= i < |s.bases| && i != b ==> s'.bases[i] == s.bases[i])
    && s.clos <= s'.clos
    && s.log <= s'.log
    && s.unbound <= s'.unbound
  }

  function LookupFrames(frames: seq<Frame>, x: string): Option<Value> {
    if frames == [] then None
    else if x in frames[0] then Some(frames[0][x])
    else LookupFrames(frames[1..], x)
  }

  function Lookup(env: Env, s: State, x: string): Option<Value> {
    var v := LookupFrames(env.frames, x);
    if v.Some? then v
    else if env.base.Some? && env.base.value < |s.bases| && x in s.bases[env.base.value]
    then Some(s.bases[env.base.value][x])
    else None
  }

  /** The scope of one call: later parameters of the same name win. */
  function Bind(params: seq<string>, args: seq<Value>): Frame {
    if params == [] || args == [] then map[]
    else
      var n := if |params| < |args| then |params| else |args|;
      BindUpTo(params, args, n)
  }

  function BindUpTo(params: seq<string>, args: seq<Value>, n: nat): (m: Frame)
    requires n <= |params| && n <= |args|
    ensures m.Keys == set i | 0 <= i < n :: params[i]
  {
    if n == 0 then map[]
    else BindUpTo(params, args, n - 1)[params[n - 1] := args[n - 1]]
  }

  /** A name is bound to the argument of its last parameter. */
  lemma {:induction false} LastBinds(params: seq<string>, args: seq<Value>, n: nat, i: nat)
    requires i < n <= |params| && n <= |args| && forall j :: i < j < n ==> params[j] != params[i]
    ensures params[i] in BindUpTo(params, args, n) && BindUpTo(params, args, n)[params[i]] == args[i]
    decreases n
  {
    if i < n - 1 {
      LastBinds(params, args, n - 1, i);
    }
  }

  function Missing(params: seq<string>, n: nat): set<string> {
    set i | n <= i < |params| :: params[i]
  }

  /** What a closure written here keeps of its surroundings. */
  function Capture(k: Config, env: Env, s: State): Env {
    if k.copies && env.base.Some? && env.base.value < |s.bases|
    then Env(env.frames + [s.bases[env.base.value]], None)
    else env
  }

  function SetBase(s: State, b: nat, x: string, v: Value): State {
    if b < |s.bases| then s.(bases := s.bases[b := s.bases[b][x := v]]) else s
  }

  function ForFrame(variable: string, index: string, item: Value, i: int): Frame {
    var m: Frame := map[variable := item];
    if index != "" then m[index := Num(i)] else m
  }

  function Eval(k: Config, fuel: nat, env: Env, depth: nat, e: Expr, s: State): (r: Res)
    ensures Grows(s, r.st)
    decreases fuel, 0, e, 0
  {
    if TooDeep(k, depth) then Res(Err(MaxDepth), s) else
    match e
    case Lit(l) => Res(Val(LitValue(l)), s)
    case Ident(x) =>
      (match Lookup(env, s, x)
       case Some(v) => Res(Val(v), s)
       case None => Res(Err(Undefined(x)), s))
    case Strict(op, operands) =>
      var a := EvalList(k, fuel, env, depth, operands, s);
      if a.out.Val? then Res(PrimOut(k.prim(op, a.out.v.elems)), a.st) else a
    case ArrayLit(elems) => EvalList(k, fuel, env, depth, elems, s)
    case And(l, r) =>
      var a := Eval(k, fuel, env, depth, l, s);
      if !a.out.Val? then a
      else if !ToBool(a.out.v) then Res(Val(Bool(false)), a.st)
      else
        var b := Eval(k, fuel, env, depth, r, a.st);
        if b.out.Val? then Res(Val(Bool(ToBool(b.out.v))), b.st) else b
    case Or(l, r) =>
      var a := Eval(k, fuel, env, depth, l, s);
      if !a.out.Val? then a
      else if ToBool(a.out.v) then Res(Val(Bool(true)), a.st)
      else
        var b := Eval(k, fuel, env, depth, r, a.st);
        if b.out.Val? then Res(Val(Bool(ToBool(b.out.v))), b.st) else b
    case If(c, t, f) =>
      var a := Eval(k, fuel, env, depth, c, s);
      if !a.out.Val? then a
      else if ToBool(a.out.v) then Eval(k, fuel, env, depth, t, a.st)
      else if f.Some? then Eval(k, fuel, env, depth, f.value, a.st)
      else Res(Val(Null), a.st)
    case Coalesce(l, r) =>
      var a := Eval(k, fuel, env, depth, l, s);
      if a.out.Val? && a.out.v.Null? then Eval(k, fuel, env, depth, r, a.st) else a
    case Try(body, d) =>
      var a := Eval(k, fuel, env, depth, body, s);
      if !a.out.Err? then a
      else if d.Some? then Eval(k, fuel, env, depth, d.value, a.st)
      else Res(Val(Null), a.st)
    case For(x, i, it, body) =>
      var a := Eval(k, fuel, env, depth, it, s);
      if !a.out.Val? then a
      else if !a.out.v.Arr? then Res(Err(Failed("for..in: expected array")), a.st)
      else EvalFor(k, fuel, env, depth, x, i, body, a.out.v.elems, 0, a.st)
    case Raise(m) =>
      var a := Eval(k, fuel, env, depth, m, s);
      if a.out.Val? then Res(Err(Raised(ToStr(k, a.out.v))), a.st) else a
    case Lambda(params, body) =>
      Res(Val(Clo(|s.clos|)), s.(clos := s.clos + [Closure(params, body, Capture(k, env, s), depth)]))
    case Call(name, args) =>
      var a := EvalList(k, fuel, env, depth, args, s);
      if !a.out.Val? then a
      else if fuel == 0 then Res(Overflow, a.st)
      else CallFn(k, fuel - 1, env, depth, name, a.out.v.elems, a.st)
  }

  /** Left to right, stopping at the first failure; the values come back as an array. */
  function EvalList(k: Config, fuel: nat, env: Env, depth: nat, es: seq<Expr>, s: State): (r: Res)
    ensures Grows(s, r.st)
    ensures r.out.Val? ==> r.out.v.Arr? && |r.out.v.elems| == |es|
    decreases fuel, 0, es, 0
  {
    if es == [] then Res(Val(Arr([])), s)
    else
      var a := Eval(k, fuel, env, depth, es[0], s);
      if !a.out.Val? then a
      else
        var b := EvalList(k, fuel, env, depth, es[1..], a.st);
        if b.out.Val? then Res(Val(Arr([a.out.v] + b.out.v.elems)), b.st) else b
  }

  function EvalFor(k: Config, fuel: nat, env: Env, depth: nat, x: string, index: string, body: Expr,
                   items: seq<Value>, i: nat, s: State): (r: Res)
    requires i <= |items|
    ensures Grows(s, r.st)
    ensures r.out.Val? ==> r.out.v.Arr? && |r.out.v.elems| == |items| - i
    decreases fuel, 0, body, |items| - i
  {
    if i == |items| then Res(Val(Arr([])), s)
    else if TooDeep(k, depth) then Res(Err(MaxDepth), s)
    else
      var a := Eval(k, fuel, Env([ForFrame(x, index, items[i], i)] + env.frames, env.base), depth, body, s);
      if !a.out.Val? then a
      else
        var b := EvalFor(k, fuel, env, depth, x, index, body, items, i + 1, a.st);
        if b.out.Val? then Res(Val(Arr([a.out.v] + b.out.v.elems)), b.st) else b
  }

  function CallFn(k: Config, fuel: nat, env: Env, depth: nat, name: string, args: seq<Value>, s: State): (r: Res)
    ensures Grows(s, r.st)
    decreases fuel, 3
  {
    if IsDebugName(name) then
      Res(Val(LastOr(args)), s.(log := s.log + [DebugEntry(name, args)]))
    else
      match Resolve(k, UsesOf(Lookup(env, s, USES)), name)
      case BuiltinTarget(b, checked) =>
        if checked && BadArity(b, |args|) then Res(Err(Failed("arity")), s)
        else (match b.kind
              case Plain(f) => Res(PrimOut(f(args)), s)
              case HigherOrder(h) => CallHof(k, fuel, h, args, s))
      case UserTarget(f) => CallUser(k, fuel, depth, f, args, s)
      case NoTarget => Res(Err(NotDefined(name)), s)
  }

  function HofArgs(h: Hof, acc: Value, item: Value): seq<Value> {
    if h == ReduceHof then [acc, item] else [item]
  }

  function HofStep(h: Hof, acc: Value, item: Value, v: Value): Value {
    match h
    case MapHof => if acc.Arr? then Arr(acc.elems + [v]) else acc
    case FilterHof => if acc.Arr? && ToBool(v) then Arr(acc.elems + [item]) else acc
    case ReduceHof => v
  }

  function HofArity(h: Hof): nat {
    if h == ReduceHof then 3 else 2
  }

  function CallHof(k: Config, fuel: nat, h: Hof, args: seq<Value>, s: State): (r: Res)
    ensures Grows(s, r.st)
    decreases fuel, 2, 1
  {
    if args == [] then Res(Panic, s)
    else if !args[0].Arr? then Res(Err(Failed("first argument must be an array")), s)
    else if h == ReduceHof && |args| < 2 then Res(Panic, s)
    else if |args| < HofArity(h) then (if args[0].elems == [] then Res(Val(HofInit(h, args)), s) else Res(Panic, s))
    else HofLoop(k, fuel, h, args[HofArity(h) - 1], args[0].elems, HofInit(h, args), s)
  }

  function HofInit(h: Hof, args: seq<Value>): Value
    requires h == ReduceHof ==> |args| >= 2
  {
    if h == ReduceHof then args[1] else Arr([])
  }

  /** One call of `f` per element, in order. */
  function HofLoop(k: Config, fuel: nat, h: Hof, f: Value, items: seq<Value>, acc: Value, s: State): (r: Res)
    ensures Grows(s, r.st)
    decreases fuel, 2, 0, |items|
  {
    if items == [] then Res(Val(acc), s)
    else
      var a := Apply(k, fuel, f, HofArgs(h, acc, items[0]), s);
      if a.out.Val? then HofLoop(k, fuel, h, f, items[1..], HofStep(h, acc, items[0], a.out.v), a.st) else a
  }

  function CallEnv(c: Closure, args: seq<Value>): Env {
    Env([Bind(c.params, args)] + c.env.frames, c.env.base)
  }

  /** Runs a closure at the depth where it was written, plus one. */
  function Apply(k: Config, fuel: nat, f: Value, args: seq<Value>, s: State): (r: Res)
    ensures Grows(s, r.st)
    decreases fuel, 1
  {
    if !f.Clo? || f.id >= |s.clos| then Res(Err(Failed("expected lambda")), s)
    else
      var c := s.clos[f.id];
      var s1 := s.(unbound := s.unbound + Missing(c.params, |args|));
      if TooDeep(k, c.depth + 1) then Res(Err(MaxDepth), s1)
      else Eval(k, fuel, CallEnv(c, args), c.depth + 1, c.body, s1)
  }

  function CallUser(k: Config, fuel: nat, depth: nat, f: FnDef, args: seq<Value>, s: State): (r: Res)
    ensures Grows(s, r.st)
    decreases fuel, 2, 0, 0
  {
    var b := |s.bases|;
    var s1 := s.(bases := s.bases + [map[]]);
    if TooDeep(k, depth + 1) then Res(Err(MaxDepth), s1)
    else
      var p := BindParams(k, fuel, b, depth + 1, f.params, args, s1);
      if p.out.Val? then ExecBody(k, fuel, b, depth + 1, f.body, Null, p.st) else p
  }

  /** Positional arguments, then defaults, evaluated in the scope built so far. */
  function BindParams(k: Config, fuel: nat, b: nat, depth: nat, params: seq<Param>, args: seq<Value>, s: State): (r: Res)
    requires b < |s.bases|
    ensures GrowsBut(s, r.st, b)
    decreases fuel, 1, params
  {
    if params == [] then Res(Val(Null), s)
    else if args != [] then
      BindParams(k, fuel, b, depth, params[1..], args[1..], SetBase(s, b, params[0].name, args[0]))
    else if params[0].default.Some? then
      var a := Eval(k, fuel, Env([], Some(b)), depth, params[0].default.value, s);
      if a.out.Val? then
        BindParams(k, fuel, b, depth, params[1..], [], SetBase(a.st, b, params[0].name, a.out.v))
      else a
    else
      BindParams(k, fuel, b, depth, params[1..], [], s.(unbound := s.unbound + {params[0].name}))
  }

  /** Every statement runs; the last one's value is the body's. */
  function ExecBody(k: Config, fuel: nat, b: nat, depth: nat, stmts: seq<Stmt>, result: Value, s: State): (r: Res)
    requires b < |s.bases|
    ensures GrowsBut(s, r.st, b)
    decreases fuel, 1, stmts
  {
    if stmts == [] then Res(Val(result), s)
    else
      var a := ExecStmt(k, fuel, b, depth, stmts[0], s);
      if a.out.Val? then ExecBody(k, fuel, b, depth, stmts[1..], a.out.v, a.st) else a
  }

  function ExecStmt(k: Config, fuel: nat, b: nat, depth: nat, stmt: Stmt, s: State): (r: Res)
    requires b < |s.bases|
    ensures GrowsBut(s, r.st, b)
    decreases fuel, 1, stmt
  {
    if TooDeep(k, depth) then Res(Err(MaxDepth), s) else
    match stmt
    case Let(x, e) =>
      var a := Eval(k, fuel, Env([], Some(b)), depth, e, s);
      if a.out.Val? then Res(Val(Null), SetBase(a.st, b, x, a.out.v)) else a
    case Return(e) => Eval(k, fuel, Env([], Some(b)), depth, e, s)
    case ExprStmt(e) => Eval(k, fuel, Env([], Some(b)), depth, e, s)
    case Use(ns) =>
      var uses := UsesOf(Lookup(Env([], Some(b)), s, USES));
      Res(Val(Null), SetBase(s, b, USES, Arr(uses + [Str(ns)])))
  }

  /** An execution from outside: parameters by name, depth zero, a fresh heap. */
  function Execute(k: Config, fuel: nat, f: FnDef, args: Frame): Res
  {
    var s := State([map[]], [], [], {});
    var p := BindNamed(k, fuel, 0, f.params, args, s);
    if p.out.Val? then ExecBody(k, fuel, 0, 0, f.body, Null, p.st) else p
  }

  function BindNamed(k: Config, fuel: nat, b: nat, params: seq<Param>, args: Frame, s: State): (r: Res)
    requires b < |s.bases|
    ensures GrowsBut(s, r.st, b)
    decreases params
  {
    if params == [] then Res(Val(Null), s)
    else if params[0].name in args then
      BindNamed(k, fuel, b, params[1..], args, SetBase(s, b, params[0].name, args[params[0].name]))
    else if params[0].default.Some? then
      var a := Eval(k, fuel, Env([], Some(b)), 0, params[0].default.value, s);
      if a.out.Val? then
        BindNamed(k, fuel, b, params[1..], args, SetBase(a.st, b, params[0].name, a.out.v))
      else a
    else
      BindNamed(k, fuel, b, params[1..], args, SetBase(s, b, params[0].name, Null))
  }
}
