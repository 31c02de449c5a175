/** The executor's methods, statement by statement, over its heap of scopes and lambda
    objects.  Each is proved to do what `Running` says; a whole execution is proved to give
    the outcome and the debug log of plain lexical scoping. */
module Machine {
  import opened Wrappers
  import opened Syntax
  import opened Lexical
  import opened Store
  import opened Running
  import opened Refinement

  /** The rest of a list evaluation, with `vals` already computed. */
  ghost function Prepend(vals: seq<Value>, r: Ran): Ran {
    if r.out.Val? && r.out.v.Arr? then Ran(Val(Arr(vals + r.out.v.elems)), r.h) else r
  }

  lemma PrependMore(vals: seq<Value>, v: Value, r: Ran)
    ensures Prepend(vals, Prepend([v], r)) == Prepend(vals + [v], r)
  {
    if r.out.Val? && r.out.v.Arr? {
      assert vals + ([v] + r.out.v.elems) == (vals + [v]) + r.out.v.elems;
    }
  }

  class Executor {
    const k: Config
    var scopes: seq<Scope>
    var clos: seq<LambdaObj>
    var log: seq<Entry>

    // Which scopes are function scopes, and which lambdas have a call running in their
    // own scope.
    ghost var phi: seq<nat>
    ghost var live: seq<nat>

    ghost function H(): Heap
      reads this
    {
      Heap(scopes, clos, log, phi, live)
    }

    ghost predicate Valid()
      reads this
    {
      WellFormed(H())
    }

    constructor (k: Config)
      ensures Valid() && this.k == k && H() == EMPTY
    {
      this.k := k;
      scopes, clos, log := [], [], [];
      phi, live := [], [];
    }

    // ----- scopes -----

    /** Walks the chain outwards until a scope binds the name. */
    method Get(env: nat, name: string) returns (v: Option<Value>)
      requires Valid() && env < |scopes|
      ensures v == Running.Get(scopes, env, name)
    {
      var s: nat := env;
      while true
        invariant s < |scopes| && Running.Get(scopes, env, name) == Running.Get(scopes, s, name)
        decreases s
      {
        if name in scopes[s].vars {
          return Some(scopes[s].vars[name]);
        }
        if scopes[s].parent.None? {
          return None;
        }
        s := scopes[s].parent.value;
      }
    }

    /** Copies the chain for as long as its scopes are reusable.  No later call can reach
        the copy if and only if no lambda's argument scope stands behind the first scope
        that is not reusable. */
    method Snapshot(env: nat) returns (cp: nat)
      requires Valid() && env < |scopes|
      modifies this`scopes
      ensures Valid() && cp < |scopes| && old(scopes) <= scopes
      ensures Copy(scopes, cp) == Running.Snapshot(old(scopes), env)
      ensures ScratchFree(H(), cp) <==> RestScratchFree(old(H()), env)
      decreases env
    {
      SnapshotKeeps(H(), env);
      SnapshotScratchFree(H(), env);
      if !scopes[env].reusable {
        return env;
      }
      var parent := None;
      if scopes[env].parent.Some? {
        var p := Snapshot(scopes[env].parent.value);
        parent := Some(p);
      }
      cp := |scopes|;
      scopes := scopes + [Scope(parent, scopes[env].vars, false)];
    }

    // ----- expressions -----

    method EvalExpr(fuel: nat, env: nat, depth: nat, e: Expr) returns (r: Outcome)
      requires Valid() && env < |scopes|
      modifies this
      ensures Valid() && |old(scopes)| <= |scopes|
      ensures RunExpr(k, fuel, env, depth, e, old(H())) == Ran(r, H())
      decreases fuel, 0, e, 1
    {
      hide WellFormed, Kept;
      ExprKeeps(k, fuel, env, depth, e, H());
      KeptGrows(H(), RunExpr(k, fuel, env, depth, e, H()).h);
      if TooDeep(k, depth) {
        return Err(MaxDepth);
      }
      match e {
        case Lit(l) =>
          r := Val(LitValue(l));
        case Ident(x) =>
          var v := Get(env, x);
          r := if v.Some? then Val(v.value) else Err(Undefined(x));
        case Strict(op, operands) =>
          r := EvalArgs(fuel, env, depth, operands);
          if r.Val? {
            r := PrimOut(k.prim(op, r.v.elems));
          }
        case ArrayLit(elems) =>
          r := EvalArgs(fuel, env, depth, elems);
        case And(_, _) =>
          r := EvalLogical(fuel, env, depth, e);
        case Or(_, _) =>
          r := EvalLogical(fuel, env, depth, e);
        case If(_, _, _) =>
          r := EvalIf(fuel, env, depth, e);
        case Coalesce(_, _) =>
          r := EvalCoalesce(fuel, env, depth, e);
        case Try(_, _) =>
          r := EvalTry(fuel, env, depth, e);
        case For(_, _, _, _) =>
          r := EvalForExpr(fuel, env, depth, e);
        case Raise(msg) =>
          r := EvalExpr(fuel, env, depth, msg);
          if r.Val? {
            r := Err(Raised(ToStr(k, r.v)));
          }
        case Lambda(params, body) =>
          r := EvalLambda(env, depth, params, body);
        case Call(_, _) =>
          r := EvalCall(fuel, env, depth, e);
      }
    }

    method EvalLogical(fuel: nat, env: nat, depth: nat, e: Expr) returns (r: Outcome)
      requires Valid() && env < |scopes| && !TooDeep(k, depth)
      requires e.And? || e.Or?
      modifies this
      ensures RunExpr(k, fuel, env, depth, e, old(H())) == Ran(r, H())
      decreases fuel, 0, e, 0
    {
      hide WellFormed;
      r := EvalExpr(fuel, env, depth, e.left);
      if !r.Val? {
        return;
      }
      if ToBool(r.v) == e.Or? {
        return Val(Bool(e.Or?));
      }
      r := EvalExpr(fuel, env, depth, e.right);
      if r.Val? {
        r := Val(Bool(ToBool(r.v)));
      }
    }

    method EvalIf(fuel: nat, env: nat, depth: nat, e: Expr) returns (r: Outcome)
      requires Valid() && env < |scopes| && !TooDeep(k, depth) && e.If?
      modifies this
      ensures RunExpr(k, fuel, env, depth, e, old(H())) == Ran(r, H())
      decreases fuel, 0, e, 0
    {
      hide WellFormed;
      r := EvalExpr(fuel, env, depth, e.cond);
      if !r.Val? {
        return;
      }
      if ToBool(r.v) {
        r := EvalExpr(fuel, env, depth, e.thn);
      } else if e.els.Some? {
        r := EvalExpr(fuel, env, depth, e.els.value);
      } else {
        r := Val(Null);
      }
    }

    method EvalCoalesce(fuel: nat, env: nat, depth: nat, e: Expr) returns (r: Outcome)
      requires Valid() && env < |scopes| && !TooDeep(k, depth) && e.Coalesce?
      modifies this
      ensures RunExpr(k, fuel, env, depth, e, old(H())) == Ran(r, H())
      decreases fuel, 0, e, 0
    {
      hide WellFormed;
      r := EvalExpr(fuel, env, depth, e.left);
      if r.Val? && r.v.Null? {
        r := EvalExpr(fuel, env, depth, e.right);
      }
    }

    method EvalTry(fuel: nat, env: nat, depth: nat, e: Expr) returns (r: Outcome)
      requires Valid() && env < |scopes| && !TooDeep(k, depth) && e.Try?
      modifies this
      ensures RunExpr(k, fuel, env, depth, e, old(H())) == Ran(r, H())
      decreases fuel, 0, e, 0
    {
      hide WellFormed;
      r := EvalExpr(fuel, env, depth, e.body);
      if !r.Err? {
        return;
      }
      if e.default.Some? {
        r := EvalExpr(fuel, env, depth, e.default.value);
      } else {
        r := Val(Null);
      }
    }

    /** Operands, elements or arguments, left to right. */
    method EvalArgs(fuel: nat, env: nat, depth: nat, es: seq<Expr>) returns (r: Outcome)
      requires Valid() && env < |scopes|
      modifies this
      ensures Valid() && |old(scopes)| <= |scopes|
      ensures RunList(k, fuel, env, depth, es, old(H())) == Ran(r, H())
      decreases fuel, 0, es, 0
    {
      hide WellFormed, RunExpr;
      var vals := [];
      var i := 0;
      assert es[0..] == es;
      while i < |es|
        invariant 0 <= i <= |es|
        invariant Valid() && |old(scopes)| <= |scopes|
        invariant RunList(k, fuel, env, depth, es, old(H()))
               == Prepend(vals, RunList(k, fuel, env, depth, es[i..], H()))
      {
        assert es[i..][0] == es[i] && es[i..][1..] == es[i + 1..];
        var a := EvalExpr(fuel, env, depth, es[i]);
        if !a.Val? {
          return a;
        }
        PrependMore(vals, a.v, RunList(k, fuel, env, depth, es[i + 1..], H()));
        vals := vals + [a.v];
        i := i + 1;
      }
      r := Val(Arr(vals));
    }

    method EvalForExpr(fuel: nat, env: nat, depth: nat, e: Expr) returns (r: Outcome)
      requires Valid() && env < |scopes| && !TooDeep(k, depth) && e.For?
      modifies this
      ensures RunExpr(k, fuel, env, depth, e, old(H())) == Ran(r, H())
      decreases fuel, 0, e, 0
    {
      hide WellFormed;
      r := EvalExpr(fuel, env, depth, e.iterable);
      if !r.Val? {
        return;
      }
      if !r.v.Arr? {
        return Err(Failed("for..in: expected array"));
      }
      r := EvalRounds(fuel, env, depth, e.variable, e.index, e.body, r.v.elems);
    }

    method EvalRounds(fuel: nat, env: nat, depth: nat, x: string, index: string, body: Expr, items: seq<Value>)
      returns (r: Outcome)
      requires Valid() && env < |scopes|
      modifies this
      ensures RunRounds(k, fuel, env, depth, x, index, body, items, 0, old(H())) == Ran(r, H())
      decreases fuel, 0, body, 3
    {
      hide WellFormed, RunExpr;
      var result := [];
      var i := 0;
      while i < |items|
        invariant 0 <= i <= |items|
        invariant Valid() && |old(scopes)| <= |scopes|
        invariant RunRounds(k, fuel, env, depth, x, index, body, items, 0, old(H()))
               == Prepend(result, RunRounds(k, fuel, env, depth, x, index, body, items, i, H()))
      {
        if TooDeep(k, depth) {
          return Err(MaxDepth);
        }
        var a := EvalRound(fuel, env, depth, body, ForFrame(x, index, items[i], i));
        if !a.Val? {
          return a;
        }
        PrependMore(result, a.v, RunRounds(k, fuel, env, depth, x, index, body, items, i + 1, H()));
        result := result + [a.v];
        i := i + 1;
      }
      r := Val(Arr(result));
    }

    /** One round, in a scope of its own on top of the surrounding one. */
    method EvalRound(fuel: nat, env: nat, depth: nat, body: Expr, vars: Frame) returns (r: Outcome)
      requires Valid() && env < |scopes|
      modifies this
      ensures Valid() && |old(scopes)| <= |scopes|
      ensures RunExpr(k, fuel, |old(scopes)|, depth, body, WithScope(old(H()), Scope(Some(env), vars, false))) == Ran(r, H())
      decreases fuel, 0, body, 2
    {
      hide WellFormed, RunExpr;
      AddScope(H(), Scope(Some(env), vars, false));
      var child := |scopes|;
      scopes := scopes + [Scope(Some(env), vars, false)];
      r := EvalExpr(fuel, child, depth, body);
    }

    /** A closure keeps a snapshot of the scope it is written in. */
    method EvalLambda(env: nat, depth: nat, params: seq<string>, body: Expr) returns (r: Outcome)
      requires Valid() && env < |scopes|
      modifies this
      ensures r == Val(Clo(|old(clos)|)) && H() == Capturing(old(H()), env, depth, params, body)
    {
      hide WellFormed;
      var captured := Snapshot(env);
      r := Val(Clo(|clos|));
      clos := clos + [LambdaObj(params, body, captured, depth, None, false)];
    }

    method EvalCall(fuel: nat, env: nat, depth: nat, e: Expr) returns (r: Outcome)
      requires Valid() && env < |scopes| && !TooDeep(k, depth) && e.Call?
      modifies this
      ensures RunExpr(k, fuel, env, depth, e, old(H())) == Ran(r, H())
      decreases fuel, 0, e, 0
    {
      hide WellFormed, RunList, RunCall;
      r := EvalArgs(fuel, env, depth, e.args);
      if !r.Val? {
        return;
      }
      if fuel == 0 {
        return Overflow;
      }
      r := CallFunction(fuel - 1, env, depth, e.fn, r.v.elems);
    }

    // ----- calls -----

    method CallFunction(fuel: nat, env: nat, depth: nat, name: string, args: seq<Value>) returns (r: Outcome)
      requires Valid() && env < |scopes|
      modifies this
      ensures RunCall(k, fuel, env, depth, name, args, old(H())) == Ran(r, H())
      decreases fuel, 3
    {
      hide WellFormed, RunHof, RunUser;
      if IsDebugName(name) {
        log := log + [DebugEntry(name, args)];
        return Val(LastOr(args));
      }
      var uses := Get(env, USES);
      var t := ResolveViaUses(UsesOf(uses), name);
      if t.NoTarget? {
        t := Find(k, name, true);
      }
      match t {
        case BuiltinTarget(b, checked) =>
          if checked && BadArity(b, |args|) {
            return Err(Failed("arity"));
          }
          match b.kind {
            case Plain(f) => r := PrimOut(f(args));
            case HigherOrder(hof) => r := CallHigherOrder(fuel, hof, args);
          }
        case UserTarget(f) =>
          r := CallUserFunction(fuel, depth, f, args);
        case NoTarget =>
          r := Err(NotDefined(name));
      }
    }

    /** Tries every namespace in order, and both spellings of the name in each. */
    method ResolveViaUses(uses: seq<Value>, name: string) returns (t: Target)
      ensures t == FindVia(k, uses, name)
    {
      var i := 0;
      assert uses[0..] == uses;
      while i < |uses|
        invariant 0 <= i <= |uses|
        invariant FindVia(k, uses, name) == FindVia(k, uses[i..], name)
      {
        var names := Qualified(ToStr(k, uses[i]), name);
        assert uses[i..][0] == uses[i] && uses[i..][1..] == uses[i + 1..];
        var j := 0;
        assert names[0..] == names;
        while j < |names|
          invariant 0 <= j <= |names|
          invariant FindAny(k, names) == FindAny(k, names[j..])
        {
          assert names[j..][0] == names[j] && names[j..][1..] == names[j + 1..];
          t := Find(k, names[j], false);
          if !t.NoTarget? {
            return;
          }
          j := j + 1;
        }
        i := i + 1;
      }
      t := NoTarget;
    }

    /** `map`, `filter` and `reduce`: the same closure, once per element. */
    method CallHigherOrder(fuel: nat, hof: Hof, args: seq<Value>) returns (r: Outcome)
      requires Valid()
      modifies this
      ensures RunHof(k, fuel, hof, args, old(H())) == Ran(r, H())
      decreases fuel, 2, 1
    {
      hide WellFormed, RunLambda, HofStep, HofArgs;
      if args == [] {
        return Panic;
      }
      if !args[0].Arr? {
        return Err(Failed("first argument must be an array"));
      }
      if hof == ReduceHof && |args| < 2 {
        return Panic;
      }
      var items := args[0].elems;
      var acc := HofInit(hof, args);
      if |args| < HofArity(hof) {
        return if items == [] then Val(acc) else Panic;
      }
      var f := args[HofArity(hof) - 1];
      ghost var acc0 := acc;
      var i := 0;
      assert items[0..] == items;
      while i < |items|
        invariant 0 <= i <= |items| && Valid()
        invariant RunLoop(k, fuel, hof, f, items, acc0, old(H())) == RunLoop(k, fuel, hof, f, items[i..], acc, H())
      {
        assert items[i..][0] == items[i] && items[i..][1..] == items[i + 1..];
        r := CallLambda(fuel, f, HofArgs(hof, acc, items[i]));
        if !r.Val? {
          return;
        }
        acc := HofStep(hof, acc, items[i], r.v);
        i := i + 1;
      }
      r := Val(acc);
    }

    method CallLambda(fuel: nat, f: Value, args: seq<Value>) returns (r: Outcome)
      requires Valid()
      modifies this
      ensures Valid() && RunLambda(k, fuel, f, args, old(H())) == Ran(r, H())
      decreases fuel, 1
    {
      hide WellFormed, Kept, RunExpr, Enter, ArgScope;
      LambdaKeeps(k, fuel, f, args, H());
      if !f.Clo? || f.id >= |clos| {
        return Err(Failed("expected lambda"));
      }
      var id, c := f.id, clos[f.id];
      var child := TakeScope(id, args);
      ghost var h1 := H();
      if TooDeep(k, c.depth + 1) {
        KeptSelf(h1);
        r := Err(MaxDepth);
      } else {
        ExprKeeps(k, fuel, child, c.depth + 1, c.body, h1);
        r := EvalExpr(fuel, child, c.depth + 1, c.body);
      }
      if !c.inCall {
        LeaveKept(old(H()), id, Bind(c.params, args), H());
        clos := clos[id := clos[id].(inCall := false)];
        live := live[..|live| - 1];
      }
    }

    /** Rebinds the lambda's own argument scope, unless a call is already using it, and
        binds the arguments in it. */
    method TakeScope(id: nat, args: seq<Value>) returns (child: nat)
      requires Valid() && id < |clos|
      modifies this
      ensures H() == Enter(old(H()), id, Bind(old(clos[id].params), args))
      ensures child == ArgScope(old(H()), id) && child < |scopes| && Valid()
    {
      var c := clos[id];
      ghost var h0 := H();
      assert WellFormedLambda(h0, c);
      var reused := !c.inCall;
      if reused && c.scratch.Some? {
        child := c.scratch.value;
        scopes := scopes[child := Scope(Some(c.env), map[], true)];
      } else {
        child := |scopes|;
        scopes := scopes + [Scope(Some(c.env), map[], true)];
      }
      if reused {
        clos := clos[id := c.(scratch := Some(child), inCall := true)];
        live := live + [id];
      }
      BindArgs(child, c.params, args);
      ArgScopeThere(h0, id, Bind(c.params, args));
      if reused {
        EnterOwn(h0, id, Bind(c.params, args));
      } else {
        EnterFresh(h0, id, Bind(c.params, args));
      }
      assert scopes == Enter(h0, id, Bind(c.params, args)).scopes;
    }

    /** Binds positional arguments in a scope; missing ones stay unbound. */
    method BindArgs(r: nat, params: seq<string>, args: seq<Value>)
      requires r < |scopes| && scopes[r].vars == map[]
      modifies this`scopes
      ensures scopes == old(scopes)[r := old(scopes)[r].(vars := Bind(params, args))]
    {
      var i := 0;
      while i < |params|
        invariant 0 <= i <= |params|
        invariant scopes == old(scopes)[r := old(scopes)[r].(vars := BindUpTo(params, args, if i <= |args| then i else |args|))]
      {
        if i < |args| {
          scopes := scopes[r := scopes[r].(vars := scopes[r].vars[params[i] := args[i]])];
        }
        i := i + 1;
      }
    }

    method CallUserFunction(fuel: nat, depth: nat, f: FnDef, args: seq<Value>) returns (r: Outcome)
      requires Valid()
      modifies this
      ensures RunUser(k, fuel, depth, f, args, old(H())) == Ran(r, H())
      decreases fuel, 2, 0
    {
      hide WellFormed, RunParams, RunBody;
      AddBase(H());
      var env := |scopes|;
      scopes := scopes + [Scope(None, map[], false)];
      phi := phi + [env];
      if TooDeep(k, depth + 1) {
        return Err(MaxDepth);
      }
      r := BindParameters(fuel, env, depth + 1, f.params, args);
      if r.Val? {
        r := ExecBlock(fuel, env, depth + 1, f.body);
      }
    }

    /** Sets a variable of a function's scope. */
    method SetLocal(env: nat, x: string, v: Value)
      requires Valid() && FunctionScope(H(), env)
      modifies this`scopes
      ensures Valid() && FunctionScope(H(), env) && H() == WithVar(old(H()), env, x, v)
    {
      AddVar(H(), env, x, v);
      scopes := scopes[env := scopes[env].(vars := scopes[env].vars[x := v])];
    }

    /** Evaluates an expression in a function scope and binds its value there. */
    method BindValue(fuel: nat, env: nat, depth: nat, x: string, e: Expr) returns (r: Outcome)
      requires Valid() && FunctionScope(H(), env)
      modifies this
      ensures Valid() && FunctionScope(H(), env)
      ensures RunBinding(k, fuel, env, depth, x, e, old(H())) == Ran(r, H())
      decreases fuel, 0, e, 2
    {
      hide WellFormed, RunExpr, Kept;
      TopExprKeeps(k, fuel, env, depth, e, H());
      r := EvalExpr(fuel, env, depth, e);
      if r.Val? {
        SetLocal(env, x, r.v);
      }
    }

    method BindParameters(fuel: nat, env: nat, depth: nat, params: seq<Param>, args: seq<Value>) returns (r: Outcome)
      requires Valid() && FunctionScope(H(), env)
      modifies this
      ensures Valid() && FunctionScope(H(), env)
      ensures RunParams(k, fuel, env, depth, params, args, old(H())) == Ran(r, H())
      decreases fuel, 1, 1
    {
      hide WellFormed, RunBinding, WithVar;
      var i := 0;
      assert params[0..] == params && args[0..] == args;
      while i < |params|
        invariant 0 <= i <= |params| && Valid() && FunctionScope(H(), env)
        invariant RunParams(k, fuel, env, depth, params, args, old(H()))
               == RunParams(k, fuel, env, depth, params[i..], if i <= |args| then args[i..] else [], H())
      {
        assert params[i..][0] == params[i] && params[i..][1..] == params[i + 1..];
        if i < |args| {
          assert args[i..][0] == args[i] && args[i..][1..] == args[i + 1..];
          SetLocal(env, params[i].name, args[i]);
        } else if params[i].default.Some? {
          r := BindValue(fuel, env, depth, params[i].name, params[i].default.value);
          if !r.Val? {
            return;
          }
        }
        i := i + 1;
      }
      r := Val(Null);
    }

    /** Runs every statement and yields the last one's value. */
    method ExecBlock(fuel: nat, env: nat, depth: nat, stmts: seq<Stmt>) returns (r: Outcome)
      requires Valid() && FunctionScope(H(), env)
      modifies this
      ensures Valid() && RunBody(k, fuel, env, depth, stmts, Null, old(H())) == Ran(r, H())
      decreases fuel, 1, 1
    {
      hide WellFormed, RunStmt;
      var result := Null;
      var i := 0;
      assert stmts[0..] == stmts;
      while i < |stmts|
        invariant 0 <= i <= |stmts| && Valid() && FunctionScope(H(), env)
        invariant RunBody(k, fuel, env, depth, stmts, Null, old(H()))
               == RunBody(k, fuel, env, depth, stmts[i..], result, H())
      {
        assert stmts[i..][0] == stmts[i] && stmts[i..][1..] == stmts[i + 1..];
        r := ExecStatement(fuel, env, depth, stmts[i]);
        if !r.Val? {
          return;
        }
        result := r.v;
        i := i + 1;
      }
      r := Val(result);
    }

    method ExecStatement(fuel: nat, env: nat, depth: nat, stmt: Stmt) returns (r: Outcome)
      requires Valid() && FunctionScope(H(), env)
      modifies this
      ensures Valid() && FunctionScope(H(), env)
      ensures RunStmt(k, fuel, env, depth, stmt, old(H())) == Ran(r, H())
      decreases fuel, 1, 0
    {
      hide WellFormed, RunExpr, RunBinding, Kept;
      StmtKeeps(k, fuel, env, depth, stmt, H());
      if TooDeep(k, depth) {
        return Err(MaxDepth);
      }
      match stmt {
        case Let(x, e) =>
          r := BindValue(fuel, env, depth, x, e);
          if r.Val? {
            r := Val(Null);
          }
        case Return(e) =>
          r := EvalExpr(fuel, env, depth, e);
        case ExprStmt(e) =>
          r := EvalExpr(fuel, env, depth, e);
        case Use(ns) =>
          var uses := Get(env, USES);
          SetLocal(env, USES, Arr(UsesOf(uses) + [Str(ns)]));
          r := Val(Null);
      }
    }

    /** An execution from outside, with arguments by parameter name, has the outcome and the
        debug log of plain lexical scoping, and leaves no guard up. */
    method Execute(fuel: nat, f: FnDef, args: Frame) returns (r: Outcome)
      requires H() == EMPTY
      modifies this
      ensures Valid() && forall c :: 0 <= c < |clos| ==> !clos[c].inCall
      ensures RunExecute(k, fuel, f, args) == Ran(r, H())
      ensures !k.copies && Invisible(k, f, args) ==>
        r == Lexical.Execute(k, fuel, f, args).out && log == Lexical.Execute(k, fuel, f, args).st.log
    {
      hide RunNamed, RunBody, Lexical.Execute, Invisible;
      AddBase(EMPTY);
      ExecuteKeeps(k, fuel, f, args);
      if !k.copies && Invisible(k, f, args) {
        ReuseIsInvisible(k, fuel, f, args);
      }
      var env := |scopes|;
      scopes := scopes + [Scope(None, map[], false)];
      phi := phi + [env];
      r := BindByName(fuel, env, f.params, args);
      if r.Val? {
        r := ExecBlock(fuel, env, 0, f.body);
      }
    }

    method BindByName(fuel: nat, env: nat, params: seq<Param>, args: Frame) returns (r: Outcome)
      requires Valid() && FunctionScope(H(), env)
      modifies this
      ensures Valid() && FunctionScope(H(), env)
      ensures RunNamed(k, fuel, env, params, args, old(H())) == Ran(r, H())
    {
      hide WellFormed, RunBinding, WithVar;
      var i := 0;
      assert params[0..] == params;
      while i < |params|
        invariant 0 <= i <= |params| && Valid() && FunctionScope(H(), env)
        invariant RunNamed(k, fuel, env, params, args, old(H())) == RunNamed(k, fuel, env, params[i..], args, H())
      {
        assert params[i..][0] == params[i] && params[i..][1..] == params[i + 1..];
        if params[i].name in args {
          SetLocal(env, params[i].name, args[params[i].name]);
        } else if params[i].default.Some? {
          r := BindValue(fuel, env, 0, params[i].name, params[i].default.value);
          if !r.Val? {
            return;
          }
        } else {
          SetLocal(env, params[i].name, Null);
        }
        i := i + 1;
      }
      r := Val(Null);
    }
  }

  lemma KeptGrows(h: Heap, h': Heap)
    requires Kept(h, h', -1)
    ensures |h.scopes| <= |h'.scopes|
  {
  }
}
