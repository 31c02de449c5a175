/** The registry of compiled functions: what is known when a function is compiled, and
    whether that still stands when it runs. */
module Registry {
  import opened Wrappers
  import opened Syntax
  import opened Compiler
  import Arguments
  import Lexical
  import Lookups
  import Machine
  import Refinement
  import Running
  import Soundness
  import Termination

  function Get<T>(m: map<string, T>, name: string): Option<T> {
    if name in m then Some(m[name]) else None
  }

  /** The executor's own two tables of builtins. */
  class Builtins {
    const base: map<string, Builtin>
    var overrides: map<string, Builtin>

    constructor (base: map<string, Builtin>)
      ensures this.base == base && overrides == map[]
    {
      this.base, overrides := base, map[];
    }

    function Table(): map<string, Builtin>
      reads this
    {
      base + overrides
    }

    method RegisterBuiltin(name: string, b: Builtin)
      modifies this
      ensures overrides == old(overrides)[name := b]
    {
      overrides := overrides[name := b];
    }

    /** Its own registrations first, then the shared table. */
    method LookupBuiltin(name: string) returns (r: Option<Builtin>)
      ensures r == Get(Table(), name)
    {
      r := Get(overrides, name);
      if r.None? {
        r := Get(base, name);
      }
    }
  }

  /** A function as it was compiled, with the dependencies recorded then. */
  datatype Compiled = Compiled(f: FnDef, deps: set<string>)

  /** The dependencies are all the function needs to compile, in any registry. */
  ghost predicate Suffices(c: Compiled) {
    forall k: Config :: AllKnown(k, c.deps) ==> Clean(k, c.f)
  }

  class Registry {
    const base: map<string, Builtin>
    const runner: Builtins
    const limit: nat
    const prim: (string, seq<Value>) -> Prim
    const show: Value -> string
    var overrides: map<string, Builtin>
    var compiled: map<string, Compiled>

    /** The executor's table is in step with this one. */
    ghost predicate Valid()
      reads this, runner
    {
      && runner.base == base && runner.overrides == overrides
      && forall n :: n in compiled ==> Suffices(compiled[n])
    }

    constructor (base: map<string, Builtin>, maxDepth: int, prim: (string, seq<Value>) -> Prim, show: Value -> string)
      ensures Valid() && Sealed() && fresh(runner)
      ensures this.base == base && overrides == map[] && compiled == map[]
      ensures limit == Termination.ResolveMaxDepth(maxDepth) && this.prim == prim && this.show == show
    {
      this.base, this.prim, this.show := base, prim, show;
      limit := Termination.ResolveMaxDepth(maxDepth);
      runner := new Builtins(base);
      overrides, compiled := map[], map[];
    }

    /** What the compiler is answered from. */
    function Answers(): Config
      reads this
    {
      Config(limit, prim, show, base + overrides, map n | n in compiled :: compiled[n].f, false)
    }

    /** What the executor looks calls up in. */
    function Looked(): Config
      reads this, runner
    {
      Answers().(builtins := runner.Table())
    }

    /** Every dependency of every compiled function is known. */
    ghost predicate Sealed()
      reads this
    {
      forall n :: n in compiled ==> AllKnown(Answers(), compiled[n].deps)
    }

    /** The registry and the executor agree on every builtin. */
    method LookupBuiltin(name: string) returns (r: Option<Builtin>)
      requires Valid()
      ensures r == Get(Answers().builtins, name) == Get(Looked().builtins, name)
    {
      r := Get(overrides, name);
      if r.None? {
        r := Get(base, name);
      }
    }

    /** How many arguments a name takes, if it names anything. */
    method ResolveFunction(name: string) returns (r: Option<int>)
      requires Valid()
      ensures r.Some? <==> Knows(Answers(), name)
      ensures r.Some? <==> !Find(Looked(), name, true).NoTarget?
      ensures r.Some? ==>
        match Find(Looked(), name, true)
        case BuiltinTarget(b, _) => r.value == b.min
        case UserTarget(f) => r.value == |f.params|
        case NoTarget => false
    {
      var b := LookupBuiltin(name);
      if b.Some? {
        return Some(b.value.min);
      }
      r := if name in compiled then Some(|compiled[name].f.params|) else None;
    }

    /** Adds a function exactly if it compiles against what is known now.  Whatever was
        there stays complete. */
    method Register(name: string, f: FnDef) returns (errors: seq<CompileError>)
      requires Valid()
      modifies this
      ensures Valid() && overrides == old(overrides)
      ensures errors == BodyErrors(old(Answers()), f.body, ParamNames(f.params), [])
      ensures errors == [] <==> Clean(old(Answers()), f)
      ensures compiled ==
        if errors == [] then old(compiled)[name := Compiled(f, BodyDeps(old(Answers()), f.body, []))]
        else old(compiled)
      ensures old(Sealed()) ==> Sealed()
    {
      hide BodyErrors, BodyDeps;
      var checker := new Checker(Answers());
      checker.Compile(f);
      errors := checker.errors;
      if errors == [] {
        var c := Compiled(f, checker.deps);
        Recorded(Answers(), f);
        compiled := compiled[name := c];
      }
    }

    /** Both tables take the builtin, so that they still agree. */
    method RegisterBuiltin(name: string, b: Builtin)
      requires Valid()
      modifies this, runner
      ensures Valid() && overrides == old(overrides)[name := b] && compiled == old(compiled)
      ensures old(Sealed()) ==> Sealed()
    {
      overrides := overrides[name := b];
      runner.RegisterBuiltin(name, b);
    }

    /** Dropping a function leaves the others complete exactly if a builtin answers for it
        or none of them depends on it. */
    method Invalidate(name: string)
      requires Valid()
      modifies this
      ensures Valid() && overrides == old(overrides) && compiled == old(compiled) - {name}
      ensures old(Sealed()) ==>
        (Sealed() <==> name !in old(compiled) || name in base + overrides
                       || forall n :: n in compiled ==> name !in compiled[n].deps)
    {
      ghost var k := Answers();
      compiled := compiled - {name};
      assert forall x :: Knows(Answers(), x) <==> Knows(k, x) && (x != name || x in base + overrides);
    }

    /** A call from outside, on a stack of `fuel` calls. */
    method Execute(fuel: nat, name: string, args: Frame) returns (r: Option<Outcome>)
      requires Valid()
      ensures r.None? <==> name !in compiled
      ensures r.Some? ==> r.value == Running.RunExecute(Looked(), fuel, compiled[name].f, args).out
      ensures r.Some? && Sealed() && AllPlain() && r.value.Err? ==> !r.value.e.NotDefined?
      ensures r.Some? && Arguments.SuppliedTable(Looked()) && Arguments.FrameWithin(args, {}) && r.value.Err? ==>
        !r.value.e.Undefined?
      ensures r.Some? && Sealed() && AllPlain() && Refinement.Invisible(Looked(), compiled[name].f, args) && r.value.Err?
              && r.value.e.Undefined? ==>
        || Dollar(r.value.e.name)
        || r.value.e.name in Lexical.Execute(Looked(), fuel, compiled[name].f, args).st.unbound
    {
      hide Running.RunExecute, Lexical.Execute, Refinement.Invisible, Soundness.PlainFn, Arguments.SuppliedFn, Arguments.PassOn;
      if name !in compiled {
        return None;
      }
      var k, f := Looked(), compiled[name].f;
      var executor := new Machine.Executor(k);
      var out := executor.Execute(fuel, f, args);
      r := Some(out);
      if Sealed() && AllPlain() {
        SealedIsGood();
        Soundness.CleanRunsFindTheirNames(k, fuel, f, args);
        Lookups.RunsFindTheirCallees(k, fuel, f, args);
      }
      if Arguments.SuppliedTable(k) && Arguments.FrameWithin(args, {}) {
        assert name in k.fns && k.fns[name] == f;
        Lookups.RunsFindTheirNames(k, fuel, f, args);
      }
    }

    /** Defaults are literals, and no name is the executor's own. */
    ghost predicate AllPlain()
      reads this
    {
      forall n :: n in compiled ==> Soundness.PlainFn(compiled[n].f)
    }

    /** In a complete registry every function compiles against the tables it runs with. */
    lemma SealedIsGood()
      requires Valid() && Sealed()
      ensures Looked() == Answers() && forall n :: n in compiled ==> Clean(Looked(), compiled[n].f)
      ensures AllPlain() ==> Soundness.GoodTable(Looked())
    {
      hide Clean;
      var k := Looked();
      forall n | n in compiled ensures Clean(k, compiled[n].f) {
        assert Suffices(compiled[n]) && AllKnown(k, compiled[n].deps);
      }
    }
  }

  lemma Recorded(k: Config, f: FnDef)
    requires Clean(k, f)
    ensures AllKnown(k, BodyDeps(k, f.body, []))
    ensures Suffices(Compiled(f, BodyDeps(k, f.body, [])))
  {
    hide BodyErrors, BodyDeps;
    var c := Compiled(f, BodyDeps(k, f.body, []));
    DependenciesDecide(k, k, f.body, ParamNames(f.params), []);
    forall k': Config | AllKnown(k', c.deps) ensures Clean(k', f) {
      DependenciesDecide(k, k', f.body, ParamNames(f.params), []);
    }
  }

  // ----- three names, each registered once -----

  /** `=> 1` */
  const LEAF: FnDef := FnDef([], [ExprStmt(Lit(NumLit(1)))])

  /** `use p` and then `a()` */
  const CALLER: FnDef := FnDef([], [Use("p"), ExprStmt(Call("a", []))])

  /** `=> f()` */
  const LATE: FnDef := FnDef([], [ExprStmt(Call("f", []))])

  /** No builtin has a name that the three functions can reach. */
  predicate NamesFree(builtins: map<string, Builtin>) {
    "a" !in builtins && "f" !in builtins && "p::a" !in builtins && "app:p::a" !in builtins
  }

  predicate Looping(k: Config) {
    NamesFree(k.builtins) && k.fns == map["a" := LEAF, "f" := CALLER, "p::a" := LATE]
  }

  lemma LoopCompiles(k: Config)
    ensures Clean(k, LEAF) && BodyDeps(k, LEAF.body, []) == {}
    ensures Knows(k, "a") ==> Clean(k, CALLER) && BodyDeps(k, CALLER.body, []) == {"a"}
    ensures Knows(k, "f") ==> Clean(k, LATE) && BodyDeps(k, LATE.body, []) == {"f"}
  {
    OneStatement(k, LEAF.body[0], []);
    OneStatement(k, CALLER.body[1], ["p"]);
    OneStatement(k, LATE.body[0], []);
    var rest := CALLER.body[1..];
    assert rest == [CALLER.body[1]] && [] + ["p"] == ["p"];
    BodyStep(k, CALLER.body, {}, []);
    assert ParamNames([]) == {};
  }

  lemma OneStatement(k: Config, st: Stmt, uses: seq<string>)
    ensures BodyErrors(k, [st], {}, uses) == StmtErrors(k, st, {}, uses)
    ensures BodyDeps(k, [st], uses) == StmtDeps(k, st, uses)
  {
    BodyStep(k, [st], {}, uses);
    assert [st][1..] == [];
  }

  /** The table that the three registrations leave. */
  const THREE: map<string, Compiled> :=
    map["a" := Compiled(LEAF, {}), "f" := Compiled(CALLER, {"a"}), "p::a" := Compiled(LATE, {"f"})]

  lemma ThreeLoop(r: Registry)
    requires r.Valid() && r.compiled == THREE && NamesFree(r.base + r.overrides)
    ensures Looping(r.Looked())
  {
    var fns := r.Looked().fns;
    assert fns.Keys == {"a", "f", "p::a"};
  }

  method RegisterTwo(r: Registry)
    requires r.Valid() && r.Sealed() && r.compiled == map[]
    modifies r
    ensures r.Valid() && r.Sealed() && r.overrides == old(r.overrides)
    ensures r.compiled == map["a" := Compiled(LEAF, {}), "f" := Compiled(CALLER, {"a"})]
  {
    hide BodyErrors, BodyDeps, Clean, Suffices, AllKnown, LEAF, CALLER;
    LoopCompiles(r.Answers());
    var e1 := r.Register("a", LEAF);
    LoopCompiles(r.Answers());
    var e2 := r.Register("f", CALLER);
  }

  /** Each of them compiles when its turn comes, and the registry ends complete.  The call in
      `f` is recorded as a call of `a`, which calls nothing. */
  method RegisterLoop(r: Registry)
    requires r.Valid() && r.Sealed() && r.compiled == map[] && NamesFree(r.base + r.overrides)
    modifies r
    ensures r.Valid() && r.Sealed() && r.compiled == THREE && Looping(r.Looked())
  {
    hide BodyErrors, BodyDeps, Clean, Suffices, AllKnown, LEAF, CALLER, LATE, NamesFree, Looping;
    RegisterTwo(r);
    LoopCompiles(r.Answers());
    var e := r.Register("p::a", LATE);
    ThreeLoop(r);
  }

  lemma LateReaches(k: Config)
    requires Looping(k)
    ensures Resolve(k, [Str("p")], "a") == UserTarget(LATE)
    ensures Resolve(k, [], "f") == UserTarget(CALLER)
    ensures !IsDebugName("a") && !IsDebugName("f")
  {
    var names := Qualified("p", "a");
    assert "app:" + "p" + "::" + "a" == "app:p::a" && "p" + "::" + "a" == "p::a";
    assert names == ["app:p::a", "p::a"] && names[1..][0] == "p::a";
    assert Find(k, names[0], false) == NoTarget && Find(k, names[1..][0], false) == UserTarget(LATE);
    assert FindAny(k, names[1..]) == UserTarget(LATE);
    assert FindAny(k, names) == UserTarget(LATE);
  }

  /** Yet a run of `f` finds `p::a` first, which calls `f`: without a depth limit no stack is
      enough. */
  lemma {:induction false} OnceRegisteredCanLoop(k: Config, fuel: nat)
    requires Looping(k) && k.limit == 0
    ensures Lexical.Execute(k, fuel, CALLER, map[]).out == Overflow
  {
    CallerOverflows(k, fuel, 0, 0, Lexical.State([map[]], [], [], {}));
  }

  lemma {:induction false} CallerOverflows(k: Config, fuel: nat, b: nat, depth: nat, s: Lexical.State)
    requires Looping(k) && k.limit == 0 && b < |s.bases| && s.bases[b] == map[]
    ensures Lexical.ExecBody(k, fuel, b, depth, CALLER.body, Null, s).out == Overflow
    decreases fuel
  {
    var stmts := CALLER.body;
    var env := Lexical.Env([], Some(b));
    var s' := Lexical.SetBase(s, b, USES, Arr([Str("p")]));
    assert Lexical.Lookup(env, s, USES) == None;
    assert UsesOf(None) + [Str("p")] == [Str("p")];
    assert Lexical.ExecStmt(k, fuel, b, depth, stmts[0], s) == Lexical.Res(Val(Null), s');
    assert Lexical.Lookup(env, s', USES) == Some(Arr([Str("p")]));
    if fuel > 0 {
      LateReaches(k);
      LateOverflows(k, fuel - 1, depth, s');
    }
    assert Lexical.Eval(k, fuel, env, depth, Call("a", []), s').out == Overflow;
    assert Lexical.ExecStmt(k, fuel, b, depth, stmts[1], s').out == Overflow;
    assert stmts[1..][0] == stmts[1];
    assert Lexical.ExecBody(k, fuel, b, depth, stmts[1..], Null, s').out == Overflow;
  }

  lemma {:induction false} LateOverflows(k: Config, fuel: nat, depth: nat, s: Lexical.State)
    requires Looping(k) && k.limit == 0
    ensures Lexical.CallUser(k, fuel, depth, LATE, [], s).out == Overflow
    decreases fuel
  {
    var b := |s.bases|;
    var env := Lexical.Env([], Some(b));
    var s' := s.(bases := s.bases + [map[]]);
    assert Lexical.Lookup(env, s', USES) == None;
    if fuel > 0 {
      LateReaches(k);
      var s2 := s'.(bases := s'.bases + [map[]]);
      CallerOverflows(k, fuel - 1, b + 1, depth + 2, s2);
      assert Lexical.CallUser(k, fuel - 1, depth + 1, CALLER, [], s').out == Overflow;
    }
    assert Lexical.Eval(k, fuel, env, depth + 1, Call("f", []), s').out == Overflow;
    assert Lexical.ExecStmt(k, fuel, b, depth + 1, LATE.body[0], s').out == Overflow;
    assert Lexical.ExecBody(k, fuel, b, depth + 1, LATE.body, Null, s').out == Overflow;
  }
}
