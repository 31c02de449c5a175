/** A program in which the executor's reused scopes show: a lambda in a `for` body inside a
    lambda keeps the argument scope of the outer one, which the next element rebinds. */
module Rebinding {
  import opened Wrappers
  import opened Syntax
  import opened Lexical
  import opened Store
  import opened Running
  import opened Termination

  /** `for y in [0]: z => x` */
  const ROUND: Expr := For("y", "", ArrayLit([Lit(NumLit(0))]), INNER)

  /** `z => x` */
  const INNER: Expr := Lambda(["z"], Ident("x"))

  /** `fs[0][0]` */
  const FIRST: Expr := Strict("index", [Strict("index", [Ident("fs"), Lit(NumLit(0))]), Lit(NumLit(0))])

  /** `let fs = map([1, 2], x => for y in [0]: z => x)` followed by `map([0], fs[0][0])` */
  const REBOUND: FnDef := FnDef([], [
    Let("fs", Call("map", [ArrayLit([Lit(NumLit(1)), Lit(NumLit(2))]), Lambda(["x"], ROUND)])),
    ExprStmt(Call("map", [ArrayLit([Lit(NumLit(0))]), FIRST]))])

  /** The operator `index` reads an element of an array. */
  ghost predicate Indexes(k: Config) {
    forall vs: seq<Value>, i :: 0 <= i < |vs| ==> k.prim("index", [Arr(vs), Num(i)]) == Ok(vs[i])
  }

  lemma NotPlaced()
    ensures !PlacedFn(REBOUND)
  {
    var e := REBOUND.body[0].value;
    assert !Placed(INNER, InForInLambda);
    assert !Placed(ROUND, InLambda);
    assert !Placed(e.args[1], Outside);
    assert !PlacedAll(e.args, Outside);
    assert !Placed(e, Outside);
    assert !PlacedStmt(REBOUND.body[0]);
  }

  // ----- under lexical scoping -----

  const TOP: Env := Env([], Some(0))

  const OUTER: Closure := Closure(["x"], ROUND, TOP, 0)

  function InnerClosure(v: int): Closure {
    Closure(["z"], Ident("x"), Env([map["y" := Num(0)], map["x" := Num(v)]], Some(0)), 1)
  }

  lemma NumberList(k: Config, fuel: nat, env: Env, depth: nat, n: int, s: State)
    requires !TooDeep(k, depth)
    ensures Eval(k, fuel, env, depth, ArrayLit([Lit(NumLit(n))]), s) == Res(Val(Arr([Num(n)])), s)
  {
    ListOfOne(k, fuel, env, depth, Lit(NumLit(n)), s);
  }

  /** One call of the outer lambda makes one closure, which remembers its argument. */
  lemma OuterCall(k: Config, fuel: nat, v: int, s: State)
    requires !k.copies && !TooDeep(k, 2) && s.clos != [] && s.clos[0] == OUTER && s.unbound == {}
    ensures Apply(k, fuel, Clo(0), [Num(v)], s)
         == Res(Val(Arr([Clo(|s.clos|)])), s.(clos := s.clos + [InnerClosure(v)]))
  {
    assert Missing(["x"], 1) == {};
    assert s.(unbound := s.unbound + {}) == s;
    var env := CallEnv(OUTER, [Num(v)]);
    assert Bind(["x"], [Num(v)]) == BindUpTo(["x"], [Num(v)], 1) == map["x" := Num(v)];
    assert env.frames == [map["x" := Num(v)]];
    NumberList(k, fuel, env, 1, 0, s);
    OneRound(k, fuel, env, v, s);
  }

  lemma OneRound(k: Config, fuel: nat, env: Env, v: int, s: State)
    requires !k.copies && !TooDeep(k, 2) && env == Env([map["x" := Num(v)]], Some(0))
    ensures EvalFor(k, fuel, env, 1, "y", "", INNER, [Num(0)], 0, s)
         == Res(Val(Arr([Clo(|s.clos|)])), s.(clos := s.clos + [InnerClosure(v)]))
  {
    var env' := Env([ForFrame("y", "", Num(0), 0)] + env.frames, env.base);
    assert env' == InnerClosure(v).env;
    var s' := s.(clos := s.clos + [InnerClosure(v)]);
    assert Eval(k, fuel, env', 1, INNER, s) == Res(Val(Clo(|s.clos|)), s');
    assert [Clo(|s.clos|)] + [] == [Clo(|s.clos|)];
    assert EvalFor(k, fuel, env, 1, "y", "", INNER, [Num(0)], 1, s') == Res(Val(Arr([])), s');
  }

  const LISTS: Value := Arr([Arr([Clo(1)]), Arr([Clo(2)])])

  lemma BothCalls(k: Config, fuel: nat, s: State)
    requires !k.copies && !TooDeep(k, 2) && s.clos == [OUTER] && s.unbound == {}
    ensures HofLoop(k, fuel, MapHof, Clo(0), [Num(1), Num(2)], Arr([]), s)
         == Res(Val(LISTS), s.(clos := [OUTER, InnerClosure(1), InnerClosure(2)]))
  {
    hide Apply;
    var items := [Num(1), Num(2)];
    var s1, s2 := s.(clos := [OUTER, InnerClosure(1)]), s.(clos := [OUTER, InnerClosure(1), InnerClosure(2)]);
    OuterCall(k, fuel, 1, s);
    assert s.clos + [InnerClosure(1)] == s1.clos && s1.clos + [InnerClosure(2)] == s2.clos;
    OuterCall(k, fuel, 2, s1);
    assert HofArgs(MapHof, Arr([]), Num(1)) == [Num(1)] && items[1..] == [Num(2)] && [Num(2)][1..] == [];
    var a1 := Arr([Arr([Clo(1)])]);
    assert HofStep(MapHof, Arr([]), Num(1), Arr([Clo(1)])) == a1;
    assert HofStep(MapHof, a1, Num(2), Arr([Clo(2)])) == LISTS;
    assert HofLoop(k, fuel, MapHof, Clo(0), [], LISTS, s2) == Res(Val(LISTS), s2);
    assert HofLoop(k, fuel, MapHof, Clo(0), [Num(2)], a1, s1) == Res(Val(LISTS), s2);
  }

  /** `xs[0]` where the value of `xs` is an array. */
  lemma IndexFirst(k: Config, fuel: nat, e: Expr, vs: seq<Value>, s: State)
    requires Indexes(k) && vs != [] && Eval(k, fuel, TOP, 0, e, s) == Res(Val(Arr(vs)), s)
    ensures Eval(k, fuel, TOP, 0, Strict("index", [e, Lit(NumLit(0))]), s) == Res(Val(vs[0]), s)
  {
    var es := [e, Lit(NumLit(0))];
    assert es[1..] == [es[1]] && [Arr(vs)] + [Num(0)] == [Arr(vs), Num(0)];
    ListOfOne(k, fuel, TOP, 0, es[1], s);
    assert EvalList(k, fuel, TOP, 0, es, s) == Res(Val(Arr([Arr(vs), Num(0)])), s);
  }

  lemma FirstIndexed(k: Config, fuel: nat, s: State)
    requires Indexes(k) && |s.bases| > 0 && "fs" in s.bases[0] && s.bases[0]["fs"] == LISTS
    ensures Eval(k, fuel, TOP, 0, FIRST, s) == Res(Val(Clo(1)), s)
  {
    hide EvalList;
    assert Eval(k, fuel, TOP, 0, Ident("fs"), s) == Res(Val(LISTS), s);
    IndexFirst(k, fuel, Ident("fs"), LISTS.elems, s);
    IndexFirst(k, fuel, FIRST.operands[0], [Clo(1)], s);
  }

  lemma NotUses()
    ensures USES != "fs"
  {
    assert |USES| == 8;
  }

  lemma LexicalFirst(k: Config, fuel: nat)
    requires MapIsBuiltin(k) && !k.copies && !TooDeep(k, 2) && fuel > 0
    ensures ExecStmt(k, fuel, 0, 0, REBOUND.body[0], State([map[]], [], [], {}))
         == Res(Val(Null), State([map["fs" := LISTS]], [OUTER, InnerClosure(1), InnerClosure(2)], [], {}))
  {
    hide HofLoop, EvalList;
    var s := State([map[]], [], [], {});
    var s1 := s.(clos := [OUTER]);
    var e := REBOUND.body[0].value;
    var nums := e.args[0].elems;
    TwoNumbers(k, fuel, nums, s);
    assert s.clos + [OUTER] == [OUTER];
    assert Eval(k, fuel, TOP, 0, e.args[1], s) == Res(Val(Clo(0)), s1);
    MapCall(k, fuel, TOP, 0, e.args, [Num(1), Num(2)], Clo(0), s, s1);
    BothCalls(k, fuel - 1, s1);
  }

  lemma TwoNumbers(k: Config, fuel: nat, es: seq<Expr>, s: State)
    requires es == [Lit(NumLit(1)), Lit(NumLit(2))]
    ensures EvalList(k, fuel, TOP, 0, es, s) == Res(Val(Arr([Num(1), Num(2)])), s)
  {
    assert es[1..] == [es[1]];
    ListOfOne(k, fuel, TOP, 0, es[1], s);
    assert [Num(1)] + [Num(2)] == [Num(1), Num(2)];
  }

  lemma LexicalSecond(k: Config, fuel: nat, s: State)
    requires MapIsBuiltin(k) && Indexes(k) && !k.copies && !TooDeep(k, 2) && fuel > 0
    requires s == State([map["fs" := LISTS]], [OUTER, InnerClosure(1), InnerClosure(2)], [], {})
    ensures ExecStmt(k, fuel, 0, 0, REBOUND.body[1], s).out == Val(Arr([Num(1)]))
  {
    hide HofLoop, EvalList, Apply, Lookup;
    SecondArgs(k, fuel, s);
    MapCall(k, fuel, TOP, 0, REBOUND.body[1].value.args, [Num(0)], Clo(1), s, s);
    MapOverOne(k, fuel - 1, Clo(1), Num(0), s);
    InnerCall(k, fuel - 1, s);
  }

  lemma SecondArgs(k: Config, fuel: nat, s: State)
    requires Indexes(k) && s.bases == [map["fs" := LISTS]]
    ensures var es := REBOUND.body[1].value.args;
      && Eval(k, fuel, TOP, 0, es[0], s) == Res(Val(Arr([Num(0)])), s)
      && Eval(k, fuel, TOP, 0, es[1], s) == Res(Val(Clo(1)), s)
      && Lookup(TOP, s, USES) == None
  {
    hide EvalList;
    NotUses();
    NumberList(k, fuel, TOP, 0, 0, s);
    FirstIndexed(k, fuel, s);
  }

  lemma InnerCall(k: Config, fuel: nat, s: State)
    requires !TooDeep(k, 2) && |s.clos| > 1 && s.clos[1] == InnerClosure(1) && s.unbound == {}
    ensures Apply(k, fuel, Clo(1), [Num(0)], s).out == Val(Num(1))
  {
    var c := InnerClosure(1);
    assert Missing(["z"], 1) == {};
    assert s.(unbound := s.unbound + {}) == s;
    var env := CallEnv(c, [Num(0)]);
    assert Bind(["z"], [Num(0)]) == BindUpTo(["z"], [Num(0)], 1) == map["z" := Num(0)];
    assert "x"[0] != "z"[0] && "x"[0] != "y"[0];
    assert env.frames[1..] == c.env.frames && c.env.frames[1..] == [map["x" := Num(1)]];
    assert LookupFrames(c.env.frames[1..], "x") == Some(Num(1));
    assert LookupFrames(c.env.frames, "x") == Some(Num(1));
    assert LookupFrames(env.frames, "x") == Some(Num(1));
  }

  // ----- in the executor -----

  function OuterObj(scratch: Option<nat>): LambdaObj {
    LambdaObj(["x"], ROUND, 0, 0, scratch, false)
  }

  function InnerObj(env: nat): LambdaObj {
    LambdaObj(["z"], Ident("x"), env, 1, None, false)
  }

  function ArgOf(v: int): Scope {
    Scope(Some(0), map["x" := Num(v)], true)
  }

  const LOOP: Scope := Scope(Some(1), map["y" := Num(0)], false)

  lemma RunOfOne(k: Config, fuel: nat, env: nat, depth: nat, e: Expr, h: Heap)
    ensures RunList(k, fuel, env, depth, [e], h) ==
      var a := RunExpr(k, fuel, env, depth, e, h); if a.out.Val? then Ran(Val(Arr([a.out.v])), a.h) else a
  {
    assert [e][1..] == [];
    var a := RunExpr(k, fuel, env, depth, e, h);
    assert a.out.Val? ==> [a.out.v] + [] == [a.out.v];
  }

  lemma RunMapCall(k: Config, fuel: nat, env: nat, depth: nat, es: seq<Expr>, items: seq<Value>, f: Value, h: Heap, h': Heap)
    requires MapIsBuiltin(k) && fuel > 0 && !TooDeep(k, depth) && |es| == 2 && Get(h'.scopes, env, USES) == None
    requires RunExpr(k, fuel, env, depth, es[0], h) == Ran(Val(Arr(items)), h)
    requires RunExpr(k, fuel, env, depth, es[1], h) == Ran(Val(f), h')
    ensures RunExpr(k, fuel, env, depth, Call("map", es), h) == RunLoop(k, fuel - 1, MapHof, f, items, Arr([]), h')
  {
    hide RunLoop;
    var args := [Arr(items), f];
    assert es[1..] == [es[1]] && [Arr(items)] + [f] == args;
    RunOfOne(k, fuel, env, depth, es[1], h);
    assert RunList(k, fuel, env, depth, es, h) == Ran(Val(Arr(args)), h');
    NotDebug();
    assert Resolve(k, [], "map") == BuiltinTarget(k.builtins["map"], true);
    assert RunCall(k, fuel - 1, env, depth, "map", args, h') == RunHof(k, fuel - 1, MapHof, args, h');
  }

  /** The outer lambda's scope is made on the first call and rebound on the second; each
      round's scope, and with it the closure made there, hangs on to it. */
  lemma OuterRun(k: Config, fuel: nat, v: int, h: Heap, h1: Heap, h': Heap)
    requires !TooDeep(k, 2) && h.clos != [] && |h.scopes| > 0
    requires h.clos[0] == OuterObj(if |h.scopes| == 1 then None else Some(1))
    requires h1 == h.(scopes := if |h.scopes| == 1 then h.scopes + [ArgOf(v)] else h.scopes[1 := ArgOf(v)])
    requires h' == h1.(scopes := h1.scopes + [LOOP],
                       clos := h.clos[0 := OuterObj(Some(1))] + [InnerObj(|h1.scopes|)])
    ensures RunLambda(k, fuel, Clo(0), [Num(v)], h) == Ran(Val(Arr([Clo(|h.clos|)])), h')
  {
    assert Bind(["x"], [Num(v)]) == BindUpTo(["x"], [Num(v)], 1) == map["x" := Num(v)];
    var h2 := h1.(clos := h.clos[0 := OuterObj(Some(1)).(inCall := true)], live := h.live + [0]);
    assert Enter(h, 0, map["x" := Num(v)]) == h2 && ArgScope(h, 0) == 1;
    var h3 := h2.(scopes := h2.scopes + [LOOP], clos := h2.clos + [InnerObj(|h2.scopes|)]);
    RoundRun(k, fuel, h2, h3);
    assert RunExpr(k, fuel, 1, 1, ROUND, h2) == Ran(Val(Arr([Clo(|h.clos|)])), h3);
    assert h3.live[..|h3.live| - 1] == h.live;
    assert Leave(h3, 0).clos == h'.clos;
  }

  lemma RoundRun(k: Config, fuel: nat, h: Heap, h': Heap)
    requires !TooDeep(k, 2) && |h.scopes| > 1
    requires h' == h.(scopes := h.scopes + [LOOP], clos := h.clos + [InnerObj(|h.scopes|)])
    ensures RunExpr(k, fuel, 1, 1, ROUND, h) == Ran(Val(Arr([Clo(|h.clos|)])), h')
  {
    RunOfOne(k, fuel, 1, 1, Lit(NumLit(0)), h);
    var h1 := WithScope(h, LOOP);
    assert ForFrame("y", "", Num(0), 0) == LOOP.vars;
    assert Snapshot(h1.scopes, |h.scopes|) == Copy(h1.scopes, |h.scopes|);
    assert RunExpr(k, fuel, |h.scopes|, 1, INNER, h1) == Ran(Val(Clo(|h.clos|)), h');
    assert [Clo(|h.clos|)] + [] == [Clo(|h.clos|)];
    assert RunRounds(k, fuel, 1, 1, "y", "", INNER, [Num(0)], 1, h') == Ran(Val(Arr([])), h');
  }

  /** The heap after the first statement: one argument scope behind two closures. */
  const SHARED: Heap := Heap(
    [Scope(None, map["fs" := LISTS], false), ArgOf(2), LOOP, LOOP],
    [OuterObj(Some(1)), InnerObj(2), InnerObj(3)], [], [0], [])

  lemma BothRuns(k: Config, fuel: nat, h: Heap)
    requires !TooDeep(k, 2) && h == Heap([Scope(None, map[], false)], [OuterObj(None)], [], [0], [])
    ensures RunLoop(k, fuel, MapHof, Clo(0), [Num(1), Num(2)], Arr([]), h)
         == Ran(Val(LISTS), SHARED.(scopes := [h.scopes[0]] + SHARED.scopes[1..]))
  {
    hide RunLambda;
    var items := [Num(1), Num(2)];
    var top := h.scopes[0];
    var h1 := Heap([top, ArgOf(1), LOOP], [OuterObj(Some(1)), InnerObj(2)], [], [0], []);
    var h2 := SHARED.(scopes := [top] + SHARED.scopes[1..]);
    OuterRun(k, fuel, 1, h, h.(scopes := [top, ArgOf(1)]), h1);
    OuterRun(k, fuel, 2, h1, h1.(scopes := [top, ArgOf(2), LOOP]), h2);
    assert HofArgs(MapHof, Arr([]), Num(1)) == [Num(1)] && items[1..] == [Num(2)] && [Num(2)][1..] == [];
    var a1 := Arr([Arr([Clo(1)])]);
    assert HofStep(MapHof, Arr([]), Num(1), Arr([Clo(1)])) == a1;
    assert HofStep(MapHof, a1, Num(2), Arr([Clo(2)])) == LISTS;
    assert RunLoop(k, fuel, MapHof, Clo(0), [], LISTS, h2) == Ran(Val(LISTS), h2);
    assert RunLoop(k, fuel, MapHof, Clo(0), [Num(2)], a1, h1) == Ran(Val(LISTS), h2);
  }

  lemma ExecutorFirst(k: Config, fuel: nat)
    requires MapIsBuiltin(k) && !TooDeep(k, 2) && fuel > 0
    ensures RunStmt(k, fuel, 0, 0, REBOUND.body[0], WithBase(EMPTY)) == Ran(Val(Null), SHARED)
  {
    hide RunLoop, RunList;
    var h := WithBase(EMPTY);
    var h1 := h.(clos := [OuterObj(None)]);
    var e := REBOUND.body[0].value;
    var nums := e.args[0].elems;
    assert nums[1..] == [nums[1]];
    TwoNumbersRun(k, fuel, nums, h);
    assert h.clos + [OuterObj(None)] == h1.clos;
    assert RunExpr(k, fuel, 0, 0, e.args[1], h) == Ran(Val(Clo(0)), h1);
    RunMapCall(k, fuel, 0, 0, e.args, [Num(1), Num(2)], Clo(0), h, h1);
    BothRuns(k, fuel - 1, h1);
    var h2 := SHARED.(scopes := [h1.scopes[0]] + SHARED.scopes[1..]);
    assert WithVar(h2, 0, "fs", LISTS).scopes == SHARED.scopes;
  }

  lemma TwoNumbersRun(k: Config, fuel: nat, es: seq<Expr>, h: Heap)
    requires es == [Lit(NumLit(1)), Lit(NumLit(2))]
    ensures RunList(k, fuel, 0, 0, es, h) == Ran(Val(Arr([Num(1), Num(2)])), h)
  {
    assert es[1..] == [es[1]];
    RunOfOne(k, fuel, 0, 0, es[1], h);
    assert [Num(1)] + [Num(2)] == [Num(1), Num(2)];
  }

  lemma IndexFirstRun(k: Config, fuel: nat, e: Expr, vs: seq<Value>, h: Heap)
    requires Indexes(k) && vs != [] && RunExpr(k, fuel, 0, 0, e, h) == Ran(Val(Arr(vs)), h)
    ensures RunExpr(k, fuel, 0, 0, Strict("index", [e, Lit(NumLit(0))]), h) == Ran(Val(vs[0]), h)
  {
    var es := [e, Lit(NumLit(0))];
    assert es[1..] == [es[1]] && [Arr(vs)] + [Num(0)] == [Arr(vs), Num(0)];
    RunOfOne(k, fuel, 0, 0, es[1], h);
    assert RunList(k, fuel, 0, 0, es, h) == Ran(Val(Arr([Arr(vs), Num(0)])), h);
  }

  lemma FirstIndexedRun(k: Config, fuel: nat)
    requires Indexes(k)
    ensures RunExpr(k, fuel, 0, 0, FIRST, SHARED) == Ran(Val(Clo(1)), SHARED)
  {
    hide RunList;
    assert RunExpr(k, fuel, 0, 0, Ident("fs"), SHARED) == Ran(Val(LISTS), SHARED);
    IndexFirstRun(k, fuel, Ident("fs"), LISTS.elems, SHARED);
    IndexFirstRun(k, fuel, FIRST.operands[0], [Clo(1)], SHARED);
  }

  lemma ExecutorSecond(k: Config, fuel: nat)
    requires MapIsBuiltin(k) && Indexes(k) && !TooDeep(k, 2) && fuel > 0
    ensures RunStmt(k, fuel, 0, 0, REBOUND.body[1], SHARED).out == Val(Arr([Num(2)]))
  {
    hide RunLoop, RunList, RunLambda, Get;
    SecondArgsRun(k, fuel);
    RunMapCall(k, fuel, 0, 0, REBOUND.body[1].value.args, [Num(0)], Clo(1), SHARED, SHARED);
    RunOverOne(k, fuel - 1, Clo(1), Num(0), SHARED);
    InnerRun(k, fuel - 1);
  }

  lemma SecondArgsRun(k: Config, fuel: nat)
    requires Indexes(k)
    ensures var es := REBOUND.body[1].value.args;
      && RunExpr(k, fuel, 0, 0, es[0], SHARED) == Ran(Val(Arr([Num(0)])), SHARED)
      && RunExpr(k, fuel, 0, 0, es[1], SHARED) == Ran(Val(Clo(1)), SHARED)
      && Get(SHARED.scopes, 0, USES) == None
  {
    hide RunList;
    NotUses();
    RunOfOne(k, fuel, 0, 0, Lit(NumLit(0)), SHARED);
    FirstIndexedRun(k, fuel);
  }

  lemma RunOverOne(k: Config, fuel: nat, f: Value, item: Value, h: Heap)
    ensures RunLoop(k, fuel, MapHof, f, [item], Arr([]), h) ==
      var a := RunLambda(k, fuel, f, [item], h); if a.out.Val? then Ran(Val(Arr([a.out.v])), a.h) else a
  {
    hide RunLambda;
    var a := RunLambda(k, fuel, f, [item], h);
    assert HofArgs(MapHof, Arr([]), item) == [item] && [item][1..] == [];
    if a.out.Val? {
      assert HofStep(MapHof, Arr([]), item, a.out.v) == Arr([a.out.v]);
      assert RunLoop(k, fuel, MapHof, f, [], Arr([a.out.v]), a.h) == Ran(Val(Arr([a.out.v])), a.h);
    }
  }

  lemma InnerRun(k: Config, fuel: nat)
    requires !TooDeep(k, 2)
    ensures RunLambda(k, fuel, Clo(1), [Num(0)], SHARED).out == Val(Num(2))
  {
    var h := SHARED;
    assert Bind(["z"], [Num(0)]) == BindUpTo(["z"], [Num(0)], 1) == map["z" := Num(0)];
    var h1 := Enter(h, 1, map["z" := Num(0)]);
    assert ArgScope(h, 1) == 4 && h1.scopes == h.scopes + [Scope(Some(2), map["z" := Num(0)], true)];
    assert "x"[0] != "z"[0] && "x"[0] != "y"[0];
    assert Get(h1.scopes, 1, "x") == Some(Num(2));
    assert Get(h1.scopes, 2, "x") == Some(Num(2));
    assert Get(h1.scopes, 4, "x") == Some(Num(2));
  }

  // ----- side by side -----

  /** The first closure was made for element 1 and says so under lexical scoping; the
      executor lets it say 2. */
  lemma ReuseShows(k: Config, fuel: nat)
    requires MapIsBuiltin(k) && Indexes(k) && !k.copies && !TooDeep(k, 2) && fuel > 0
    ensures Execute(k, fuel, REBOUND, map[]).out == Val(Arr([Num(1)]))
    ensures RunExecute(k, fuel, REBOUND, map[]).out == Val(Arr([Num(2)]))
  {
    hide ExecStmt, RunStmt;
    var ss := REBOUND.body;
    var s1 := State([map["fs" := LISTS]], [OUTER, InnerClosure(1), InnerClosure(2)], [], {});
    assert ss[1..][0] == ss[1] && ss[1..][1..] == [];
    LexicalFirst(k, fuel);
    LexicalSecond(k, fuel, s1);
    assert ExecBody(k, fuel, 0, 0, ss[1..], Null, s1).out == Val(Arr([Num(1)]));
    ExecutorFirst(k, fuel);
    ExecutorSecond(k, fuel);
    assert RunBody(k, fuel, 0, 0, ss[1..], Null, SHARED).out == Val(Arr([Num(2)]));
  }
}
