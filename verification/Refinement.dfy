/** Scope reuse is invisible: the executor gives the outcome, the debug log and the closures
    of plain lexical scoping, for programs whose lambdas may be kept but never stand in a
    `for` body inside a lambda, and for programs whose lambdas are all written as arguments,
    wherever they stand. */
module Refinement {
  import opened Wrappers
  import opened Syntax
  import opened Lexical
  import opened Store
  import opened Running
  import opened Termination

  // ----- a heap and the state it stands for -----

  ghost predicate SameCode(c: LambdaObj, d: Closure) {
    c.params == d.params && c.body == d.body && c.depth == d.depth
  }

  /** The closure may be called at any later time: its environment can never change. */
  ghost predicate Settled(h: Heap, c: LambdaObj, d: Closure) {
    Stable(h.scopes, c.env) && Placed(c.body, InLambda) && Shows(h, c.env, d.env)
  }

  ghost predicate HoldsBases(h: Heap, s: State) {
    && |h.phi| == |s.bases|
    && forall b :: 0 <= b < |h.phi| ==> h.phi[b] < |h.scopes| && h.scopes[h.phi[b]] == Scope(None, s.bases[b], false)
  }

  ghost predicate HoldsClosures(h: Heap, s: State, kept: bool) {
    && |h.clos| == |s.clos|
    && forall c :: 0 <= c < |h.clos| ==>
         SameCode(h.clos[c], s.clos[c]) && (kept ==> Settled(h, h.clos[c], s.clos[c]))
  }

  /** The heap holds the state; if closures may be kept, all of them can be called. */
  ghost predicate Represents(h: Heap, s: State, kept: bool) {
    WellFormed(h) && h.log == s.log && HoldsBases(h, s) && HoldsClosures(h, s, kept)
  }

  ghost predicate Table(k: Config, kept: bool) {
    !k.copies && if kept then PlacedTable(k) else DirectTable(k)
  }

  ghost predicate May(k: Config, m: Mode, ns: Spaces, e: Expr) {
    if m == Passing then Direct(k, ns, e) else Placed(e, m)
  }

  ghost predicate MayAll(k: Config, m: Mode, ns: Spaces, es: seq<Expr>) {
    if m == Passing then DirectAll(k, ns, es) else PlacedAll(es, m)
  }

  /** Scope `env` stands for environment `lex` in state `s`. */
  ghost predicate At(h: Heap, env: nat, lex: Env, m: Mode, ns: Spaces, s: State) {
    && Represents(h, s, m != Passing) && Runs(h, env, lex, m)
    && (m == Passing ==> FlatEnv(lex) && FlatState(s) && UsesFit(ns, lex, s))
  }

  ghost predicate Matches(r: Ran, q: Res, kept: bool) {
    r.out == q.out && Represents(r.h, q.st, kept)
  }

  // ----- the invariant across steps -----

  lemma ClosuresKept(h: Heap, h': Heap, x: int, s: State, kept: bool)
    requires WellFormed(h) && HoldsClosures(h, s, kept) && Kept(h, h', x)
    ensures forall c :: 0 <= c < |h.clos| ==>
      SameCode(h'.clos[c], s.clos[c]) && (kept ==> Settled(h', h'.clos[c], s.clos[c]))
  {
    forall c | 0 <= c < |h.clos|
      ensures SameCode(h'.clos[c], s.clos[c]) && (kept ==> Settled(h', h'.clos[c], s.clos[c]))
    {
      assert SameLambda(h.clos[c], h'.clos[c], |h.scopes|);
      assert SameCode(h.clos[c], s.clos[c]);
      if kept {
        StableIsSafe(h, h.clos[c].env);
        ChainKept(h, h', x, h.clos[c].env, s.clos[c].env);
        SafeKept(h, h', x, h.clos[c].env);
      }
    }
  }

  lemma AtLater(h: Heap, env: nat, lex: Env, m: Mode, ns: Spaces, s: State, h': Heap, s': State)
    requires At(h, env, lex, m, ns, s) && Kept(h, h', -1) && Represents(h', s', m != Passing) && Grows(s, s')
    requires m == Passing ==> FlatState(s')
    ensures At(h', env, lex, m, ns, s')
  {
    RunsKept(h, h', -1, env, lex, m);
    if m == Passing {
      UsesLater(ns, lex, s, s');
    }
  }

  /** After one part of an expression, the next may be evaluated. */
  lemma Onward(k: Config, fuel: nat, env: nat, depth: nat, e: Expr, h: Heap, lex: Env, m: Mode, ns: Spaces, s: State)
    requires Table(k, m != Passing) && At(h, env, lex, m, ns, s) && May(k, m, ns, e)
    requires Matches(RunExpr(k, fuel, env, depth, e, h), Eval(k, fuel, lex, depth, e, s), m != Passing)
    ensures At(RunExpr(k, fuel, env, depth, e, h).h, env, lex, m, ns, Eval(k, fuel, lex, depth, e, s).st)
  {
    hide RunExpr, Eval, Represents, Kept, FlatState, UsesFit;
    WellAt(h, env, lex, m, ns, s);
    ExprKeeps(k, fuel, env, depth, e, h);
    if m == Passing {
      EvalEnds(k, ns, fuel, lex, depth, e, s);
    }
    AtLater(h, env, lex, m, ns, s, RunExpr(k, fuel, env, depth, e, h).h, Eval(k, fuel, lex, depth, e, s).st);
  }

  lemma WellAt(h: Heap, env: nat, lex: Env, m: Mode, ns: Spaces, s: State)
    requires At(h, env, lex, m, ns, s)
    ensures WellFormed(h) && env < |h.scopes|
  {
  }

  /** Walking the chain finds what the environment binds. */
  lemma {:induction false} GetIsLookup(h: Heap, env: nat, lex: Env, s: State, x: string)
    requires HoldsBases(h, s) && Shows(h, env, lex)
    ensures Get(h.scopes, env, x) == Lookup(lex, s, x)
    decreases env
  {
    if lex.frames != [] {
      GetIsLookup(h, h.scopes[env].parent.value, Env(lex.frames[1..], lex.base), s, x);
    }
  }

  // ----- captures -----

  lemma ShowsPrefix(h: Heap, h': Heap, r: nat, lex: Env)
    requires h.scopes <= h'.scopes && h.phi == h'.phi && Shows(h, r, lex)
    ensures Shows(h', r, lex)
    decreases r
  {
    if lex.frames != [] {
      ShowsPrefix(h, h', h.scopes[r].parent.value, Env(lex.frames[1..], lex.base));
    }
  }

  lemma StablePrefix(sc: seq<Scope>, sc': seq<Scope>, r: nat)
    requires sc <= sc' && r < |sc|
    ensures Stable(sc, r) <==> Stable(sc', r)
    decreases r
  {
    if sc[r].parent.Some? && sc[r].parent.value < r {
      StablePrefix(sc, sc', sc[r].parent.value);
    }
  }

  /** The copy shows what the chain shows, and is safe if the chain was. */
  lemma {:induction false} SnapshotShows(h: Heap, env: nat, lex: Env)
    requires WellFormed(h) && Shows(h, env, lex) && Safe(h, env)
    ensures var copy := Snapshot(h.scopes, env);
      var h' := h.(scopes := copy.scopes);
      Shows(h', copy.scope, lex) && Safe(h', copy.scope)
    decreases env
  {
    if h.scopes[env].reusable && h.scopes[env].parent.Some? {
      var up := h.scopes[env].parent.value;
      SnapshotKeeps(h, up);
      var p := Snapshot(h.scopes, up);
      var h1 := h.(scopes := p.scopes);
      var x := Scope(Some(p.scope), h.scopes[env].vars, false);
      AddScope(h1, x);
      if lex.frames == [] {
        SafeCopy(h, up);
        SafeKept(h1, WithScope(h1, x), -1, p.scope);
      } else {
        var lex' := Env(lex.frames[1..], lex.base);
        SnapshotShows(h, up, lex');
        ChainKept(h1, WithScope(h1, x), -1, p.scope, lex');
      }
    }
  }

  lemma {:induction false} SafeCopy(h: Heap, env: nat)
    requires WellFormed(h) && Safe(h, env)
    ensures var copy := Snapshot(h.scopes, env); Safe(h.(scopes := copy.scopes), copy.scope)
    decreases env
  {
    if h.scopes[env].reusable {
      if h.scopes[env].parent.Some? {
        var up := h.scopes[env].parent.value;
        SnapshotKeeps(h, up);
        SafeCopy(h, up);
        var p := Snapshot(h.scopes, up);
        var h1 := h.(scopes := p.scopes);
        var x := Scope(Some(p.scope), h.scopes[env].vars, false);
        AddScope(h1, x);
        SafeKept(h1, WithScope(h1, x), -1, p.scope);
      } else {
        AddScope(h, Scope(None, h.scopes[env].vars, false));
      }
    }
  }

  /** What is left of the chain behind the scopes that a snapshot copies. */
  ghost predicate RestScratchFree(h: Heap, r: nat)
    decreases r
  {
    && r < |h.scopes|
    && if !h.scopes[r].reusable then ScratchFree(h, r)
       else h.scopes[r].parent.Some? ==> h.scopes[r].parent.value < r && RestScratchFree(h, h.scopes[r].parent.value)
  }

  /** A capture is out of reach of every later call if and only if no lambda's argument
      scope stands behind the first scope that is not reusable. */
  lemma {:induction false} SnapshotScratchFree(h: Heap, env: nat)
    requires WellFormed(h) && env < |h.scopes|
    ensures var copy := Snapshot(h.scopes, env);
      ScratchFree(h.(scopes := copy.scopes), copy.scope) <==> RestScratchFree(h, env)
    decreases env
  {
    if h.scopes[env].reusable {
      if h.scopes[env].parent.Some? {
        var up := h.scopes[env].parent.value;
        SnapshotKeeps(h, up);
        SnapshotScratchFree(h, up);
        var p := Snapshot(h.scopes, up);
        var h1 := h.(scopes := p.scopes);
        var x := Scope(Some(p.scope), h.scopes[env].vars, false);
        AddScope(h1, x);
        ScratchFreePrefix(h1, WithScope(h1, x), p.scope);
      } else {
        AddScope(h, Scope(None, h.scopes[env].vars, false));
      }
    }
  }

  /** Between calls, a chain that shows an environment goes on showing it whatever lambda
      is called next, with whatever arguments, if and only if it is free of argument scopes. */
  lemma RebindingIff(h: Heap, r: nat, lex: Env)
    requires WellFormed(h) && h.live == [] && Shows(h, r, lex)
    ensures ScratchFree(h, r) <==>
      forall id: nat, vars: Frame :: id < |h.clos| ==> Shows(Enter(h, id, vars), r, lex)
  {
    if ScratchFree(h, r) {
      ScratchFreeIsSafe(h, r);
      forall id: nat, vars: Frame | id < |h.clos| ensures Shows(Enter(h, id, vars), r, lex) {
        EnterChain(h, id, vars, r, lex);
      }
    } else {
      var id, vars := Rebinder(h, r, lex);
    }
  }

  lemma ScratchFreeIsSafe(h: Heap, r: nat)
    requires ScratchFree(h, r)
    ensures Safe(h, r)
    decreases r
  {
    assert !IdleScratch(h, r);
    if h.scopes[r].parent.Some? {
      ScratchFreeIsSafe(h, h.scopes[r].parent.value);
    }
  }

  lemma BaseIsScratchFree(h: Heap, r: nat, lex: Env)
    requires WellFormed(h) && Shows(h, r, lex)
    ensures lex.frames == [] ==> ScratchFree(h, r)
  {
    if lex.frames == [] {
      assert FunctionScope(h, h.phi[lex.base.value]);
      NotScratch(h, r);
    }
  }

  /** The call that changes what the chain shows. */
  lemma {:induction false} Rebinder(h: Heap, r: nat, lex: Env) returns (id: nat, vars: Frame)
    requires WellFormed(h) && h.live == [] && Shows(h, r, lex) && !ScratchFree(h, r)
    ensures id < |h.clos| && !Shows(Enter(h, id, vars), r, lex)
    decreases r
  {
    BaseIsScratchFree(h, r, lex);
    if Scratch(h, r) {
      id :| 0 <= id < |h.clos| && h.clos[id].scratch == Some(r);
      vars := if lex.frames[0] == map[] then map["" := Null] else map[];
      assert "" in map["" := Null];
      IdleScratchRebound(h, id, r, vars);
    } else {
      id, vars := Rebinder(h, h.scopes[r].parent.value, Env(lex.frames[1..], lex.base));
      assert h.clos[id].scratch != Some(r);
    }
  }

  lemma {:induction false} ScratchFreePrefix(h: Heap, h': Heap, r: nat)
    requires h.scopes <= h'.scopes && h'.clos == h.clos && r < |h.scopes|
    ensures ScratchFree(h', r) <==> ScratchFree(h, r)
    decreases r
  {
    assert Scratch(h', r) <==> Scratch(h, r);
    if h.scopes[r].parent.Some? && h.scopes[r].parent.value < r {
      ScratchFreePrefix(h, h', h.scopes[r].parent.value);
    }
  }

  lemma SnapshotStable(h: Heap, env: nat, m: Mode)
    requires WellFormed(h) && env < |h.scopes| && Fits(h, env, m) && (m == Outside || m == InLambda)
    ensures var copy := Snapshot(h.scopes, env); Stable(copy.scopes, copy.scope)
  {
    if m == InLambda {
      var up := h.scopes[env].parent.value;
      assert Snapshot(h.scopes, up) == Copy(h.scopes, up);
      var copy := Snapshot(h.scopes, env);
      StablePrefix(h.scopes, copy.scopes, up);
    }
  }

  /** A new closure shows the environment it was written in. */
  lemma CapturingRefines(h: Heap, env: nat, depth: nat, params: seq<string>, body: Expr, lex: Env, m: Mode, s: State)
    requires Represents(h, s, m != Passing) && Runs(h, env, lex, m)
    requires m != Passing ==> Placed(Lambda(params, body), m)
    ensures var h' := Capturing(h, env, depth, params, body);
      && Represents(h', s.(clos := s.clos + [Closure(params, body, lex, depth)]), m != Passing)
      && |h'.clos| == |h.clos| + 1 && Safe(h', h'.clos[|h.clos|].env) && Shows(h', h'.clos[|h.clos|].env, lex)
  {
    var copy := Snapshot(h.scopes, env);
    var h1 := h.(scopes := copy.scopes);
    var h' := Capturing(h, env, depth, params, body);
    var s' := s.(clos := s.clos + [Closure(params, body, lex, depth)]);
    SnapshotKeeps(h, env);
    SnapshotShows(h, env, lex);
    AddLambda(h1, h'.clos[|h.clos|]);
    ChainKept(h1, h', -1, copy.scope, lex);
    CapturingKeeps(h, env, depth, params, body);
    if m != Passing {
      SnapshotStable(h, env, m);
    }
    AddedClosure(h, h', s, Closure(params, body, lex, depth), m != Passing);
  }

  lemma AddedClosure(h: Heap, h': Heap, s: State, d: Closure, kept: bool)
    requires Represents(h, s, kept) && Keeps(h, h', -1) && |h'.clos| == |h.clos| + 1
    requires h.scopes <= h'.scopes && h'.phi == h.phi && h'.log == h.log
    requires SameCode(h'.clos[|h.clos|], d) && (kept ==> Settled(h', h'.clos[|h.clos|], d))
    ensures Represents(h', s.(clos := s.clos + [d]), kept)
  {
    hide WellFormed, Kept;
    ClosuresKept(h, h', -1, s, kept);
  }

  // ----- expressions -----

  lemma {:induction false} ExprRefines(k: Config, fuel: nat, env: nat, depth: nat, e: Expr, h: Heap,
                                       lex: Env, m: Mode, ns: Spaces, s: State)
    requires Table(k, m != Passing) && At(h, env, lex, m, ns, s) && May(k, m, ns, e)
    ensures Matches(RunExpr(k, fuel, env, depth, e, h), Eval(k, fuel, lex, depth, e, s), m != Passing)
    decreases fuel, 0, e, 2
  {
    hide RunList, RunRounds, RunCall, EvalList, EvalFor, CallFn, Represents, Runs, Capturing, Get, Lookup;
    if !TooDeep(k, depth) {
      match e {
        case Lit(_) =>
        case Ident(x) => IdentRefines(h, env, lex, m, ns, s, x);
        case Strict(_, es) => ListRefines(k, fuel, env, depth, es, h, lex, m, ns, s);
        case ArrayLit(es) => ListRefines(k, fuel, env, depth, es, h, lex, m, ns, s);
        case And(_, _) => TwoRefines(k, fuel, env, depth, e, h, lex, m, ns, s);
        case Or(_, _) => TwoRefines(k, fuel, env, depth, e, h, lex, m, ns, s);
        case If(_, _, _) => ChoiceRefines(k, fuel, env, depth, e, h, lex, m, ns, s);
        case Coalesce(_, _) => TwoRefines(k, fuel, env, depth, e, h, lex, m, ns, s);
        case Try(_, _) => ChoiceRefines(k, fuel, env, depth, e, h, lex, m, ns, s);
        case For(_, _, _, _) => ForRefines(k, fuel, env, depth, e, h, lex, m, ns, s);
        case Raise(x) => ExprRefines(k, fuel, env, depth, x, h, lex, m, ns, s);
        case Lambda(ps, b) => LambdaExprRefines(k, fuel, env, depth, e, h, lex, m, ns, s);
        case Call(_, _) => CallExprRefines(k, fuel, env, depth, e, h, lex, m, ns, s);
      }
    }
  }

  lemma IdentRefines(h: Heap, env: nat, lex: Env, m: Mode, ns: Spaces, s: State, x: string)
    requires At(h, env, lex, m, ns, s)
    ensures Get(h.scopes, env, x) == Lookup(lex, s, x)
  {
    GetIsLookup(h, env, lex, s, x);
  }

  lemma LambdaExprRefines(k: Config, fuel: nat, env: nat, depth: nat, e: Expr, h: Heap,
                          lex: Env, m: Mode, ns: Spaces, s: State)
    requires Table(k, m != Passing) && At(h, env, lex, m, ns, s) && May(k, m, ns, e) && e.Lambda? && !TooDeep(k, depth)
    ensures Matches(RunExpr(k, fuel, env, depth, e, h), Eval(k, fuel, lex, depth, e, s), m != Passing)
  {
    CapturingRefines(h, env, depth, e.params, e.body, lex, m, s);
  }

  lemma {:induction false} TwoRefines(k: Config, fuel: nat, env: nat, depth: nat, e: Expr, h: Heap,
                                      lex: Env, m: Mode, ns: Spaces, s: State)
    requires Table(k, m != Passing) && At(h, env, lex, m, ns, s) && May(k, m, ns, e) && !TooDeep(k, depth)
    requires e.And? || e.Or? || e.Coalesce?
    ensures Matches(RunExpr(k, fuel, env, depth, e, h), Eval(k, fuel, lex, depth, e, s), m != Passing)
    decreases fuel, 0, e, 1
  {
    hide RunList, RunRounds, RunCall, EvalList, EvalFor, CallFn, Represents, At, Table, Get, Lookup, Capturing;
    ExprRefines(k, fuel, env, depth, e.left, h, lex, m, ns, s);
    Onward(k, fuel, env, depth, e.left, h, lex, m, ns, s);
    var a, q := RunExpr(k, fuel, env, depth, e.left, h), Eval(k, fuel, lex, depth, e.left, s);
    ExprRefines(k, fuel, env, depth, e.right, a.h, lex, m, ns, q.st);
  }

  lemma {:induction false} ChoiceRefines(k: Config, fuel: nat, env: nat, depth: nat, e: Expr, h: Heap,
                                         lex: Env, m: Mode, ns: Spaces, s: State)
    requires Table(k, m != Passing) && At(h, env, lex, m, ns, s) && May(k, m, ns, e) && !TooDeep(k, depth)
    requires e.If? || e.Try?
    ensures Matches(RunExpr(k, fuel, env, depth, e, h), Eval(k, fuel, lex, depth, e, s), m != Passing)
    decreases fuel, 0, e, 1
  {
    hide RunList, RunRounds, RunCall, EvalList, EvalFor, CallFn, Represents, At, Table, Get, Lookup, Capturing;
    var first := if e.If? then e.cond else e.body;
    ExprRefines(k, fuel, env, depth, first, h, lex, m, ns, s);
    Onward(k, fuel, env, depth, first, h, lex, m, ns, s);
    var a, q := RunExpr(k, fuel, env, depth, first, h), Eval(k, fuel, lex, depth, first, s);
    var last := if e.If? then e.els else e.default;
    if e.If? && q.out.Val? && ToBool(q.out.v) {
      ExprRefines(k, fuel, env, depth, e.thn, a.h, lex, m, ns, q.st);
    } else if last.Some? {
      ExprRefines(k, fuel, env, depth, last.value, a.h, lex, m, ns, q.st);
    }
  }

  lemma {:induction false} ListRefines(k: Config, fuel: nat, env: nat, depth: nat, es: seq<Expr>, h: Heap,
                                       lex: Env, m: Mode, ns: Spaces, s: State)
    requires Table(k, m != Passing) && At(h, env, lex, m, ns, s) && MayAll(k, m, ns, es)
    ensures Matches(RunList(k, fuel, env, depth, es, h), EvalList(k, fuel, lex, depth, es, s), m != Passing)
    decreases fuel, 0, es, 0
  {
    hide RunExpr, Eval, Represents, Runs, Table;
    if es != [] {
      assert May(k, m, ns, es[0]) && MayAll(k, m, ns, es[1..]);
      ExprRefines(k, fuel, env, depth, es[0], h, lex, m, ns, s);
      Onward(k, fuel, env, depth, es[0], h, lex, m, ns, s);
      var a, q := RunExpr(k, fuel, env, depth, es[0], h), Eval(k, fuel, lex, depth, es[0], s);
      ListRefines(k, fuel, env, depth, es[1..], a.h, lex, m, ns, q.st);
    }
  }

  lemma {:induction false} ForRefines(k: Config, fuel: nat, env: nat, depth: nat, e: Expr, h: Heap,
                                      lex: Env, m: Mode, ns: Spaces, s: State)
    requires Table(k, m != Passing) && At(h, env, lex, m, ns, s) && May(k, m, ns, e) && !TooDeep(k, depth) && e.For?
    ensures Matches(RunExpr(k, fuel, env, depth, e, h), Eval(k, fuel, lex, depth, e, s), m != Passing)
    decreases fuel, 0, e, 1
  {
    hide RunList, RunRounds, RunCall, EvalList, EvalFor, CallFn, Represents, At, Table, Get, Lookup, Capturing, FlatState;
    ExprRefines(k, fuel, env, depth, e.iterable, h, lex, m, ns, s);
    Onward(k, fuel, env, depth, e.iterable, h, lex, m, ns, s);
    var a, q := RunExpr(k, fuel, env, depth, e.iterable, h), Eval(k, fuel, lex, depth, e.iterable, s);
    if q.out.Val? && q.out.v.Arr? {
      if m == Passing {
        FlatAt(k, fuel, env, depth, e.iterable, h, lex, ns, s);
      }
      RoundsRefine(k, fuel, env, depth, e, q.out.v.elems, 0, a.h, lex, m, ns, q.st);
    }
  }

  lemma FlatAt(k: Config, fuel: nat, env: nat, depth: nat, e: Expr, h: Heap, lex: Env, ns: Spaces, s: State)
    requires Table(k, false) && At(h, env, lex, Passing, ns, s) && Direct(k, ns, e)
    ensures Fine(false, Eval(k, fuel, lex, depth, e, s))
  {
    EvalEnds(k, ns, fuel, lex, depth, e, s);
  }

  lemma {:induction false} RoundsRefine(k: Config, fuel: nat, env: nat, depth: nat, e: Expr, items: seq<Value>, i: nat,
                                        h: Heap, lex: Env, m: Mode, ns: Spaces, s: State)
    requires Table(k, m != Passing) && At(h, env, lex, m, ns, s) && e.For? && May(k, m, ns, e)
    requires i <= |items| && (m == Passing ==> FlatAll(items))
    ensures Matches(RunRounds(k, fuel, env, depth, e.variable, e.index, e.body, items, i, h),
                    EvalFor(k, fuel, lex, depth, e.variable, e.index, e.body, items, i, s), m != Passing)
    decreases fuel, 0, e.body, |items| - i + 3
  {
    hide RunExpr, Eval, Represents, Runs, Table, FlatEnv, FlatState, UsesFit;
    if i < |items| && !TooDeep(k, depth) {
      var vars := ForFrame(e.variable, e.index, items[i], i);
      var lex' := Env([vars] + lex.frames, lex.base);
      var h1 := WithScope(h, Scope(Some(env), vars, false));
      EnterRound(h, env, lex, m, ns, s, vars, e);
      var m', ns' := ForMode(m), Hidden(ns, {e.variable, e.index});
      ExprRefines(k, fuel, |h.scopes|, depth, e.body, h1, lex', m', ns', s);
      Onward(k, fuel, |h.scopes|, depth, e.body, h1, lex', m', ns', s);
      var a, q := RunExpr(k, fuel, |h.scopes|, depth, e.body, h1), Eval(k, fuel, lex', depth, e.body, s);
      LeaveRound(k, fuel, depth, e.body, h, env, lex, m, ns, s, h1, |h.scopes|, lex', m', ns');
      RoundsRefine(k, fuel, env, depth, e, items, i + 1, a.h, lex, m, ns, q.st);
    }
  }

  /** The scope of one round shows the surrounding environment plus the round's variables. */
  lemma EnterRound(h: Heap, env: nat, lex: Env, m: Mode, ns: Spaces, s: State, vars: Frame, e: Expr)
    requires At(h, env, lex, m, ns, s) && e.For? && vars.Keys <= {e.variable, e.index}
    requires m == Passing ==> FlatFrame(vars)
    ensures At(WithScope(h, Scope(Some(env), vars, false)), |h.scopes|, Env([vars] + lex.frames, lex.base),
               ForMode(m), Hidden(ns, {e.variable, e.index}), s)
    ensures Keeps(h, WithScope(h, Scope(Some(env), vars, false)), -1)
  {
    var h1 := WithScope(h, Scope(Some(env), vars, false));
    var lex' := Env([vars] + lex.frames, lex.base);
    AddScope(h, Scope(Some(env), vars, false));
    ClosuresKept(h, h1, -1, s, m != Passing);
    RunsKept(h, h1, -1, env, lex, m);
    assert Env(lex'.frames[1..], lex'.base) == lex;
    if m == Passing {
      UsesPushed(ns, lex, s, vars, {e.variable, e.index});
    }
  }

  /** After the round, the surrounding scope shows its environment as before. */
  lemma LeaveRound(k: Config, fuel: nat, depth: nat, body: Expr, h: Heap, env: nat, lex: Env, m: Mode, ns: Spaces, s: State,
                   h1: Heap, env': nat, lex': Env, m': Mode, ns': Spaces)
    requires At(h, env, lex, m, ns, s) && Keeps(h, h1, -1) && env' < |h1.scopes| && (m == Passing <==> m' == Passing)
    requires At(RunExpr(k, fuel, env', depth, body, h1).h, env', lex', m', ns', Eval(k, fuel, lex', depth, body, s).st)
    ensures At(RunExpr(k, fuel, env', depth, body, h1).h, env, lex, m, ns, Eval(k, fuel, lex', depth, body, s).st)
  {
    hide RunExpr, Eval, Represents, Runs, FlatEnv, FlatState, UsesFit, WellFormed, Kept;
    ExprKeeps(k, fuel, env', depth, body, h1);
    var h2 := RunExpr(k, fuel, env', depth, body, h1).h;
    KeptTrans(h, h1, h2, -1);
    AtLater(h, env, lex, m, ns, s, h2, Eval(k, fuel, lex', depth, body, s).st);
  }

  lemma {:induction false} CallExprRefines(k: Config, fuel: nat, env: nat, depth: nat, e: Expr, h: Heap,
                                           lex: Env, m: Mode, ns: Spaces, s: State)
    requires Table(k, m != Passing) && At(h, env, lex, m, ns, s) && May(k, m, ns, e) && !TooDeep(k, depth) && e.Call?
    ensures Matches(RunExpr(k, fuel, env, depth, e, h), Eval(k, fuel, lex, depth, e, s), m != Passing)
    decreases fuel, 0, e, 1
  {
    hide RunList, RunRounds, RunCall, EvalList, EvalFor, CallFn, Represents, At, Table, Get, Lookup, Capturing, FlatState;
    var es := e.args;
    var a, q := RunList(k, fuel, env, depth, es, h), EvalList(k, fuel, lex, depth, es, s);
    if m == Passing && LambdaLast(es) {
      PassedListRefines(k, fuel, env, depth, es, h, lex, ns, s);
      if q.out.Val? && fuel > 0 {
        PassedCallRefines(k, fuel - 1, env, depth, e, q.out.v.elems, a.h, lex, ns, q.st);
      }
    } else {
      ListRefines(k, fuel, env, depth, es, h, lex, m, ns, s);
      if q.out.Val? && fuel > 0 {
        ListOnward(k, fuel, env, depth, es, h, lex, m, ns, s);
        CallRefines(k, fuel - 1, env, depth, e.fn, q.out.v.elems, a.h, lex, m, ns, q.st);
      }
    }
  }

  lemma ListOnward(k: Config, fuel: nat, env: nat, depth: nat, es: seq<Expr>, h: Heap, lex: Env, m: Mode, ns: Spaces, s: State)
    requires Table(k, m != Passing) && At(h, env, lex, m, ns, s) && MayAll(k, m, ns, es)
    requires Matches(RunList(k, fuel, env, depth, es, h), EvalList(k, fuel, lex, depth, es, s), m != Passing)
    ensures var q := EvalList(k, fuel, lex, depth, es, s);
      && At(RunList(k, fuel, env, depth, es, h).h, env, lex, m, ns, q.st)
      && (m == Passing && q.out.Val? ==> FlatAll(q.out.v.elems))
  {
    hide RunList, EvalList, Represents, Kept, FlatState, UsesFit;
    WellAt(h, env, lex, m, ns, s);
    ListKeeps(k, fuel, env, depth, es, h);
    if m == Passing {
      ListEnds(k, ns, fuel, lex, depth, es, s);
    }
    AtLater(h, env, lex, m, ns, s, RunList(k, fuel, env, depth, es, h).h, EvalList(k, fuel, lex, depth, es, s).st);
  }

  // ----- calls -----

  lemma {:induction false} CallRefines(k: Config, fuel: nat, env: nat, depth: nat, name: string, args: seq<Value>, h: Heap,
                                       lex: Env, m: Mode, ns: Spaces, s: State)
    requires Table(k, m != Passing) && At(h, env, lex, m, ns, s) && (m == Passing ==> FlatAll(args))
    ensures Matches(RunCall(k, fuel, env, depth, name, args, h), CallFn(k, fuel, lex, depth, name, args, s), m != Passing)
    decreases fuel, 3
  {
    hide RunHof, RunUser, CallHof, CallUser, Represents, Get, Lookup, FlatState;
    IdentRefines(h, env, lex, m, ns, s, USES);
    var us := UsesOf(Lookup(lex, s, USES));
    ResolvedFrom(k, us, name);
    var t := Resolve(k, us, name);
    if IsDebugName(name) {
      LogRefines(h, s, m != Passing, DebugEntry(name, args));
    } else if t.UserTarget? {
      UserRefines(k, fuel, depth, t.f, args, h, m != Passing, s);
    } else if t.BuiltinTarget? && t.b.kind.HigherOrder? {
      HofRefines(k, fuel, t.b.kind.hof, args, h, m != Passing, s);
    }
  }

  lemma LogRefines(h: Heap, s: State, kept: bool, entry: Entry)
    requires Represents(h, s, kept)
    ensures Represents(h.(log := h.log + [entry]), s.(log := s.log + [entry]), kept)
  {
    LogKeeps(h, entry);
    ClosuresKept(h, h.(log := h.log + [entry]), -1, s, kept);
  }

  /** The closure's scope shows its environment, and nothing will rebind it before it runs. */
  ghost predicate Callable(h: Heap, id: nat, s: State) {
    id < |h.clos| && id < |s.clos| && Safe(h, h.clos[id].env) && Shows(h, h.clos[id].env, s.clos[id].env)
  }

  /** The value may be called: any closure, if they may be kept; else no closure, or `e`
      just written. */
  ghost predicate Ready(k: Config, f: Value, e: Expr, depth: nat, ns: Spaces, h: Heap, kept: bool, s: State) {
    !kept && f.Clo? ==> Callable(h, f.id, s) && Written(k, ns, f, e, depth, s) && DirectBody(k, ns, e)
  }

  lemma {:induction false} HofRefines(k: Config, fuel: nat, hof: Hof, args: seq<Value>, h: Heap, kept: bool, s: State)
    requires Table(k, kept) && Represents(h, s, kept) && (!kept ==> FlatAll(args) && FlatState(s))
    ensures Matches(RunHof(k, fuel, hof, args, h), CallHof(k, fuel, hof, args, s), kept)
    decreases fuel, 2, 1
  {
    hide RunLoop, HofLoop, Represents, FlatState, Written, Table;
    if |args| >= HofArity(hof) && args[0].Arr? {
      var f := args[HofArity(hof) - 1];
      assert !kept ==> Flat(f);
      LoopRefines(k, fuel, hof, f, args[0].elems, HofInit(hof, args), Lit(NullLit), 0, None, h, kept, s);
    }
  }

  lemma {:induction false} LoopRefines(k: Config, fuel: nat, hof: Hof, f: Value, items: seq<Value>, acc: Value,
                                       e: Expr, depth: nat, ns: Spaces, h: Heap, kept: bool, s: State)
    requires Table(k, kept) && Represents(h, s, kept) && Ready(k, f, e, depth, ns, h, kept, s)
    requires !kept ==> FlatState(s) && FlatAll(items) && Flat(acc)
    ensures Matches(RunLoop(k, fuel, hof, f, items, acc, h), HofLoop(k, fuel, hof, f, items, acc, s), kept)
    decreases fuel, 2, 0, |items|
  {
    hide RunLambda, Apply, Represents, Ready, FlatState, Table;
    if items != [] {
      var args := HofArgs(hof, acc, items[0]);
      LambdaRefines(k, fuel, f, args, e, depth, ns, h, kept, s);
      var a, q := RunLambda(k, fuel, f, args, h), Apply(k, fuel, f, args, s);
      if q.out.Val? {
        LambdaOnward(k, fuel, f, args, e, depth, ns, h, kept, s);
        LoopRefines(k, fuel, hof, f, items[1..], HofStep(hof, acc, items[0], q.out.v), e, depth, ns, a.h, kept, q.st);
      }
    }
  }

  /** A closure that has run can run again. */
  lemma LambdaOnward(k: Config, fuel: nat, f: Value, args: seq<Value>, e: Expr, depth: nat, ns: Spaces,
                     h: Heap, kept: bool, s: State)
    requires Table(k, kept) && Represents(h, s, kept) && Ready(k, f, e, depth, ns, h, kept, s)
    requires !kept ==> FlatState(s) && FlatAll(args)
    ensures var a, q := RunLambda(k, fuel, f, args, h), Apply(k, fuel, f, args, s);
      && (!kept ==> FlatState(q.st) && (q.out.Val? ==> Flat(q.out.v)))
      && Ready(k, f, e, depth, ns, a.h, kept, q.st)
  {
    hide FlatState, FlatEnv, UsesFit, Direct, WellFormed, RunExpr, Eval, DirectTable;
    if !kept && f.Clo? {
      var a, q := RunLambda(k, fuel, f, args, h), Apply(k, fuel, f, args, s);
      ApplyEnds(k, ns, fuel, depth, f, args, e, s);
      WrittenLater(k, ns, f, e, depth, s, q.st);
      LambdaKeeps(k, fuel, f, args, h);
      assert SameLambda(h.clos[f.id], a.h.clos[f.id], |h.scopes|);
      ChainKept(h, a.h, -1, h.clos[f.id].env, s.clos[f.id].env);
    }
  }

  lemma {:induction false} LambdaRefines(k: Config, fuel: nat, f: Value, args: seq<Value>, e: Expr, depth: nat, ns: Spaces,
                                         h: Heap, kept: bool, s: State)
    requires Table(k, kept) && Represents(h, s, kept) && Ready(k, f, e, depth, ns, h, kept, s)
    requires !kept ==> FlatState(s) && FlatAll(args)
    ensures Matches(RunLambda(k, fuel, f, args, h), Apply(k, fuel, f, args, s), kept)
    decreases fuel, 1
  {
    hide RunExpr, Eval, Represents, Ready, FlatState, Enter, Leave, ArgScope, At, Table, WellFormed;
    SameClosures(h, s, kept);
    if f.Clo? && f.id < |h.clos| {
      var c, d := h.clos[f.id], s.clos[f.id];
      var vars := Bind(c.params, args);
      var h1, s1 := Enter(h, f.id, vars), s.(unbound := s.unbound + Missing(d.params, |args|));
      var r, m := ArgScope(h, f.id), BodyMode(if kept then InLambda else Passing);
      var ns' := Hidden(ns, set x | x in d.params);
      EnterRefines(k, f, args, e, depth, ns, h, kept, s);
      if !TooDeep(k, d.depth + 1) {
        ExprRefines(k, fuel, r, d.depth + 1, d.body, h1, CallEnv(d, args), m, ns', s1);
      }
      LeaveRefines(k, fuel, f.id, vars, h, h1, r, d.depth + 1, d.body, s1, kept,
        Eval(k, fuel, CallEnv(d, args), d.depth + 1, d.body, s1));
    }
  }

  lemma SameClosures(h: Heap, s: State, kept: bool)
    requires Represents(h, s, kept)
    ensures WellFormed(h) && |h.clos| == |s.clos|
    ensures forall c :: 0 <= c < |h.clos| ==> SameCode(h.clos[c], s.clos[c])
  {
  }

  /** Taking an argument scope and binding the arguments in it: the scope now shows the
      closure's environment with the arguments in front, and every other closure that may
      still be called shows what it showed. */
  lemma EnterRefines(k: Config, f: Value, args: seq<Value>, e: Expr, depth: nat, ns: Spaces, h: Heap, kept: bool, s: State)
    requires Represents(h, s, kept) && Ready(k, f, e, depth, ns, h, kept, s) && f.Clo? && f.id < |h.clos|
    requires !kept ==> FlatState(s) && FlatAll(args)
    ensures |s.clos| == |h.clos| && SameCode(h.clos[f.id], s.clos[f.id])
    ensures var d := s.clos[f.id];
      var m, ns' := if kept then InLambda else Passing, Hidden(ns, set x | x in d.params);
      && At(Enter(h, f.id, Bind(d.params, args)), ArgScope(h, f.id), CallEnv(d, args), m, ns',
            s.(unbound := s.unbound + Missing(d.params, |args|)))
      && May(k, m, ns', d.body)
    ensures Represents(Enter(h, f.id, Bind(h.clos[f.id].params, args)),
      s.(unbound := s.unbound + Missing(s.clos[f.id].params, |args|)), kept)
  {
    hide FlatState, FlatEnv, UsesFit, Direct, WellFormed, Enter, ArgScope;
    var d := s.clos[f.id];
    var vars := Bind(d.params, args);
    var s1 := s.(unbound := s.unbound + Missing(d.params, |args|));
    assert SameCode(h.clos[f.id], d);
    if kept {
      assert Settled(h, h.clos[f.id], d);
      StableIsSafe(h, h.clos[f.id].env);
    }
    EnterShows(h, f.id, vars, d.env, kept);
    EnterRepresents(h, f.id, vars, s, s1, kept);
    if !kept {
      BindFlat(d.params, args, if |d.params| < |args| then |d.params| else |args|);
      UsesLater(ns, d.env, s, s1);
      CallFits(ns, d, args, s1);
      SameBasesFlat(s, s1);
    }
  }

  lemma CallFits(ns: Spaces, d: Closure, args: seq<Value>, s: State)
    requires UsesFit(ns, d.env, s) && FlatEnv(d.env) && FlatFrame(Bind(d.params, args))
    ensures FlatEnv(CallEnv(d, args)) && UsesFit(Hidden(ns, set x | x in d.params), CallEnv(d, args), s)
  {
    UsesPushed(ns, d.env, s, Bind(d.params, args), set x | x in d.params);
  }

  lemma EnterShows(h: Heap, id: nat, vars: Frame, lex: Env, kept: bool)
    requires WellFormed(h) && id < |h.clos| && Safe(h, h.clos[id].env) && Shows(h, h.clos[id].env, lex)
    requires kept ==> Stable(h.scopes, h.clos[id].env)
    ensures var h1 := Enter(h, id, vars);
      Runs(h1, ArgScope(h, id), Env([vars] + lex.frames, lex.base), if kept then InLambda else Passing)
  {
    var h1, r, up := Enter(h, id, vars), ArgScope(h, id), h.clos[id].env;
    var lex' := Env([vars] + lex.frames, lex.base);
    assert Env(lex'.frames[1..], lex'.base) == lex;
    ArgScopeThere(h, id, vars);
    if h.clos[id].inCall {
      AddScope(h, Scope(Some(up), vars, true));
      ChainKept(h, h1, -1, up, lex);
      SafeKept(h, h1, -1, up);
    } else {
      EnterOwn(h, id, vars);
      EnterChain(h, id, vars, up, lex);
      EnterSafe(h, id, vars, up);
    }
  }

  lemma EnterRepresents(h: Heap, id: nat, vars: Frame, s: State, s': State, kept: bool)
    requires Represents(h, s, kept) && id < |h.clos| && s' == s.(unbound := s'.unbound)
    ensures Represents(Enter(h, id, vars), s', kept)
  {
    var h1 := Enter(h, id, vars);
    if h.clos[id].inCall {
      EnterFresh(h, id, vars);
      ClosuresKept(h, h1, -1, s, kept);
    } else {
      EnterOwn(h, id, vars);
      forall c | 0 <= c < |h1.clos|
        ensures SameCode(h1.clos[c], s.clos[c]) && (kept ==> Settled(h1, h1.clos[c], s.clos[c]))
      {
        assert SameCode(h.clos[c], s.clos[c]);
        if kept {
          StableIsSafe(h, h.clos[c].env);
          EnterChain(h, id, vars, h.clos[c].env, s.clos[c].env);
          EnterSafe(h, id, vars, h.clos[c].env);
        }
      }
      forall b | 0 <= b < |h1.phi|
        ensures h1.phi[b] < |h1.scopes| && h1.scopes[h1.phi[b]] == Scope(None, s.bases[b], false)
      {
        NotScratch(h, h.phi[b]);
        EnterIdle(h, id, vars, h.phi[b]);
      }
    }
  }

  lemma LeaveRefines(k: Config, fuel: nat, id: nat, vars: Frame, h: Heap, h1: Heap, r: nat, depth: nat, body: Expr,
                     s1: State, kept: bool, q: Res)
    requires WellFormed(h) && id < |h.clos| && h1 == Enter(h, id, vars) && r == ArgScope(h, id)
    requires TooDeep(k, depth) ==> Represents(h1, s1, kept)
    requires !TooDeep(k, depth) ==> Matches(RunExpr(k, fuel, r, depth, body, h1), q, kept)
    ensures var a := if TooDeep(k, depth) then Ran(Err(MaxDepth), h1) else RunExpr(k, fuel, r, depth, body, h1);
      var b := if TooDeep(k, depth) then Res(Err(MaxDepth), s1) else q;
      Matches(if h.clos[id].inCall then a else Ran(a.out, Leave(a.h, id)), b, kept)
  {
    hide RunExpr, Enter, ArgScope;
    var a := if TooDeep(k, depth) then Ran(Err(MaxDepth), h1) else RunExpr(k, fuel, r, depth, body, h1);
    var b := if TooDeep(k, depth) then Res(Err(MaxDepth), s1) else q;
    if !h.clos[id].inCall {
      EnterOwn(h, id, vars);
      ArgScopeThere(h, id, vars);
      KeptSelf(h1);
      if !TooDeep(k, depth) {
        ExprKeeps(k, fuel, r, depth, body, h1);
      }
      LeaveKept(h, id, vars, a.h);
      LeaveRepresents(a.h, id, b.st, kept);
    }
  }

  lemma LeaveRepresents(h: Heap, id: nat, s: State, kept: bool)
    requires Represents(h, s, kept) && id < |h.clos| && h.live != [] && h.live[|h.live| - 1] == id
    ensures Represents(Leave(h, id), s, kept)
  {
    var h' := Leave(h, id);
    LeaveWellFormed(h, id);
    forall c | 0 <= c < |h'.clos|
      ensures SameCode(h'.clos[c], s.clos[c]) && (kept ==> Settled(h', h'.clos[c], s.clos[c]))
    {
      assert SameCode(h.clos[c], s.clos[c]);
      if kept {
        ShowsPrefix(h, h', h.clos[c].env, s.clos[c].env);
      }
    }
  }

  // ----- closures written as arguments -----

  /** The last of the values is the closure just written, and it may be called. */
  ghost predicate PassedList(k: Config, e: Expr, vs: seq<Value>, env: nat, depth: nat, h: Heap, lex: Env, ns: Spaces, s: State) {
    && vs != [] && Shows(h, env, lex) && UsesFit(ns, lex, s) && FlatAll(vs[..|vs| - 1])
    && Written(k, ns, vs[|vs| - 1], e, depth, s) && Callable(h, vs[|vs| - 1].id, s)
  }

  lemma {:induction false} PassedListRefines(k: Config, fuel: nat, env: nat, depth: nat, es: seq<Expr>, h: Heap,
                                             lex: Env, ns: Spaces, s: State)
    requires Table(k, false) && At(h, env, lex, Passing, ns, s) && !TooDeep(k, depth)
    requires LambdaLast(es) && DirectAll(k, ns, es[..|es| - 1])
    ensures var a, q := RunList(k, fuel, env, depth, es, h), EvalList(k, fuel, lex, depth, es, s);
      && Matches(a, q, false) && FlatState(q.st)
      && (q.out.Val? ==> PassedList(k, es[|es| - 1], q.out.v.elems, env, depth, a.h, lex, ns, q.st))
    decreases fuel, 0, es, 0
  {
    hide RunExpr, Eval, Represents, Runs, Table, FlatState, FlatEnv, UsesFit, Written, Callable, Direct, Shows;
    if |es| == 1 {
      LastRefines(k, fuel, env, depth, es[0], h, lex, ns, s);
      OneItem(k, fuel, env, depth, es, h, lex, s);
    } else {
      assert es[..|es| - 1][0] == es[0] && es[1..][..|es| - 2] == es[..|es| - 1][1..];
      ExprRefines(k, fuel, env, depth, es[0], h, lex, Passing, ns, s);
      Onward(k, fuel, env, depth, es[0], h, lex, Passing, ns, s);
      FlatAt(k, fuel, env, depth, es[0], h, lex, ns, s);
      var a, q := RunExpr(k, fuel, env, depth, es[0], h), Eval(k, fuel, lex, depth, es[0], s);
      PassedListRefines(k, fuel, env, depth, es[1..], a.h, lex, ns, q.st);
      var rest := EvalList(k, fuel, lex, depth, es[1..], q.st);
      if q.out.Val? && rest.out.Val? {
        MorePassed(k, es[|es| - 1], q.out.v, rest.out.v.elems, env, depth,
          RunList(k, fuel, env, depth, es[1..], a.h).h, lex, ns, rest.st);
      }
    }
  }

  lemma MorePassed(k: Config, e: Expr, v: Value, vs: seq<Value>, env: nat, depth: nat, h: Heap, lex: Env, ns: Spaces, s: State)
    requires PassedList(k, e, vs, env, depth, h, lex, ns, s) && Flat(v)
    ensures PassedList(k, e, [v] + vs, env, depth, h, lex, ns, s)
  {
    var ws := [v] + vs;
    assert ws[..|ws| - 1] == [v] + vs[..|vs| - 1];
  }

  lemma OneItem(k: Config, fuel: nat, env: nat, depth: nat, es: seq<Expr>, h: Heap, lex: Env, s: State)
    requires |es| == 1
    ensures var a := RunExpr(k, fuel, env, depth, es[0], h);
      RunList(k, fuel, env, depth, es, h) == if a.out.Val? then Ran(Val(Arr([a.out.v])), a.h) else a
    ensures var q := Eval(k, fuel, lex, depth, es[0], s);
      EvalList(k, fuel, lex, depth, es, s) == if q.out.Val? then Res(Val(Arr([q.out.v])), q.st) else q
  {
    hide RunExpr, Eval;
    assert es[1..] == [];
    var a, q := RunExpr(k, fuel, env, depth, es[0], h), Eval(k, fuel, lex, depth, es[0], s);
    assert a.out.Val? ==> [a.out.v] + [] == [a.out.v];
    assert q.out.Val? ==> [q.out.v] + [] == [q.out.v];
  }

  lemma LastRefines(k: Config, fuel: nat, env: nat, depth: nat, e: Expr, h: Heap, lex: Env, ns: Spaces, s: State)
    requires Table(k, false) && At(h, env, lex, Passing, ns, s) && !TooDeep(k, depth) && e.Lambda?
    ensures var a, q := RunExpr(k, fuel, env, depth, e, h), Eval(k, fuel, lex, depth, e, s);
      && Matches(a, q, false) && FlatState(q.st) && q.out.Val?
      && PassedList(k, e, [q.out.v], env, depth, a.h, lex, ns, q.st)
  {
    hide Represents, Runs, FlatState, FlatEnv, UsesFit, Capturing;
    var a, q := RunExpr(k, fuel, env, depth, e, h), Eval(k, fuel, lex, depth, e, s);
    LastShows(h, env, depth, e, lex, ns, s);
    CapturingRefines(h, env, depth, e.params, e.body, lex, Passing, s);
    UsesLater(ns, lex, s, q.st);
    SameBasesFlat(s, q.st);
    assert [q.out.v][..0] == [];
  }

  lemma LastShows(h: Heap, env: nat, depth: nat, e: Expr, lex: Env, ns: Spaces, s: State)
    requires At(h, env, lex, Passing, ns, s) && e.Lambda?
    ensures Shows(Capturing(h, env, depth, e.params, e.body), env, lex)
    ensures Represents(h, s, false) && Runs(h, env, lex, Passing) && |h.clos| == |s.clos|
  {
    CapturingKeeps(h, env, depth, e.params, e.body);
    ChainKept(h, Capturing(h, env, depth, e.params, e.body), -1, env, lex);
  }

  lemma {:induction false} PassedCallRefines(k: Config, fuel: nat, env: nat, depth: nat, e: Expr, args: seq<Value>, h: Heap,
                                             lex: Env, ns: Spaces, s: State)
    requires Table(k, false) && e.Call? && LambdaLast(e.args) && Direct(k, ns, e) && |args| == |e.args|
    requires Represents(h, s, false) && FlatState(s)
    requires PassedList(k, e.args[|args| - 1], args, env, depth, h, lex, ns, s)
    ensures Matches(RunCall(k, fuel, env, depth, e.fn, args, h), CallFn(k, fuel, lex, depth, e.fn, args, s), false)
    decreases fuel, 3
  {
    hide RunLoop, HofLoop, FlatState, Written, Callable, Get, Lookup, DirectTable, Shows, Represents;
    PassedUses(h, env, lex, s);
    var t := Resolve(k, UsesOf(Lookup(lex, s, USES)), e.fn);
    assert HofTarget(t, |args|);
    if t.BuiltinTarget? && args[0].Arr? {
      var hof := t.b.kind.hof;
      assert args[..|args| - 1][0] == args[0];
      assert hof == ReduceHof ==> args[..|args| - 1][1] == args[1];
      LoopRefines(k, fuel, hof, args[|args| - 1], args[0].elems, HofInit(hof, args), e.args[|args| - 1], depth, ns, h, false, s);
    }
  }

  lemma PassedUses(h: Heap, env: nat, lex: Env, s: State)
    requires Represents(h, s, false) && Shows(h, env, lex)
    ensures Get(h.scopes, env, USES) == Lookup(lex, s, USES)
  {
    GetIsLookup(h, env, lex, s, USES);
  }

  // ----- user functions -----

  /** The scope of a function in progress, whose variables are those of scope `b`. */
  ghost predicate InFunction(h: Heap, env: nat, b: nat, kept: bool, ns: Spaces, s: State) {
    && Represents(h, s, kept) && b < |h.phi| && h.phi[b] == env
    && (!kept ==> FlatState(s) && UsesFit(ns, Env([], Some(b)), s))
  }

  lemma TopAt(h: Heap, env: nat, b: nat, kept: bool, ns: Spaces, s: State)
    requires InFunction(h, env, b, kept, ns, s)
    ensures At(h, env, Env([], Some(b)), TopMode(kept), ns, s)
    ensures WellFormed(h) && FunctionScope(h, env) && b < |s.bases|
  {
    assert FunctionScope(h, h.phi[b]);
    StableIsSafe(h, env);
  }

  lemma InFunctionLater(h: Heap, env: nat, b: nat, kept: bool, ns: Spaces, s: State, h': Heap, s': State)
    requires InFunction(h, env, b, kept, ns, s) && KeepsAt(h, h', env) && Represents(h', s', kept)
    requires !kept ==> FlatState(s') && UsesFit(ns, Env([], Some(b)), s')
    ensures InFunction(h', env, b, kept, ns, s')
  {
  }

  lemma VarRefines(h: Heap, env: nat, b: nat, kept: bool, ns: Spaces, s: State, x: string, v: Value)
    requires InFunction(h, env, b, kept, ns, s)
    requires !kept ==> Flat(v) && (x == USES ==> Among(ns, UsesOf(Some(v))))
    ensures InFunction(WithVar(h, env, x, v), env, b, kept, ns, SetBase(s, b, x, v))
  {
    TopAt(h, env, b, kept, ns, s);
    AddVar(h, env, x, v);
    ClosuresKept(h, WithVar(h, env, x, v), env, s, kept);
    if !kept {
      SetFlat(ns, b, x, v, s);
    }
  }

  lemma {:induction false} TopExprRefines(k: Config, fuel: nat, env: nat, depth: nat, e: Expr, h: Heap,
                                          b: nat, kept: bool, ns: Spaces, s: State)
    requires Table(k, kept) && InFunction(h, env, b, kept, ns, s) && May(k, TopMode(kept), ns, e)
    ensures var a, q := RunExpr(k, fuel, env, depth, e, h), Eval(k, fuel, Env([], Some(b)), depth, e, s);
      && Matches(a, q, kept) && InFunction(a.h, env, b, kept, ns, q.st)
      && (!kept && q.out.Val? ==> Flat(q.out.v))
    decreases fuel, 0, e, 3
  {
    hide RunExpr, Eval, Represents, FlatState, UsesFit, Direct, DirectTable, WellFormed;
    var lex := Env([], Some(b));
    TopAt(h, env, b, kept, ns, s);
    ExprRefines(k, fuel, env, depth, e, h, lex, TopMode(kept), ns, s);
    TopExprKeeps(k, fuel, env, depth, e, h);
    var a, q := RunExpr(k, fuel, env, depth, e, h), Eval(k, fuel, lex, depth, e, s);
    if !kept {
      EvalEnds(k, ns, fuel, lex, depth, e, s);
      UsesLater(ns, lex, s, q.st);
    }
    InFunctionLater(h, env, b, kept, ns, s, a.h, q.st);
  }

  /** What `RunBinding` does, on the state. */
  function Binding(k: Config, fuel: nat, b: nat, depth: nat, x: string, e: Expr, s: State): Res {
    var a := Eval(k, fuel, Env([], Some(b)), depth, e, s);
    if a.out.Val? then Res(a.out, SetBase(a.st, b, x, a.out.v)) else a
  }

  lemma {:induction false} BindingRefines(k: Config, fuel: nat, env: nat, depth: nat, x: string, e: Expr, h: Heap,
                                          b: nat, kept: bool, ns: Spaces, s: State)
    requires Table(k, kept) && InFunction(h, env, b, kept, ns, s) && May(k, TopMode(kept), ns, e)
    requires !kept && x == USES ==> ns.None?
    ensures var a, q := RunBinding(k, fuel, env, depth, x, e, h), Binding(k, fuel, b, depth, x, e, s);
      && a.out == q.out && InFunction(a.h, env, b, kept, ns, q.st)
    decreases fuel, 0, e, 4
  {
    hide RunExpr, Eval, Represents, InFunction, Direct, Table;
    TopExprRefines(k, fuel, env, depth, e, h, b, kept, ns, s);
    var a, q := RunExpr(k, fuel, env, depth, e, h), Eval(k, fuel, Env([], Some(b)), depth, e, s);
    if q.out.Val? {
      VarRefines(a.h, env, b, kept, ns, q.st, x, q.out.v);
    }
  }

  lemma {:induction false} UserRefines(k: Config, fuel: nat, depth: nat, f: FnDef, args: seq<Value>, h: Heap, kept: bool, s: State)
    requires Table(k, kept) && Represents(h, s, kept) && (if kept then PlacedFn(f) else DirectFn(k, f))
    requires !kept ==> FlatAll(args) && FlatState(s)
    ensures Matches(RunUser(k, fuel, depth, f, args, h), CallUser(k, fuel, depth, f, args, s), kept)
    decreases fuel, 2, 0, 0
  {
    hide RunParams, RunBody, BindParams, ExecBody, Represents, InFunction, Table, PlacedFn, DirectFn, Declared;
    var env, b, ns := |h.scopes|, |s.bases|, Declared(f);
    var h1, s1 := WithBase(h), s.(bases := s.bases + [map[]]);
    FunctionParts(k, f, kept);
    NewFunction(h, s, kept, ns);
    if !TooDeep(k, depth + 1) {
      ParamsRefine(k, fuel, env, depth + 1, f.params, args, h1, b, kept, ns, s1);
      var p, q := RunParams(k, fuel, env, depth + 1, f.params, args, h1), BindParams(k, fuel, b, depth + 1, f.params, args, s1);
      if q.out.Val? {
        BodyRefines(k, fuel, env, depth + 1, f.body, Null, p.h, b, kept, ns, q.st);
      }
    }
  }

  ghost predicate MayParams(k: Config, kept: bool, ns: Spaces, params: seq<Param>) {
    forall i :: 0 <= i < |params| ==> MayParam(k, kept, ns, params[i])
  }

  ghost predicate MayParam(k: Config, kept: bool, ns: Spaces, p: Param) {
    && (!kept && p.name == USES ==> ns.None?)
    && (p.default.Some? ==> May(k, TopMode(kept), ns, p.default.value))
  }

  ghost predicate MayStmts(k: Config, kept: bool, ns: Spaces, stmts: seq<Stmt>) {
    forall i :: 0 <= i < |stmts| ==> MayStmt(k, kept, ns, stmts[i])
  }

  ghost predicate MayStmt(k: Config, kept: bool, ns: Spaces, st: Stmt) {
    if kept then PlacedStmt(st) else DirectStmt(k, ns, st)
  }

  lemma FunctionParts(k: Config, f: FnDef, kept: bool)
    requires if kept then PlacedFn(f) else DirectFn(k, f)
    ensures MayParams(k, kept, Declared(f), f.params) && MayStmts(k, kept, Declared(f), f.body)
  {
    if !kept {
      DirectParts(k, f);
    }
  }

  /** A new function scope, known to nobody else. */
  lemma NewFunction(h: Heap, s: State, kept: bool, ns: Spaces)
    requires Represents(h, s, kept) && (!kept ==> FlatState(s))
    ensures var h1, s1 := WithBase(h), s.(bases := s.bases + [map[]]);
      InFunction(h1, |h.scopes|, |s.bases|, kept, ns, s1) && Represents(h1, s1, kept)
  {
    AddBase(h);
    ClosuresKept(h, WithBase(h), -1, s, kept);
  }

  lemma {:induction false} ParamsRefine(k: Config, fuel: nat, env: nat, depth: nat, params: seq<Param>, args: seq<Value>, h: Heap,
                                        b: nat, kept: bool, ns: Spaces, s: State)
    requires Table(k, kept) && InFunction(h, env, b, kept, ns, s) && MayParams(k, kept, ns, params) && b < |s.bases|
    requires !kept ==> FlatAll(args)
    ensures var a, q := RunParams(k, fuel, env, depth, params, args, h), BindParams(k, fuel, b, depth, params, args, s);
      && Matches(a, q, kept) && InFunction(a.h, env, b, kept, ns, q.st)
    decreases fuel, 1, params, 1
  {
    hide Eval, RunBinding, Represents, Table, May, FlatState, UsesFit, WithVar;
    if params != [] {
      var p := params[0];
      assert MayParam(k, kept, ns, p);
      if args != [] {
        VarRefines(h, env, b, kept, ns, s, p.name, args[0]);
        ParamsRefine(k, fuel, env, depth, params[1..], args[1..], WithVar(h, env, p.name, args[0]), b, kept, ns,
          SetBase(s, b, p.name, args[0]));
      } else if p.default.Some? {
        BindingRefines(k, fuel, env, depth, p.name, p.default.value, h, b, kept, ns, s);
        var a, q := RunBinding(k, fuel, env, depth, p.name, p.default.value, h),
                    Binding(k, fuel, b, depth, p.name, p.default.value, s);
        if q.out.Val? {
          ParamsRefine(k, fuel, env, depth, params[1..], [], a.h, b, kept, ns, q.st);
        }
      } else {
        var s1 := s.(unbound := s.unbound + {p.name});
        UnboundRefines(h, env, b, kept, ns, s, s1);
        ParamsRefine(k, fuel, env, depth, params[1..], [], h, b, kept, ns, s1);
      }
    }
  }

  lemma UnboundRefines(h: Heap, env: nat, b: nat, kept: bool, ns: Spaces, s: State, s': State)
    requires InFunction(h, env, b, kept, ns, s) && s' == s.(unbound := s'.unbound) && s.unbound <= s'.unbound
    ensures InFunction(h, env, b, kept, ns, s')
  {
    if !kept {
      UsesLater(ns, Env([], Some(b)), s, s');
    }
  }

  lemma {:induction false} BodyRefines(k: Config, fuel: nat, env: nat, depth: nat, stmts: seq<Stmt>, result: Value, h: Heap,
                                       b: nat, kept: bool, ns: Spaces, s: State)
    requires Table(k, kept) && InFunction(h, env, b, kept, ns, s) && MayStmts(k, kept, ns, stmts) && b < |s.bases|
    ensures Matches(RunBody(k, fuel, env, depth, stmts, result, h), ExecBody(k, fuel, b, depth, stmts, result, s), kept)
    decreases fuel, 1, stmts, 1
  {
    hide RunStmt, ExecStmt, Represents, Table, MayStmt, FlatState, UsesFit;
    if stmts != [] {
      StmtRefines(k, fuel, env, depth, stmts[0], h, b, kept, ns, s);
      var a, q := RunStmt(k, fuel, env, depth, stmts[0], h), ExecStmt(k, fuel, b, depth, stmts[0], s);
      if q.out.Val? {
        BodyRefines(k, fuel, env, depth, stmts[1..], q.out.v, a.h, b, kept, ns, q.st);
      }
    }
  }

  lemma {:induction false} StmtRefines(k: Config, fuel: nat, env: nat, depth: nat, stmt: Stmt, h: Heap,
                                       b: nat, kept: bool, ns: Spaces, s: State)
    requires Table(k, kept) && InFunction(h, env, b, kept, ns, s) && MayStmt(k, kept, ns, stmt) && b < |s.bases|
    ensures var a, q := RunStmt(k, fuel, env, depth, stmt, h), ExecStmt(k, fuel, b, depth, stmt, s);
      && a.out == q.out && InFunction(a.h, env, b, kept, ns, q.st)
    decreases fuel, 1, stmt, 0
  {
    hide Eval, RunExpr, RunBinding, Represents, Table, Placed, Direct, FlatState, UsesFit, WithVar, InFunction;
    if !TooDeep(k, depth) {
      match stmt {
        case Let(x, e) => BindingRefines(k, fuel, env, depth, x, e, h, b, kept, ns, s);
        case Return(e) => TopExprRefines(k, fuel, env, depth, e, h, b, kept, ns, s);
        case ExprStmt(e) => TopExprRefines(k, fuel, env, depth, e, h, b, kept, ns, s);
        case Use(x) => UseRefines(h, env, b, kept, ns, s, x);
      }
    }
  }

  lemma UseRefines(h: Heap, env: nat, b: nat, kept: bool, ns: Spaces, s: State, x: string)
    requires InFunction(h, env, b, kept, ns, s) && (!kept ==> ns.None? || x in ns.value)
    ensures Get(h.scopes, env, USES) == Lookup(Env([], Some(b)), s, USES)
    ensures var v := Arr(UsesOf(Get(h.scopes, env, USES)) + [Str(x)]);
      InFunction(WithVar(h, env, USES, v), env, b, kept, ns, SetBase(s, b, USES, v))
  {
    var lex := Env([], Some(b));
    TopAt(h, env, b, kept, ns, s);
    GetIsLookup(h, env, lex, s, USES);
    var uses := UsesOf(Lookup(lex, s, USES));
    if !kept {
      LookupFlat(lex, s, USES);
      assert FlatAll(uses);
    }
    VarRefines(h, env, b, kept, ns, s, USES, Arr(uses + [Str(x)]));
  }

  // ----- whole runs -----

  lemma {:induction false} NamedRefines(k: Config, fuel: nat, env: nat, params: seq<Param>, args: Frame, h: Heap,
                                        b: nat, kept: bool, ns: Spaces, s: State)
    requires Table(k, kept) && InFunction(h, env, b, kept, ns, s) && MayParams(k, kept, ns, params) && b < |s.bases|
    requires !kept ==> FlatFrame(args)
    ensures var a, q := RunNamed(k, fuel, env, params, args, h), BindNamed(k, fuel, b, params, args, s);
      && Matches(a, q, kept) && InFunction(a.h, env, b, kept, ns, q.st)
    decreases params
  {
    hide Eval, RunBinding, Represents, Table, May, FlatState, UsesFit, WithVar;
    if params != [] {
      var p := params[0];
      assert MayParam(k, kept, ns, p);
      if p.name !in args && p.default.Some? {
        BindingRefines(k, fuel, env, 0, p.name, p.default.value, h, b, kept, ns, s);
        var a, q := RunBinding(k, fuel, env, 0, p.name, p.default.value, h),
                    Binding(k, fuel, b, 0, p.name, p.default.value, s);
        if q.out.Val? {
          NamedRefines(k, fuel, env, params[1..], args, a.h, b, kept, ns, q.st);
        }
      } else {
        var v := if p.name in args then args[p.name] else Null;
        VarRefines(h, env, b, kept, ns, s, p.name, v);
        NamedRefines(k, fuel, env, params[1..], args, WithVar(h, env, p.name, v), b, kept, ns, SetBase(s, b, p.name, v));
      }
    }
  }

  lemma {:induction false} RunRefines(k: Config, fuel: nat, f: FnDef, args: Frame, kept: bool)
    requires Table(k, kept) && (if kept then PlacedFn(f) else DirectFn(k, f) && FlatFrame(args))
    ensures Matches(RunExecute(k, fuel, f, args), Execute(k, fuel, f, args), kept)
  {
    hide RunNamed, RunBody, BindNamed, ExecBody, InFunction, Table, PlacedFn, DirectFn, Declared;
    var s0, s := State([], [], [], {}), State([map[]], [], [], {});
    var h := WithBase(EMPTY);
    assert s0.bases + [map[]] == s.bases;
    FunctionParts(k, f, kept);
    NewFunction(EMPTY, s0, kept, Declared(f));
    NamedRefines(k, fuel, 0, f.params, args, h, 0, kept, Declared(f), s);
    var p, q := RunNamed(k, fuel, 0, f.params, args, h), BindNamed(k, fuel, 0, f.params, args, s);
    if q.out.Val? {
      BodyRefines(k, fuel, 0, 0, f.body, Null, p.h, 0, kept, Declared(f), q.st);
    }
  }

  /** Programs in which scope reuse cannot be seen: no lambda stands in a `for` body that
      itself stands in a lambda, and closures may be kept, stored and called at any time; or
      every lambda is written as the argument of a collection builtin, wherever that stands. */
  ghost predicate Invisible(k: Config, f: FnDef, args: Frame) {
    || (PlacedTable(k) && PlacedFn(f))
    || (DirectTable(k) && DirectFn(k, f) && FlatFrame(args))
  }

  lemma ReuseIsInvisible(k: Config, fuel: nat, f: FnDef, args: Frame)
    requires !k.copies && Invisible(k, f, args)
    ensures var r, q := RunExecute(k, fuel, f, args), Execute(k, fuel, f, args);
      r.out == q.out && r.h.log == q.st.log
  {
    hide PlacedTable, PlacedFn, DirectTable, DirectFn;
    RunRefines(k, fuel, f, args, PlacedTable(k) && PlacedFn(f));
  }
}
