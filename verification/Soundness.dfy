/** A function that compiles finds its variables and its callees when it runs. */
module Soundness {
  import opened Wrappers
  import opened Syntax
  import opened Lexical
  import opened Compiler

  // ----- programs the two theorems are about -----

  /** No binder in the expression takes the name the executor keeps namespaces under. */
  predicate NoUses(e: Expr)
    decreases e
  {
    match e
    case Lit(_) => true
    case Ident(_) => true
    case Strict(_, es) => forall i :: 0 <= i < |es| ==> NoUses(es[i])
    case ArrayLit(es) => forall i :: 0 <= i < |es| ==> NoUses(es[i])
    case And(l, r) => NoUses(l) && NoUses(r)
    case Or(l, r) => NoUses(l) && NoUses(r)
    case If(c, t, f) => NoUses(c) && NoUses(t) && (f.Some? ==> NoUses(f.value))
    case Coalesce(l, r) => NoUses(l) && NoUses(r)
    case Try(b, d) => NoUses(b) && (d.Some? ==> NoUses(d.value))
    case For(x, i, it, b) => x != USES && i != USES && NoUses(it) && NoUses(b)
    case Raise(m) => NoUses(m)
    case Lambda(ps, b) => USES !in ps && NoUses(b)
    case Call(_, es) => forall i :: 0 <= i < |es| ==> NoUses(es[i])
  }

  predicate NoUsesStmt(st: Stmt) {
    match st
    case Let(x, e) => x != USES && NoUses(e)
    case Return(e) => NoUses(e)
    case ExprStmt(e) => NoUses(e)
    case Use(_) => true
  }

  /** PlainFn defaults only. */
  predicate PlainParams(params: seq<Param>) {
    forall i :: 0 <= i < |params| ==>
      params[i].name != USES && (params[i].default.Some? ==> params[i].default.value.Lit?)
  }

  /** Defaults are literals, and no name is the executor's own. */
  predicate PlainFn(f: FnDef) {
    PlainParams(f.params) && forall i :: 0 <= i < |f.body| ==> NoUsesStmt(f.body[i])
  }

  /** A clean function with literal defaults. */
  predicate GoodFn(k: Config, f: FnDef) {
    Clean(k, f) && PlainFn(f)
  }

  lemma CleanIsGood(k: Config, f: FnDef)
    ensures Clean(k, f) && PlainFn(f) <==> GoodFn(k, f)
  {
  }

  ghost predicate GoodTable(k: Config) {
    !k.copies && forall n :: n in k.fns ==> GoodFn(k, k.fns[n])
  }

  // ----- what is in scope at run time -----

  function FrameNames(frames: seq<Frame>): set<string> {
    if frames == [] then {} else frames[0].Keys + FrameNames(frames[1..])
  }

  lemma LookupInFrames(frames: seq<Frame>, x: string)
    ensures LookupFrames(frames, x).Some? <==> x in FrameNames(frames)
  {
  }

  predicate EnvOk(env: Env, s: State) {
    && env.base.Some? && env.base.value < |s.bases|
    && USES !in FrameNames(env.frames)
  }

  /** Everything a lookup can find, and everything some call left out. */
  function NamesAt(env: Env, s: State): set<string>
    requires EnvOk(env, s)
  {
    FrameNames(env.frames) + s.bases[env.base.value].Keys + s.unbound
  }

  predicate AllStr(vs: seq<Value>) {
    forall i :: 0 <= i < |vs| ==> vs[i].Str?
  }

  function Strs(vs: seq<Value>): seq<string>
    requires AllStr(vs)
  {
    seq(|vs|, i requires 0 <= i < |vs| => vs[i].s)
  }

  predicate UsesWell(f: Frame) {
    USES in f ==> f[USES].Arr? && AllStr(f[USES].elems)
  }

  function BaseUses(f: Frame): seq<string>
    requires UsesWell(f)
  {
    if USES in f then Strs(f[USES].elems) else []
  }

  predicate BasesWell(s: State) {
    forall b :: 0 <= b < |s.bases| ==> UsesWell(s.bases[b])
  }

  /** Running `e` here meets no name and no callee it cannot find. */
  predicate Ok(k: Config, env: Env, e: Expr, s: State)
    requires BasesWell(s)
  {
    && EnvOk(env, s) && NoUses(e)
    && VarsOk(e, NamesAt(env, s))
    && CallsOk(k, e, BaseUses(s.bases[env.base.value]))
  }

  predicate LambdaOk(k: Config, c: Closure, s: State)
    requires BasesWell(s)
  {
    && EnvOk(c.env, s) && NoUses(c.body) && USES !in c.params
    && VarsOk(c.body, NamesAt(c.env, s) + Names(c.params))
    && CallsOk(k, c.body, BaseUses(s.bases[c.env.base.value]))
  }

  predicate StateOk(k: Config, s: State) {
    BasesWell(s) && forall c :: 0 <= c < |s.clos| ==> LambdaOk(k, s.clos[c], s)
  }

  /** Scopes gain names, namespace lists get longer; nothing else changes. */
  predicate Extends(s: State, s': State)
    requires BasesWell(s) && BasesWell(s')
  {
    && |s.bases| <= |s'.bases| && s.unbound <= s'.unbound
    && forall b :: 0 <= b < |s.bases| ==> FrameExtends(s.bases[b], s'.bases[b])
  }

  predicate FrameExtends(f: Frame, f': Frame)
    requires UsesWell(f) && UsesWell(f')
  {
    f.Keys <= f'.Keys && BaseUses(f) <= BaseUses(f')
  }

  lemma OkLater(k: Config, env: Env, e: Expr, s: State, s': State)
    requires BasesWell(s) && BasesWell(s') && Ok(k, env, e, s) && Extends(s, s')
    ensures Ok(k, env, e, s')
  {
    var b := env.base.value;
    assert FrameExtends(s.bases[b], s'.bases[b]);
    MoreNames(e, NamesAt(env, s), NamesAt(env, s'));
    MoreUses(k, e, BaseUses(s.bases[b]), BaseUses(s'.bases[b]));
  }

  lemma LambdaLater(k: Config, c: Closure, s: State, s': State)
    requires BasesWell(s) && BasesWell(s') && LambdaOk(k, c, s) && Extends(s, s')
    ensures LambdaOk(k, c, s')
  {
    var b := c.env.base.value;
    assert FrameExtends(s.bases[b], s'.bases[b]);
    MoreNames(c.body, NamesAt(c.env, s) + Names(c.params), NamesAt(c.env, s') + Names(c.params));
    MoreUses(k, c.body, BaseUses(s.bases[b]), BaseUses(s'.bases[b]));
  }

  lemma StateLater(k: Config, s: State, s': State)
    requires StateOk(k, s) && BasesWell(s') && Extends(s, s') && s'.clos == s.clos
    ensures StateOk(k, s')
  {
    forall c | 0 <= c < |s'.clos| ensures LambdaOk(k, s'.clos[c], s') {
      LambdaLater(k, s.clos[c], s, s');
    }
  }

  // ----- no run ends in a name the compiler should have caught -----

  /** The two errors can only be about a `$` name or a parameter some call left out. */
  predicate Sound(r: Res) {
    r.out.Err? ==>
      && !r.out.e.NotDefined?
      && (r.out.e.Undefined? ==> Dollar(r.out.e.name) || r.out.e.name in r.st.unbound)
  }

  ghost predicate StaysSound(k: Config, r: Res) {
    Sound(r) && StateOk(k, r.st)
  }

  lemma {:induction false} EvalSound(k: Config, fuel: nat, env: Env, depth: nat, e: Expr, s: State)
    requires GoodTable(k) && StateOk(k, s) && Ok(k, env, e, s)
    ensures StaysSound(k, Eval(k, fuel, env, depth, e, s))
    decreases fuel, 0, e, 2
  {
    if !TooDeep(k, depth) {
      match e {
        case Lit(_) =>
        case Ident(x) => LookupInFrames(env.frames, x);
        case Strict(_, es) => ListSound(k, fuel, env, depth, es, s);
        case ArrayLit(es) => ListSound(k, fuel, env, depth, es, s);
        case And(_, _) => ControlSound(k, fuel, env, depth, e, s);
        case Or(_, _) => ControlSound(k, fuel, env, depth, e, s);
        case If(_, _, _) => ControlSound(k, fuel, env, depth, e, s);
        case Coalesce(_, _) => ControlSound(k, fuel, env, depth, e, s);
        case Try(_, _) => ControlSound(k, fuel, env, depth, e, s);
        case For(_, _, _, _) => ForExprSound(k, fuel, env, depth, e, s);
        case Raise(m) => EvalSound(k, fuel, env, depth, m, s);
        case Lambda(ps, b) => LambdaSound(k, fuel, env, depth, ps, b, s);
        case Call(name, es) =>
          ListSound(k, fuel, env, depth, es, s);
          var a := EvalList(k, fuel, env, depth, es, s);
          if a.out.Val? && fuel > 0 {
            GrowsExtends(s, a.st);
            CallSound(k, fuel - 1, env, depth, name, a.out.v.elems, a.st);
          }
      }
    }
  }

  /** Expressions that choose which of their parts run. */
  lemma {:induction false} ControlSound(k: Config, fuel: nat, env: Env, depth: nat, e: Expr, s: State)
    requires GoodTable(k) && StateOk(k, s) && Ok(k, env, e, s) && !TooDeep(k, depth)
    requires e.And? || e.Or? || e.If? || e.Coalesce? || e.Try?
    ensures StaysSound(k, Eval(k, fuel, env, depth, e, s))
    decreases fuel, 0, e, 1
  {
    hide EvalList, EvalFor, CallFn;
    match e {
      case And(l, r) =>
        EvalSound(k, fuel, env, depth, l, s);
        ThenSound(k, fuel, env, depth, l, r, e, s);
      case Or(l, r) =>
        EvalSound(k, fuel, env, depth, l, s);
        ThenSound(k, fuel, env, depth, l, r, e, s);
      case If(c, t, f) =>
        EvalSound(k, fuel, env, depth, c, s);
        ThenSound(k, fuel, env, depth, c, t, e, s);
        if f.Some? {
          ThenSound(k, fuel, env, depth, c, f.value, e, s);
        }
      case Coalesce(l, r) =>
        EvalSound(k, fuel, env, depth, l, s);
        ThenSound(k, fuel, env, depth, l, r, e, s);
      case Try(b, d) =>
        EvalSound(k, fuel, env, depth, b, s);
        if d.Some? {
          ThenSound(k, fuel, env, depth, b, d.value, e, s);
        }
    }
  }

  lemma GrowsExtends(s: State, s': State)
    requires BasesWell(s) && BasesWell(s') && Grows(s, s')
    ensures Extends(s, s')
  {
  }

  /** A second part of `e`, run after the first. */
  lemma {:induction false} ThenSound(k: Config, fuel: nat, env: Env, depth: nat, e1: Expr, e2: Expr, e: Expr, s: State)
    requires GoodTable(k) && BasesWell(s) && Ok(k, env, e2, s) && e2 < e
    requires StaysSound(k, Eval(k, fuel, env, depth, e1, s))
    ensures StaysSound(k, Eval(k, fuel, env, depth, e2, Eval(k, fuel, env, depth, e1, s).st))
    decreases fuel, 0, e, 0
  {
    var s' := Eval(k, fuel, env, depth, e1, s).st;
    GrowsExtends(s, s');
    OkLater(k, env, e2, s, s');
    EvalSound(k, fuel, env, depth, e2, s');
  }

  lemma LambdaSound(k: Config, fuel: nat, env: Env, depth: nat, ps: seq<string>, b: Expr, s: State)
    requires !k.copies && StateOk(k, s) && Ok(k, env, Lambda(ps, b), s) && !TooDeep(k, depth)
    ensures StaysSound(k, Eval(k, fuel, env, depth, Lambda(ps, b), s))
  {
    var r := Eval(k, fuel, env, depth, Lambda(ps, b), s);
    forall c | 0 <= c < |r.st.clos| ensures LambdaOk(k, r.st.clos[c], r.st) {
      if c < |s.clos| {
        LambdaLater(k, s.clos[c], s, r.st);
      }
    }
  }

  lemma {:induction false} ListSound(k: Config, fuel: nat, env: Env, depth: nat, es: seq<Expr>, s: State)
    requires GoodTable(k) && StateOk(k, s) && forall i :: 0 <= i < |es| ==> Ok(k, env, es[i], s)
    ensures StaysSound(k, EvalList(k, fuel, env, depth, es, s))
    decreases fuel, 0, es, 0
  {
    if es != [] {
      EvalSound(k, fuel, env, depth, es[0], s);
      var s' := Eval(k, fuel, env, depth, es[0], s).st;
      GrowsExtends(s, s');
      forall i | 0 <= i < |es[1..]| ensures Ok(k, env, es[1..][i], s') {
        OkLater(k, env, es[i + 1], s, s');
      }
      ListSound(k, fuel, env, depth, es[1..], s');
    }
  }

  lemma {:induction false} ForExprSound(k: Config, fuel: nat, env: Env, depth: nat, e: Expr, s: State)
    requires GoodTable(k) && StateOk(k, s) && Ok(k, env, e, s) && e.For? && !TooDeep(k, depth)
    ensures StaysSound(k, Eval(k, fuel, env, depth, e, s))
    decreases fuel, 0, e, 0
  {
    EvalSound(k, fuel, env, depth, e.iterable, s);
    var a := Eval(k, fuel, env, depth, e.iterable, s);
    if a.out.Val? && a.out.v.Arr? {
      GrowsExtends(s, a.st);
      OkLater(k, env, e, s, a.st);
      RoundsSound(k, fuel, env, depth, e.variable, e.index, e.body, a.out.v.elems, 0, a.st);
    }
  }

  predicate BodyOk(k: Config, env: Env, x: string, index: string, body: Expr, s: State)
    requires BasesWell(s)
  {
    && EnvOk(env, s) && NoUses(body) && x != USES && index != USES
    && VarsOk(body, NamesAt(env, s) + ForNames(x, index))
    && CallsOk(k, body, BaseUses(s.bases[env.base.value]))
  }

  lemma BodyLater(k: Config, env: Env, x: string, index: string, body: Expr, s: State, s': State)
    requires BasesWell(s) && BasesWell(s') && BodyOk(k, env, x, index, body, s) && Extends(s, s')
    ensures BodyOk(k, env, x, index, body, s')
  {
    var b := env.base.value;
    assert FrameExtends(s.bases[b], s'.bases[b]);
    MoreNames(body, NamesAt(env, s) + ForNames(x, index), NamesAt(env, s') + ForNames(x, index));
    MoreUses(k, body, BaseUses(s.bases[b]), BaseUses(s'.bases[b]));
  }

  lemma {:induction false} RoundsSound(k: Config, fuel: nat, env: Env, depth: nat, x: string, index: string, body: Expr,
                                       items: seq<Value>, i: nat, s: State)
    requires GoodTable(k) && StateOk(k, s) && BodyOk(k, env, x, index, body, s) && i <= |items|
    ensures StaysSound(k, EvalFor(k, fuel, env, depth, x, index, body, items, i, s))
    decreases fuel, 0, body, 3, |items| - i
  {
    if i < |items| && !TooDeep(k, depth) {
      var vars := ForFrame(x, index, items[i], i);
      var env' := Env([vars] + env.frames, env.base);
      assert env'.frames[1..] == env.frames && vars.Keys == ForNames(x, index);
      assert NamesAt(env', s) == NamesAt(env, s) + ForNames(x, index);
      EvalSound(k, fuel, env', depth, body, s);
      var s' := Eval(k, fuel, env', depth, body, s).st;
      GrowsExtends(s, s');
      BodyLater(k, env, x, index, body, s, s');
      RoundsSound(k, fuel, env, depth, x, index, body, items, i + 1, s');
    }
  }

  // ----- calls -----

  /** What the compiler resolved, the executor finds, if perhaps under another name. */
  lemma {:induction false} ResolveFinds(k: Config, us: seq<Value>, name: string)
    requires AllStr(us) && CallOk(k, name, Strs(us))
    ensures !Resolve(k, us, name).NoTarget?
  {
    if !Knows(k, name) {
      var i :| 0 <= i < |Strs(us)| && KnownVia(k, Strs(us)[i], name);
      FindViaFinds(k, us, name, i);
    }
  }

  lemma {:induction false} FindViaFinds(k: Config, us: seq<Value>, name: string, i: nat)
    requires AllStr(us) && i < |us| && KnownVia(k, us[i].s, name)
    ensures !FindVia(k, us, name).NoTarget?
    decreases us
  {
    if i == 0 {
      var q := Qualified(us[0].s, name);
      assert ToStr(k, us[0]) == us[0].s;
      assert q[1..][0] == q[1];
      assert FindAny(k, q) == if Find(k, q[0], false).NoTarget? then FindAny(k, q[1..]) else Find(k, q[0], false);
      assert FindAny(k, q[1..]) == if Find(k, q[1], false).NoTarget? then FindAny(k, q[1..][1..]) else Find(k, q[1], false);
    } else {
      FindViaFinds(k, us[1..], name, i - 1);
    }
  }

  lemma {:induction false} CallSound(k: Config, fuel: nat, env: Env, depth: nat, name: string, args: seq<Value>, s: State)
    requires GoodTable(k) && StateOk(k, s) && EnvOk(env, s)
    requires CallOk(k, name, BaseUses(s.bases[env.base.value]))
    ensures StaysSound(k, CallFn(k, fuel, env, depth, name, args, s))
    decreases fuel, 3
  {
    LookupInFrames(env.frames, USES);
    var us := UsesOf(Lookup(env, s, USES));
    assert UsesWell(s.bases[env.base.value]);
    assert Strs(us) == BaseUses(s.bases[env.base.value]);
    ResolveFinds(k, us, name);
    ResolvedFrom(k, us, name);
    var t := Resolve(k, us, name);
    if IsDebugName(name) {
      StateLater(k, s, CallFn(k, fuel, env, depth, name, args, s).st);
    } else if t.UserTarget? {
      UserSound(k, fuel, depth, t.f, args, s);
    } else if t.b.kind.HigherOrder? {
      HofSound(k, fuel, t.b.kind.hof, args, s);
    }
  }

  lemma {:induction false} HofSound(k: Config, fuel: nat, h: Hof, args: seq<Value>, s: State)
    requires GoodTable(k) && StateOk(k, s)
    ensures StaysSound(k, CallHof(k, fuel, h, args, s))
    decreases fuel, 2, 1
  {
    if |args| >= HofArity(h) && args[0].Arr? {
      LoopSound(k, fuel, h, args[HofArity(h) - 1], args[0].elems, HofInit(h, args), s);
    }
  }

  lemma {:induction false} LoopSound(k: Config, fuel: nat, h: Hof, f: Value, items: seq<Value>, acc: Value, s: State)
    requires GoodTable(k) && StateOk(k, s)
    ensures StaysSound(k, HofLoop(k, fuel, h, f, items, acc, s))
    decreases fuel, 2, 0, |items|
  {
    if items != [] {
      ApplySound(k, fuel, f, HofArgs(h, acc, items[0]), s);
      var a := Apply(k, fuel, f, HofArgs(h, acc, items[0]), s);
      if a.out.Val? {
        LoopSound(k, fuel, h, f, items[1..], HofStep(h, acc, items[0], a.out.v), a.st);
      }
    }
  }

  lemma {:induction false} ApplySound(k: Config, fuel: nat, f: Value, args: seq<Value>, s: State)
    requires GoodTable(k) && StateOk(k, s)
    ensures StaysSound(k, Apply(k, fuel, f, args, s))
    decreases fuel, 1
  {
    if f.Clo? && f.id < |s.clos| {
      var c := s.clos[f.id];
      var s1 := s.(unbound := s.unbound + Missing(c.params, |args|));
      StateLater(k, s, s1);
      LambdaLater(k, c, s, s1);
      BodyInScope(k, c, args, s1);
      EvalSound(k, fuel, CallEnv(c, args), c.depth + 1, c.body, s1);
    }
  }

  lemma BodyInScope(k: Config, c: Closure, args: seq<Value>, s: State)
    requires BasesWell(s) && LambdaOk(k, c, s) && Missing(c.params, |args|) <= s.unbound
    ensures Ok(k, CallEnv(c, args), c.body, s)
  {
    var env := CallEnv(c, args);
    assert env.frames[1..] == c.env.frames;
    assert Bind(c.params, args).Keys <= Names(c.params);
    forall x | x in Names(c.params) ensures x in Bind(c.params, args).Keys || x in Missing(c.params, |args|) {
      var i :| 0 <= i < |c.params| && c.params[i] == x;
    }
    MoreNames(c.body, NamesAt(c.env, s) + Names(c.params), NamesAt(env, s));
  }

  lemma {:induction false} UserSound(k: Config, fuel: nat, depth: nat, f: FnDef, args: seq<Value>, s: State)
    requires GoodTable(k) && StateOk(k, s) && GoodFn(k, f)
    ensures StaysSound(k, CallUser(k, fuel, depth, f, args, s))
    decreases fuel, 2, 0, 0
  {
    var b := |s.bases|;
    var s1 := s.(bases := s.bases + [map[]]);
    StateLater(k, s, s1);
    if !TooDeep(k, depth + 1) {
      BindSound(k, fuel, b, depth + 1, f.params, args, s1);
      var p := BindParams(k, fuel, b, depth + 1, f.params, args, s1);
      if p.out.Val? {
        BodySound(k, fuel, b, depth + 1, f.body, Null, ParamNames(f.params), [], p.st);
      }
    }
  }

  lemma SetOk(k: Config, s: State, b: nat, x: string, v: Value)
    requires StateOk(k, s) && b < |s.bases| && x != USES
    ensures StateOk(k, SetBase(s, b, x, v))
    ensures BaseUses(SetBase(s, b, x, v).bases[b]) == BaseUses(s.bases[b])
  {
    var s' := SetBase(s, b, x, v);
    assert UsesWell(s.bases[b]);
    StateLater(k, s, s');
  }

  lemma {:induction false} BindSound(k: Config, fuel: nat, b: nat, depth: nat, params: seq<Param>, args: seq<Value>, s: State)
    requires StateOk(k, s) && b < |s.bases|
    requires PlainParams(params)
    ensures var r := BindParams(k, fuel, b, depth, params, args, s);
      && StaysSound(k, r) && BaseUses(r.st.bases[b]) == BaseUses(s.bases[b])
      && s.bases[b].Keys <= r.st.bases[b].Keys
      && (r.out.Val? ==> forall i :: 0 <= i < |params| ==> params[i].name in r.st.bases[b] || params[i].name in r.st.unbound)
    decreases params
  {
    if params != [] {
      var p := params[0];
      if args != [] {
        SetOk(k, s, b, p.name, args[0]);
        BindSound(k, fuel, b, depth, params[1..], args[1..], SetBase(s, b, p.name, args[0]));
      } else if p.default.Some? {
        if !TooDeep(k, depth) {
          var v := LitValue(p.default.value.lit);
          assert Eval(k, fuel, Env([], Some(b)), depth, p.default.value, s) == Res(Val(v), s);
          SetOk(k, s, b, p.name, v);
          BindSound(k, fuel, b, depth, params[1..], [], SetBase(s, b, p.name, v));
        }
      } else {
        var s1 := s.(unbound := s.unbound + {p.name});
        StateLater(k, s, s1);
        BindSound(k, fuel, b, depth, params[1..], [], s1);
      }
      assert forall i :: 0 < i < |params| ==> params[i] == params[1..][i - 1];
    }
  }

  /** A clean body runs soundly, statement by statement, its scope tracking the compiler's. */
  lemma {:induction false} BodySound(k: Config, fuel: nat, b: nat, depth: nat, stmts: seq<Stmt>, result: Value,
                                     vars: set<string>, uses: seq<string>, s: State)
    requires GoodTable(k) && StateOk(k, s) && b < |s.bases|
    requires BodyErrors(k, stmts, vars, uses) == [] && forall i :: 0 <= i < |stmts| ==> NoUsesStmt(stmts[i])
    requires vars <= s.bases[b].Keys + s.unbound && BaseUses(s.bases[b]) == uses
    ensures StaysSound(k, ExecBody(k, fuel, b, depth, stmts, result, s))
    decreases fuel, 1, stmts, 1
  {
    if stmts != [] {
      var stmt := stmts[0];
      if stmt.Use? {
        UseSound(k, fuel, b, depth, stmt, s);
      } else {
        NoErrors(k, stmt.value, vars, uses);
        StmtSound(k, fuel, b, depth, stmt, vars, uses, s);
      }
      var a := ExecStmt(k, fuel, b, depth, stmt, s);
      if a.out.Val? {
        var vars' := if stmt.Let? then vars + {stmt.name} else vars;
        var uses' := if stmt.Use? then uses + [stmt.ns] else uses;
        BodySound(k, fuel, b, depth, stmts[1..], a.out.v, vars', uses', a.st);
      }
    }
  }

  lemma {:induction false} StmtSound(k: Config, fuel: nat, b: nat, depth: nat, stmt: Stmt,
                                     vars: set<string>, uses: seq<string>, s: State)
    requires GoodTable(k) && StateOk(k, s) && b < |s.bases| && !stmt.Use? && NoUsesStmt(stmt)
    requires VarsOk(stmt.value, vars) && CallsOk(k, stmt.value, uses)
    requires vars <= s.bases[b].Keys + s.unbound && BaseUses(s.bases[b]) == uses
    ensures var a := ExecStmt(k, fuel, b, depth, stmt, s);
      && StaysSound(k, a) && BaseUses(a.st.bases[b]) == uses
      && vars <= a.st.bases[b].Keys + a.st.unbound
      && (stmt.Let? && a.out.Val? ==> stmt.name in a.st.bases[b])
    decreases fuel, 1, stmt, 0
  {
    var env := Env([], Some(b));
    MoreNames(stmt.value, vars, NamesAt(env, s));
    EvalSound(k, fuel, env, depth, stmt.value, s);
    var a := Eval(k, fuel, env, depth, stmt.value, s);
    if stmt.Let? && a.out.Val? {
      SetOk(k, a.st, b, stmt.name, a.out.v);
    }
  }

  lemma UseSound(k: Config, fuel: nat, b: nat, depth: nat, stmt: Stmt, s: State)
    requires StateOk(k, s) && b < |s.bases| && stmt.Use?
    ensures var a := ExecStmt(k, fuel, b, depth, stmt, s);
      && StaysSound(k, a) && s.bases[b].Keys <= a.st.bases[b].Keys && a.st.unbound == s.unbound
      && (a.out.Val? ==> BaseUses(a.st.bases[b]) == BaseUses(s.bases[b]) + [stmt.ns])
  {
    if !TooDeep(k, depth) {
      assert UsesWell(s.bases[b]);
      var us := UsesOf(Lookup(Env([], Some(b)), s, USES));
      assert Strs(us) == BaseUses(s.bases[b]);
      var us' := us + [Str(stmt.ns)];
      assert AllStr(us') && Strs(us') == Strs(us) + [stmt.ns];
      var s' := SetBase(s, b, USES, Arr(us'));
      StateLater(k, s, s');
    }
  }

  /** Scope and call soundness: whatever a clean function over a clean table is called
      with, its run never ends in a call that is not defined, and ends in an undefined
      variable only for a `$` name or for a parameter that some call left out. */
  lemma {:induction false} CleanRunsFindTheirNames(k: Config, fuel: nat, f: FnDef, args: Frame)
    requires GoodTable(k) && GoodFn(k, f)
    ensures Sound(Execute(k, fuel, f, args))
  {
    var s := State([map[]], [], [], {});
    NamedSound(k, fuel, 0, f.params, args, s);
    var p := BindNamed(k, fuel, 0, f.params, args, s);
    if p.out.Val? {
      BodySound(k, fuel, 0, 0, f.body, Null, ParamNames(f.params), [], p.st);
    }
  }

  lemma {:induction false} NamedSound(k: Config, fuel: nat, b: nat, params: seq<Param>, args: Frame, s: State)
    requires StateOk(k, s) && b < |s.bases|
    requires PlainParams(params)
    ensures var r := BindNamed(k, fuel, b, params, args, s);
      && StaysSound(k, r) && BaseUses(r.st.bases[b]) == BaseUses(s.bases[b])
      && s.bases[b].Keys <= r.st.bases[b].Keys
      && (r.out.Val? ==> forall i :: 0 <= i < |params| ==> params[i].name in r.st.bases[b])
    decreases params
  {
    if params != [] {
      var p := params[0];
      if p.name !in args && p.default.Some? {
        if !TooDeep(k, 0) {
          var v := LitValue(p.default.value.lit);
          assert Eval(k, fuel, Env([], Some(b)), 0, p.default.value, s) == Res(Val(v), s);
          SetOk(k, s, b, p.name, v);
          NamedSound(k, fuel, b, params[1..], args, SetBase(s, b, p.name, v));
        }
      } else {
        var v := if p.name in args then args[p.name] else Null;
        SetOk(k, s, b, p.name, v);
        NamedSound(k, fuel, b, params[1..], args, SetBase(s, b, p.name, v));
      }
      assert forall i :: 0 < i < |params| ==> params[i] == params[1..][i - 1];
    }
  }
}
