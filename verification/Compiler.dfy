/** The compiler's walk over a function: which names are in scope, which calls resolve. */
module Compiler {
  import opened Wrappers
  import opened Syntax

  datatype CompileError =
    | UndefinedVar(name: string)
    | DuplicateVar(name: string)
    | UnknownFn(fn: string)
    | Deprecated(fn: string)

  /** Flat spellings that were replaced by namespaced ones and are always rejected. */
  const LEGACY: set<string> := {
    "query_count", "schema_get", "schema_columns", "schema_validate", "http_get",
    "http_post", "pipeline_run", "viz_transform", "agent_call"}

  /** What the registry answers: builtins and compiled functions. */
  predicate Knows(k: Config, name: string) {
    name in k.builtins || name in k.fns
  }

  predicate Dollar(x: string) {
    |x| > 0 && x[0] == '$'
  }

  predicate KnownVia(k: Config, ns: string, name: string) {
    Knows(k, "app:" + ns + "::" + name) || Knows(k, ns + "::" + name)
  }

  predicate CallOk(k: Config, name: string, uses: seq<string>) {
    Knows(k, name) || exists i :: 0 <= i < |uses| && KnownVia(k, uses[i], name)
  }

  function CallErrors(k: Config, name: string, uses: seq<string>): seq<CompileError> {
    if name in LEGACY then [Deprecated(name)]
    else if CallOk(k, name, uses) then []
    else [UnknownFn(name)]
  }

  /** The first qualified form that the namespaces give the name and the registry knows. */
  function FirstVia(k: Config, name: string, uses: seq<string>): (r: Option<string>)
    ensures r.Some? <==> exists i :: 0 <= i < |uses| && KnownVia(k, uses[i], name)
    ensures r.Some? ==> Knows(k, r.value) && exists i :: 0 <= i < |uses| && r.value in Qualified(uses[i], name)
  {
    if uses == [] then None
    else
      var app, plain := "app:" + uses[0] + "::" + name, uses[0] + "::" + name;
      assert app in Qualified(uses[0], name) && plain in Qualified(uses[0], name);
      if Knows(k, app) then Some(app)
      else if Knows(k, plain) then Some(plain)
      else
        assert forall i :: 0 < i < |uses| ==> uses[i] == uses[1..][i - 1];
        FirstVia(k, name, uses[1..])
  }

  /** The dependency a call is recorded under: the key that answered it, or the bare name. */
  function Dep(k: Config, name: string, uses: seq<string>): string {
    if name in LEGACY || Knows(k, name) then name
    else
      var via := FirstVia(k, name, uses);
      if via.Some? then via.value else name
  }

  function Names(xs: seq<string>): (r: set<string>)
    ensures forall x :: x in r <==> x in xs
  {
    set x | x in xs
  }

  function ForNames(variable: string, index: string): set<string> {
    if index != "" then {variable, index} else {variable}
  }

  // ----- the errors of a function -----

  function Errors(k: Config, e: Expr, scope: set<string>, uses: seq<string>): seq<CompileError>
    decreases e
  {
    match e
    case Lit(_) => []
    case Ident(x) => if Dollar(x) || x in scope then [] else [UndefinedVar(x)]
    case Strict(_, es) => ListErrors(k, es, scope, uses)
    case ArrayLit(es) => ListErrors(k, es, scope, uses)
    case And(l, r) => Errors(k, l, scope, uses) + Errors(k, r, scope, uses)
    case Or(l, r) => Errors(k, l, scope, uses) + Errors(k, r, scope, uses)
    case If(c, t, f) =>
      Errors(k, c, scope, uses) + Errors(k, t, scope, uses)
      + if f.Some? then Errors(k, f.value, scope, uses) else []
    case Coalesce(l, r) => Errors(k, l, scope, uses) + Errors(k, r, scope, uses)
    case Try(b, d) => Errors(k, b, scope, uses) + if d.Some? then Errors(k, d.value, scope, uses) else []
    case For(x, i, it, b) => Errors(k, it, scope, uses) + Errors(k, b, scope + ForNames(x, i), uses)
    case Raise(m) => Errors(k, m, scope, uses)
    case Lambda(ps, b) => Errors(k, b, scope + Names(ps), uses)
    case Call(name, es) => CallErrors(k, name, uses) + ListErrors(k, es, scope, uses)
  }

  function ListErrors(k: Config, es: seq<Expr>, scope: set<string>, uses: seq<string>): seq<CompileError>
    decreases es
  {
    if es == [] then [] else Errors(k, es[0], scope, uses) + ListErrors(k, es[1..], scope, uses)
  }

  function BodyErrors(k: Config, stmts: seq<Stmt>, vars: set<string>, uses: seq<string>): seq<CompileError> {
    if stmts == [] then []
    else
      match stmts[0]
      case Let(x, e) =>
        Errors(k, e, vars, uses) + (if x in vars then [DuplicateVar(x)] else [])
        + BodyErrors(k, stmts[1..], vars + {x}, uses)
      case Return(e) => Errors(k, e, vars, uses) + BodyErrors(k, stmts[1..], vars, uses)
      case ExprStmt(e) => Errors(k, e, vars, uses) + BodyErrors(k, stmts[1..], vars, uses)
      case Use(ns) => BodyErrors(k, stmts[1..], vars, uses + [ns])
  }

  function StmtErrors(k: Config, st: Stmt, vars: set<string>, uses: seq<string>): seq<CompileError> {
    match st
    case Let(x, e) => Errors(k, e, vars, uses) + if x in vars then [DuplicateVar(x)] else []
    case Return(e) => Errors(k, e, vars, uses)
    case ExprStmt(e) => Errors(k, e, vars, uses)
    case Use(_) => []
  }

  // ----- the dependencies of a function -----

  function Deps(k: Config, e: Expr, uses: seq<string>): set<string>
    decreases e
  {
    match e
    case Lit(_) => {}
    case Ident(_) => {}
    case Strict(_, es) => ListDeps(k, es, uses)
    case ArrayLit(es) => ListDeps(k, es, uses)
    case And(l, r) => Deps(k, l, uses) + Deps(k, r, uses)
    case Or(l, r) => Deps(k, l, uses) + Deps(k, r, uses)
    case If(c, t, f) =>
      Deps(k, c, uses) + Deps(k, t, uses) + if f.Some? then Deps(k, f.value, uses) else {}
    case Coalesce(l, r) => Deps(k, l, uses) + Deps(k, r, uses)
    case Try(b, d) => Deps(k, b, uses) + if d.Some? then Deps(k, d.value, uses) else {}
    case For(_, _, it, b) => Deps(k, it, uses) + Deps(k, b, uses)
    case Raise(m) => Deps(k, m, uses)
    case Lambda(_, b) => Deps(k, b, uses)
    case Call(name, es) => {Dep(k, name, uses)} + ListDeps(k, es, uses)
  }

  function ListDeps(k: Config, es: seq<Expr>, uses: seq<string>): set<string>
    decreases es
  {
    if es == [] then {} else Deps(k, es[0], uses) + ListDeps(k, es[1..], uses)
  }

  function StmtDeps(k: Config, st: Stmt, uses: seq<string>): set<string> {
    if st.Use? then {} else Deps(k, st.value, uses)
  }

  function BodyDeps(k: Config, stmts: seq<Stmt>, uses: seq<string>): set<string> {
    if stmts == [] then {}
    else StmtDeps(k, stmts[0], uses) + BodyDeps(k, stmts[1..], UsesAfter(stmts[0], uses))
  }

  function VarsAfter(st: Stmt, vars: set<string>): set<string> {
    if st.Let? then vars + {st.name} else vars
  }

  function UsesAfter(st: Stmt, uses: seq<string>): seq<string> {
    if st.Use? then uses + [st.ns] else uses
  }

  lemma BodyStep(k: Config, stmts: seq<Stmt>, vars: set<string>, uses: seq<string>)
    requires stmts != []
    ensures BodyErrors(k, stmts, vars, uses) ==
      StmtErrors(k, stmts[0], vars, uses) + BodyErrors(k, stmts[1..], VarsAfter(stmts[0], vars), UsesAfter(stmts[0], uses))
  {
    hide Errors;
  }

  lemma BodyDepsStep(k: Config, stmts: seq<Stmt>, uses: seq<string>)
    requires stmts != []
    ensures BodyDeps(k, stmts, uses) == StmtDeps(k, stmts[0], uses) + BodyDeps(k, stmts[1..], UsesAfter(stmts[0], uses))
  {
    hide Deps;
  }

  function ParamNames(params: seq<Param>): (r: set<string>)
    ensures forall x :: x in r <==> exists i :: 0 <= i < |params| && params[i].name == x
  {
    set i | 0 <= i < |params| :: params[i].name
  }

  /** The function compiles. */
  predicate Clean(k: Config, f: FnDef) {
    BodyErrors(k, f.body, ParamNames(f.params), []) == []
  }

  // ----- the two questions a clean compile answers -----

  predicate VarsOk(e: Expr, scope: set<string>)
    decreases e
  {
    match e
    case Lit(_) => true
    case Ident(x) => Dollar(x) || x in scope
    case Strict(_, es) => forall i :: 0 <= i < |es| ==> VarsOk(es[i], scope)
    case ArrayLit(es) => forall i :: 0 <= i < |es| ==> VarsOk(es[i], scope)
    case And(l, r) => VarsOk(l, scope) && VarsOk(r, scope)
    case Or(l, r) => VarsOk(l, scope) && VarsOk(r, scope)
    case If(c, t, f) => VarsOk(c, scope) && VarsOk(t, scope) && (f.Some? ==> VarsOk(f.value, scope))
    case Coalesce(l, r) => VarsOk(l, scope) && VarsOk(r, scope)
    case Try(b, d) => VarsOk(b, scope) && (d.Some? ==> VarsOk(d.value, scope))
    case For(x, i, it, b) => VarsOk(it, scope) && VarsOk(b, scope + ForNames(x, i))
    case Raise(m) => VarsOk(m, scope)
    case Lambda(ps, b) => VarsOk(b, scope + Names(ps))
    case Call(_, es) => forall i :: 0 <= i < |es| ==> VarsOk(es[i], scope)
  }

  predicate CallsOk(k: Config, e: Expr, uses: seq<string>)
    decreases e
  {
    match e
    case Lit(_) => true
    case Ident(_) => true
    case Strict(_, es) => forall i :: 0 <= i < |es| ==> CallsOk(k, es[i], uses)
    case ArrayLit(es) => forall i :: 0 <= i < |es| ==> CallsOk(k, es[i], uses)
    case And(l, r) => CallsOk(k, l, uses) && CallsOk(k, r, uses)
    case Or(l, r) => CallsOk(k, l, uses) && CallsOk(k, r, uses)
    case If(c, t, f) => CallsOk(k, c, uses) && CallsOk(k, t, uses) && (f.Some? ==> CallsOk(k, f.value, uses))
    case Coalesce(l, r) => CallsOk(k, l, uses) && CallsOk(k, r, uses)
    case Try(b, d) => CallsOk(k, b, uses) && (d.Some? ==> CallsOk(k, d.value, uses))
    case For(_, _, it, b) => CallsOk(k, it, uses) && CallsOk(k, b, uses)
    case Raise(m) => CallsOk(k, m, uses)
    case Lambda(_, b) => CallsOk(k, b, uses)
    case Call(name, es) =>
      name !in LEGACY && CallOk(k, name, uses) && forall i :: 0 <= i < |es| ==> CallsOk(k, es[i], uses)
  }

  lemma {:induction false} NoErrors(k: Config, e: Expr, scope: set<string>, uses: seq<string>)
    ensures Errors(k, e, scope, uses) == [] <==> VarsOk(e, scope) && CallsOk(k, e, uses)
    decreases e
  {
    match e {
      case Lit(_) =>
      case Ident(_) =>
      case Strict(_, es) => NoListErrors(k, es, scope, uses);
      case ArrayLit(es) => NoListErrors(k, es, scope, uses);
      case And(l, r) => NoErrors(k, l, scope, uses); NoErrors(k, r, scope, uses);
      case Or(l, r) => NoErrors(k, l, scope, uses); NoErrors(k, r, scope, uses);
      case If(c, t, f) =>
        NoErrors(k, c, scope, uses);
        NoErrors(k, t, scope, uses);
        if f.Some? {
          NoErrors(k, f.value, scope, uses);
        }
      case Coalesce(l, r) => NoErrors(k, l, scope, uses); NoErrors(k, r, scope, uses);
      case Try(b, d) =>
        NoErrors(k, b, scope, uses);
        if d.Some? {
          NoErrors(k, d.value, scope, uses);
        }
      case For(x, i, it, b) =>
        NoErrors(k, it, scope, uses);
        NoErrors(k, b, scope + ForNames(x, i), uses);
      case Raise(m) => NoErrors(k, m, scope, uses);
      case Lambda(ps, b) => NoErrors(k, b, scope + Names(ps), uses);
      case Call(_, es) => NoListErrors(k, es, scope, uses);
    }
  }

  lemma {:induction false} NoListErrors(k: Config, es: seq<Expr>, scope: set<string>, uses: seq<string>)
    ensures ListErrors(k, es, scope, uses) == [] <==>
      forall i :: 0 <= i < |es| ==> VarsOk(es[i], scope) && CallsOk(k, es[i], uses)
    decreases es
  {
    if es != [] {
      NoErrors(k, es[0], scope, uses);
      NoListErrors(k, es[1..], scope, uses);
      assert forall i :: 0 < i < |es| ==> es[i] == es[1..][i - 1];
    }
  }

  lemma {:induction false} MoreNames(e: Expr, scope: set<string>, scope': set<string>)
    requires VarsOk(e, scope) && scope <= scope'
    ensures VarsOk(e, scope')
    decreases e
  {
    match e {
      case Lit(_) =>
      case Ident(_) =>
      case Strict(_, es) => forall i | 0 <= i < |es| { MoreNames(es[i], scope, scope'); }
      case ArrayLit(es) => forall i | 0 <= i < |es| { MoreNames(es[i], scope, scope'); }
      case And(l, r) => MoreNames(l, scope, scope'); MoreNames(r, scope, scope');
      case Or(l, r) => MoreNames(l, scope, scope'); MoreNames(r, scope, scope');
      case If(c, t, f) =>
        MoreNames(c, scope, scope');
        MoreNames(t, scope, scope');
        if f.Some? {
          MoreNames(f.value, scope, scope');
        }
      case Coalesce(l, r) => MoreNames(l, scope, scope'); MoreNames(r, scope, scope');
      case Try(b, d) =>
        MoreNames(b, scope, scope');
        if d.Some? {
          MoreNames(d.value, scope, scope');
        }
      case For(x, i, it, b) =>
        MoreNames(it, scope, scope');
        MoreNames(b, scope + ForNames(x, i), scope' + ForNames(x, i));
      case Raise(m) => MoreNames(m, scope, scope');
      case Lambda(ps, b) => MoreNames(b, scope + Names(ps), scope' + Names(ps));
      case Call(_, es) => forall i | 0 <= i < |es| { MoreNames(es[i], scope, scope'); }
    }
  }

  lemma {:induction false} MoreUses(k: Config, e: Expr, uses: seq<string>, uses': seq<string>)
    requires CallsOk(k, e, uses) && uses <= uses'
    ensures CallsOk(k, e, uses')
    decreases e
  {
    match e {
      case Lit(_) =>
      case Ident(_) =>
      case Strict(_, es) => forall i | 0 <= i < |es| { MoreUses(k, es[i], uses, uses'); }
      case ArrayLit(es) => forall i | 0 <= i < |es| { MoreUses(k, es[i], uses, uses'); }
      case And(l, r) => MoreUses(k, l, uses, uses'); MoreUses(k, r, uses, uses');
      case Or(l, r) => MoreUses(k, l, uses, uses'); MoreUses(k, r, uses, uses');
      case If(c, t, f) =>
        MoreUses(k, c, uses, uses');
        MoreUses(k, t, uses, uses');
        if f.Some? {
          MoreUses(k, f.value, uses, uses');
        }
      case Coalesce(l, r) => MoreUses(k, l, uses, uses'); MoreUses(k, r, uses, uses');
      case Try(b, d) =>
        MoreUses(k, b, uses, uses');
        if d.Some? {
          MoreUses(k, d.value, uses, uses');
        }
      case For(_, _, it, b) => MoreUses(k, it, uses, uses'); MoreUses(k, b, uses, uses');
      case Raise(m) => MoreUses(k, m, uses, uses');
      case Lambda(_, b) => MoreUses(k, b, uses, uses');
      case Call(name, es) =>
        if !Knows(k, name) {
          var j :| 0 <= j < |uses| && KnownVia(k, uses[j], name);
          assert uses'[j] == uses[j];
        }
        forall i | 0 <= i < |es| { MoreUses(k, es[i], uses, uses'); }
    }
  }

  // ----- what dependencies are for -----

  ghost predicate AllKnown(k: Config, names: set<string>) {
    forall d :: d in names ==> Knows(k, d)
  }

  /** An accepted expression's dependencies are known, and accepted wherever they are. */
  lemma {:induction false} DepsDecide(k: Config, k': Config, e: Expr, uses: seq<string>)
    requires CallsOk(k, e, uses)
    ensures AllKnown(k, Deps(k, e, uses))
    ensures AllKnown(k', Deps(k, e, uses)) ==> CallsOk(k', e, uses)
    decreases e
  {
    match e {
      case Lit(_) =>
      case Ident(_) =>
      case Strict(_, es) => ListDepsDecide(k, k', es, uses);
      case ArrayLit(es) => ListDepsDecide(k, k', es, uses);
      case And(l, r) => DepsDecide(k, k', l, uses); DepsDecide(k, k', r, uses);
      case Or(l, r) => DepsDecide(k, k', l, uses); DepsDecide(k, k', r, uses);
      case If(c, t, f) =>
        DepsDecide(k, k', c, uses);
        DepsDecide(k, k', t, uses);
        if f.Some? {
          DepsDecide(k, k', f.value, uses);
        }
      case Coalesce(l, r) => DepsDecide(k, k', l, uses); DepsDecide(k, k', r, uses);
      case Try(b, d) =>
        DepsDecide(k, k', b, uses);
        if d.Some? {
          DepsDecide(k, k', d.value, uses);
        }
      case For(_, _, it, b) => DepsDecide(k, k', it, uses); DepsDecide(k, k', b, uses);
      case Raise(m) => DepsDecide(k, k', m, uses);
      case Lambda(_, b) => DepsDecide(k, k', b, uses);
      case Call(name, es) =>
        ListDepsDecide(k, k', es, uses);
        DepDecides(k, k', name, uses);
    }
  }

  lemma DepDecides(k: Config, k': Config, name: string, uses: seq<string>)
    requires name !in LEGACY && CallOk(k, name, uses)
    ensures Knows(k, Dep(k, name, uses))
    ensures Knows(k', Dep(k, name, uses)) ==> CallOk(k', name, uses)
  {
    if !Knows(k, name) && Knows(k', Dep(k, name, uses)) {
      var i :| 0 <= i < |uses| && FirstVia(k, name, uses).value in Qualified(uses[i], name);
      assert KnownVia(k', uses[i], name);
    }
  }

  lemma {:induction false} ListDepsDecide(k: Config, k': Config, es: seq<Expr>, uses: seq<string>)
    requires forall i :: 0 <= i < |es| ==> CallsOk(k, es[i], uses)
    ensures AllKnown(k, ListDeps(k, es, uses))
    ensures AllKnown(k', ListDeps(k, es, uses)) ==> forall i :: 0 <= i < |es| ==> CallsOk(k', es[i], uses)
    decreases es
  {
    if es != [] {
      DepsDecide(k, k', es[0], uses);
      ListDepsDecide(k, k', es[1..], uses);
      assert forall i :: 0 < i < |es| ==> es[i] == es[1..][i - 1];
    }
  }

  /** The dependencies recorded for a function that compiles are all known, and they are all
      it needs: it compiles in every registry that knows them. */
  lemma {:induction false} DependenciesDecide(k: Config, k': Config, stmts: seq<Stmt>, vars: set<string>, uses: seq<string>)
    requires BodyErrors(k, stmts, vars, uses) == []
    ensures AllKnown(k, BodyDeps(k, stmts, uses))
    ensures AllKnown(k', BodyDeps(k, stmts, uses)) ==> BodyErrors(k', stmts, vars, uses) == []
    decreases stmts
  {
    hide Errors, Deps;
    if stmts != [] {
      BodyStep(k, stmts, vars, uses);
      BodyStep(k', stmts, vars, uses);
      DependenciesDecide(k, k', stmts[1..], VarsAfter(stmts[0], vars), UsesAfter(stmts[0], uses));
      if !stmts[0].Use? {
        NoErrors(k, stmts[0].value, vars, uses);
        NoErrors(k', stmts[0].value, vars, uses);
        DepsDecide(k, k', stmts[0].value, uses);
      }
    }
  }

  // ----- the walk itself -----

  function Union(scopes: seq<set<string>>): set<string> {
    if scopes == [] then {} else scopes[0] + Union(scopes[1..])
  }

  /** Collects errors while walking; scopes are chained innermost first. */
  class Checker {
    const k: Config
    var errors: seq<CompileError>
    /** Without the repetitions that the compiler drops at the end. */
    var deps: set<string>

    constructor (k: Config)
      ensures this.k == k && errors == [] && deps == {}
    {
      this.k := k;
      errors, deps := [], {};
    }

    method IsDefined(scopes: seq<set<string>>, x: string) returns (b: bool)
      ensures b <==> x in Union(scopes)
    {
      var i := 0;
      assert scopes[0..] == scopes;
      while i < |scopes|
        invariant 0 <= i <= |scopes|
        invariant x in Union(scopes) <==> x in Union(scopes[i..])
      {
        assert scopes[i..][0] == scopes[i] && scopes[i..][1..] == scopes[i + 1..];
        if x in scopes[i] {
          return true;
        }
        i := i + 1;
      }
      b := false;
    }

    method ResolveFn(name: string, uses: seq<string>)
      modifies this
      ensures errors == old(errors) + CallErrors(k, name, uses)
      ensures deps == old(deps) + {Dep(k, name, uses)}
    {
      if name in LEGACY {
        errors := errors + [Deprecated(name)];
        deps := deps + {name};
        return;
      }
      if Knows(k, name) {
        deps := deps + {name};
        return;
      }
      var i := 0;
      assert uses[0..] == uses;
      while i < |uses|
        invariant 0 <= i <= |uses| && errors == old(errors) && deps == old(deps)
        invariant FirstVia(k, name, uses) == FirstVia(k, name, uses[i..])
      {
        assert uses[i..][0] == uses[i] && uses[i..][1..] == uses[i + 1..];
        var app, plain := "app:" + uses[i] + "::" + name, uses[i] + "::" + name;
        if Knows(k, app) {
          deps := deps + {app};
          return;
        }
        if Knows(k, plain) {
          deps := deps + {plain};
          return;
        }
        i := i + 1;
      }
      errors := errors + [UnknownFn(name)];
      deps := deps + {name};
    }

    method CheckExpr(e: Expr, scopes: seq<set<string>>, uses: seq<string>)
      modifies this
      ensures errors == old(errors) + Errors(k, e, Union(scopes), uses)
      ensures deps == old(deps) + Deps(k, e, uses)
      decreases e, 1
    {
      match e {
        case Lit(_) =>
        case Ident(x) =>
          if Dollar(x) {
            return;
          }
          var defined := IsDefined(scopes, x);
          if !defined {
            errors := errors + [UndefinedVar(x)];
          }
        case Strict(_, es) => CheckList(es, scopes, uses);
        case ArrayLit(es) => CheckList(es, scopes, uses);
        case And(_, _) => CheckOperands(e, scopes, uses);
        case Or(_, _) => CheckOperands(e, scopes, uses);
        case If(_, _, _) => CheckConditional(e, scopes, uses);
        case Coalesce(_, _) => CheckOperands(e, scopes, uses);
        case Try(_, _) => CheckConditional(e, scopes, uses);
        case For(x, i, it, b) =>
          CheckExpr(it, scopes, uses);
          ChildScope(scopes, ForNames(x, i));
          CheckExpr(b, [ForNames(x, i)] + scopes, uses);
        case Raise(m) => CheckExpr(m, scopes, uses);
        case Lambda(ps, b) =>
          ChildScope(scopes, Names(ps));
          CheckExpr(b, [Names(ps)] + scopes, uses);
        case Call(name, es) =>
          ResolveFn(name, uses);
          CheckList(es, scopes, uses);
      }
    }

    method CheckOperands(e: Expr, scopes: seq<set<string>>, uses: seq<string>)
      requires e.And? || e.Or? || e.Coalesce?
      modifies this
      ensures errors == old(errors) + Errors(k, e, Union(scopes), uses)
      ensures deps == old(deps) + Deps(k, e, uses)
      decreases e, 0
    {
      CheckExpr(e.left, scopes, uses);
      CheckExpr(e.right, scopes, uses);
    }

    method CheckConditional(e: Expr, scopes: seq<set<string>>, uses: seq<string>)
      requires e.If? || e.Try?
      modifies this
      ensures errors == old(errors) + Errors(k, e, Union(scopes), uses)
      ensures deps == old(deps) + Deps(k, e, uses)
      decreases e, 0
    {
      ghost var scope := Union(scopes);
      if e.If? {
        CheckExpr(e.cond, scopes, uses);
        CheckExpr(e.thn, scopes, uses);
        ghost var f := if e.els.Some? then Errors(k, e.els.value, scope, uses) else [];
        if e.els.Some? {
          CheckExpr(e.els.value, scopes, uses);
        }
        assert errors == old(errors) + Errors(k, e.cond, scope, uses) + Errors(k, e.thn, scope, uses) + f;
        ThreeParts(old(errors), Errors(k, e.cond, scope, uses), Errors(k, e.thn, scope, uses), f);
      } else {
        CheckExpr(e.body, scopes, uses);
        if e.default.Some? {
          CheckExpr(e.default.value, scopes, uses);
        }
      }
    }

    lemma ThreeParts(o: seq<CompileError>, a: seq<CompileError>, b: seq<CompileError>, c: seq<CompileError>)
      ensures o + a + b + c == o + (a + b + c)
    {
    }

    lemma ChildScope(scopes: seq<set<string>>, names: set<string>)
      ensures Union([names] + scopes) == Union(scopes) + names
    {
      assert ([names] + scopes)[1..] == scopes;
    }

    method CheckList(es: seq<Expr>, scopes: seq<set<string>>, uses: seq<string>)
      modifies this
      ensures errors == old(errors) + ListErrors(k, es, Union(scopes), uses)
      ensures deps == old(deps) + ListDeps(k, es, uses)
      decreases es, 0
    {
      var i := 0;
      assert es[0..] == es;
      while i < |es|
        invariant 0 <= i <= |es|
        invariant old(errors) + ListErrors(k, es, Union(scopes), uses)
               == errors + ListErrors(k, es[i..], Union(scopes), uses)
        invariant old(deps) + ListDeps(k, es, uses) == deps + ListDeps(k, es[i..], uses)
      {
        assert es[i..][0] == es[i] && es[i..][1..] == es[i + 1..];
        CheckExpr(es[i], scopes, uses);
        i := i + 1;
      }
    }

    /** One statement; `let` adds to the names, `use` to the namespaces. */
    method CheckStmt(st: Stmt, vars: set<string>, uses: seq<string>) returns (vars': set<string>, uses': seq<string>)
      modifies this
      ensures errors == old(errors) + StmtErrors(k, st, vars, uses)
      ensures deps == old(deps) + StmtDeps(k, st, uses)
      ensures vars' == VarsAfter(st, vars) && uses' == UsesAfter(st, uses)
    {
      hide Errors;
      vars', uses' := vars, uses;
      assert Union([vars]) == vars;
      match st {
        case Let(x, e) =>
          CheckExpr(e, [vars], uses);
          if x in vars {
            errors := errors + [DuplicateVar(x)];
          }
          vars' := vars + {x};
        case Return(e) => CheckExpr(e, [vars], uses);
        case ExprStmt(e) => CheckExpr(e, [vars], uses);
        case Use(ns) => uses' := uses + [ns];
      }
    }

    /** Checks a whole function; `vars` is its only scope that `let` can write to. */
    method Compile(f: FnDef)
      requires errors == [] && deps == {}
      modifies this
      ensures errors == BodyErrors(k, f.body, ParamNames(f.params), [])
      ensures deps == BodyDeps(k, f.body, [])
      ensures errors == [] <==> Clean(k, f)
    {
      hide BodyErrors, BodyDeps, StmtErrors, StmtDeps, ParamNames, VarsAfter, UsesAfter;
      var vars := ParamNames(f.params);
      var uses := [];
      var i := 0;
      assert f.body[0..] == f.body;
      while i < |f.body|
        invariant 0 <= i <= |f.body|
        invariant BodyErrors(k, f.body, ParamNames(f.params), []) == errors + BodyErrors(k, f.body[i..], vars, uses)
        invariant BodyDeps(k, f.body, []) == deps + BodyDeps(k, f.body[i..], uses)
      {
        assert f.body[i..][0] == f.body[i] && f.body[i..][1..] == f.body[i + 1..];
        ghost var e0, vars0, uses0 := errors, vars, uses;
        BodyStep(k, f.body[i..], vars, uses);
        BodyDepsStep(k, f.body[i..], uses);
        vars, uses := CheckStmt(f.body[i], vars, uses);
        ghost var later := BodyErrors(k, f.body[i + 1..], vars, uses);
        assert e0 + (StmtErrors(k, f.body[i], vars0, uses0) + later) == errors + later;
        i := i + 1;
      }
      assert f.body[i..] == [];
      NothingLeft(k, vars, uses);
    }
  }

  lemma NothingLeft(k: Config, vars: set<string>, uses: seq<string>)
    ensures BodyErrors(k, [], vars, uses) == [] && BodyDeps(k, [], uses) == {}
  {
  }
}
