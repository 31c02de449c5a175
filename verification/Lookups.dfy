/** What the executor's own runs can find: reusing argument scopes takes neither a callee nor,
    with enough arguments at every call, a variable away. */
module Lookups {
  import opened Wrappers
  import opened Syntax
  import opened Lexical
  import opened Compiler
  import opened Termination
  import Soundness
  import Arguments
  import opened Store
  import opened Running

  // ----- what can be found from a scope -----

  /** The names bound along a chain, the namespaces in force at its end, and what is known
      of the namespaces its function declares. */
  datatype View = View(names: set<string>, uses: seq<string>, ns: Spaces)

  function Wider(v: View, names: set<string>): View {
    v.(names := v.names + names)
  }

  function UsesList(f: Frame): seq<string> {
    if Soundness.UsesWell(f) then Soundness.BaseUses(f) else []
  }

  /** For function scopes by number, the namespaces their functions declare. */
  type Declarations = map<nat, Spaces>

  function SpaceOf(sp: Declarations, r: nat): Spaces {
    if r in sp then sp[r] else None
  }

  function ViewAt(h: Heap, sp: Declarations, r: nat): View
    decreases r
  {
    if r >= |h.scopes| then View({}, [], None)
    else
      var s := h.scopes[r];
      if s.parent.Some? && s.parent.value < r then Wider(ViewAt(h, sp, s.parent.value), s.vars.Keys)
      else View(s.vars.Keys, UsesList(s.vars), SpaceOf(sp, r))
  }

  /** Nothing that could be found is lost; variables are followed only where `full`. */
  predicate NotLess(v: View, w: View, full: bool) {
    v.uses <= w.uses && v.ns == w.ns && (full ==> v.names <= w.names)
  }

  /** What the expression looks up can be found from there: its callees, and where `full` its
      variables, at calls that all pass enough arguments. */
  ghost predicate Known(k: Config, full: bool, v: View, e: Expr) {
    && Soundness.NoUses(e) && CallsOk(k, e, v.uses)
    && (full ==> VarsOk(e, v.names) && Arguments.Supplied(k, v.ns, e))
  }

  ghost predicate KnownAll(k: Config, full: bool, v: View, es: seq<Expr>) {
    forall i :: 0 <= i < |es| ==> Known(k, full, v, es[i])
  }

  lemma KnownMore(k: Config, full: bool, v: View, w: View, e: Expr)
    requires Known(k, full, v, e) && NotLess(v, w, full)
    ensures Known(k, full, w, e)
  {
    MoreUses(k, e, v.uses, w.uses);
    if full { MoreNames(e, v.names, w.names); }
  }

  // ----- what is true of the heap -----

  /** The closures that any collection builtin may be given. */
  function FewParams(h: Heap): set<nat> {
    set id | 0 <= id < |h.clos| && |h.clos[id].params| <= 1
  }

  ghost predicate ScopeFits(full: bool, h: Heap, sp: Declarations, s: Scope, r: nat) {
    && (s.parent.Some? ==> USES !in s.vars)
    && (s.parent.None? ==> !s.reusable && Soundness.UsesWell(s.vars))
    && (s.parent.None? && USES in s.vars ==> Among(SpaceOf(sp, r), s.vars[USES].elems))
    && (full ==> Arguments.FrameWithin(s.vars, FewParams(h)))
  }

  /** The argument scope hangs where the closure was written, and binds every parameter. */
  predicate ScratchFits(full: bool, h: Heap, c: LambdaObj) {
    c.scratch.Some? ==>
      && c.scratch.value < |h.scopes| && h.scopes[c.scratch.value].parent == Some(c.env)
      && (full ==> h.scopes[c.scratch.value].vars.Keys == Names(c.params))
  }

  ghost predicate BodyFits(k: Config, full: bool, h: Heap, sp: Declarations, c: LambdaObj) {
    c.env < |h.scopes| && USES !in c.params && Known(k, full, Wider(ViewAt(h, sp, c.env), Names(c.params)), c.body)
  }

  ghost predicate ScopesFit(full: bool, h: Heap, sp: Declarations) {
    forall r :: 0 <= r < |h.scopes| ==> ScopeFits(full, h, sp, h.scopes[r], r)
  }

  ghost predicate LambdasFit(k: Config, full: bool, h: Heap, sp: Declarations) {
    forall c :: 0 <= c < |h.clos| ==> BodyFits(k, full, h, sp, h.clos[c]) && ScratchFits(full, h, h.clos[c])
  }

  ghost predicate Sane(k: Config, full: bool, h: Heap, sp: Declarations) {
    WellFormed(h) && ScopesFit(full, h, sp) && LambdasFit(k, full, h, sp)
  }

  predicate SameText(c: LambdaObj, d: LambdaObj) {
    c.params == d.params && c.body == d.body && c.env == d.env && c.depth == d.depth
  }

  predicate ScopeLater(full: bool, s: Scope, s': Scope) {
    s'.parent == s.parent && UsesList(s.vars) <= UsesList(s'.vars) && (full ==> s.vars.Keys <= s'.vars.Keys)
  }

  /** Chains stay, scopes gain names, namespace lists get longer. */
  predicate Later(full: bool, h: Heap, sp: Declarations, h': Heap, sp': Declarations) {
    && |h.scopes| <= |h'.scopes| && |h.clos| <= |h'.clos|
    && (forall r :: 0 <= r < |h.scopes| ==> ScopeLater(full, h.scopes[r], h'.scopes[r]))
    && (forall r :: 0 <= r < |h.scopes| ==> SpaceOf(sp', r) == SpaceOf(sp, r))
    && (forall c :: 0 <= c < |h.clos| ==> SameText(h.clos[c], h'.clos[c]))
  }

  lemma LaterSelf(full: bool, h: Heap, sp: Declarations)
    ensures Later(full, h, sp, h, sp)
  {
  }

  lemma LaterTrans(full: bool, h0: Heap, sp0: Declarations, h1: Heap, sp1: Declarations, h2: Heap, sp2: Declarations)
    requires Later(full, h0, sp0, h1, sp1) && Later(full, h1, sp1, h2, sp2)
    ensures Later(full, h0, sp0, h2, sp2)
  {
    hide UsesList;
    forall r | 0 <= r < |h0.scopes| ensures ScopeLater(full, h0.scopes[r], h2.scopes[r]) {
      assert ScopeLater(full, h0.scopes[r], h1.scopes[r]) && ScopeLater(full, h1.scopes[r], h2.scopes[r]);
    }
    forall c | 0 <= c < |h0.clos| ensures SameText(h0.clos[c], h2.clos[c]) {
      assert SameText(h0.clos[c], h1.clos[c]) && SameText(h1.clos[c], h2.clos[c]);
    }
  }

  lemma {:induction false} ViewLater(full: bool, h: Heap, sp: Declarations, h': Heap, sp': Declarations, r: nat)
    requires Later(full, h, sp, h', sp') && r < |h.scopes|
    ensures NotLess(ViewAt(h, sp, r), ViewAt(h', sp', r), full)
    decreases r
  {
    hide UsesList;
    assert ScopeLater(full, h.scopes[r], h'.scopes[r]);
    if h.scopes[r].parent.Some? && h.scopes[r].parent.value < r {
      ViewLater(full, h, sp, h', sp', h.scopes[r].parent.value);
    }
  }

  lemma KnownLater(k: Config, full: bool, h: Heap, sp: Declarations, h': Heap, sp': Declarations, r: nat, names: set<string>, e: Expr)
    requires Later(full, h, sp, h', sp') && r < |h.scopes| && Known(k, full, Wider(ViewAt(h, sp, r), names), e)
    ensures Known(k, full, Wider(ViewAt(h', sp', r), names), e)
  {
    hide Known, Later, ViewAt;
    ViewLater(full, h, sp, h', sp', r);
    KnownMore(k, full, Wider(ViewAt(h, sp, r), names), Wider(ViewAt(h', sp', r), names), e);
  }

  lemma StillFits(k: Config, full: bool, h: Heap, sp: Declarations, h': Heap, sp': Declarations, c: LambdaObj, c': LambdaObj)
    requires Later(full, h, sp, h', sp') && BodyFits(k, full, h, sp, c) && SameText(c, c')
    ensures BodyFits(k, full, h', sp', c')
  {
    hide Known, ViewAt;
    KnownLater(k, full, h, sp, h', sp', c.env, Names(c.params), c.body);
  }

  lemma FewParamsLater(full: bool, h: Heap, sp: Declarations, h': Heap, sp': Declarations)
    requires Later(full, h, sp, h', sp')
    ensures FewParams(h) <= FewParams(h')
  {
    forall id | id in FewParams(h) ensures id in FewParams(h') {
      assert SameText(h.clos[id], h'.clos[id]);
    }
  }

  /** The lambdas that were there still fit. */
  lemma OldLambdas(k: Config, full: bool, h: Heap, sp: Declarations, h': Heap, sp': Declarations)
    requires Sane(k, full, h, sp) && Later(full, h, sp, h', sp')
    ensures forall c :: 0 <= c < |h.clos| ==> BodyFits(k, full, h', sp', h'.clos[c])
  {
    hide BodyFits, WellFormed;
    forall c | 0 <= c < |h.clos| ensures BodyFits(k, full, h', sp', h'.clos[c]) {
      assert SameText(h.clos[c], h'.clos[c]);
      StillFits(k, full, h, sp, h', sp', h.clos[c], h'.clos[c]);
    }
  }

  lemma ScopeMore(full: bool, h: Heap, sp: Declarations, h': Heap, sp': Declarations, r: nat)
    requires ScopesFit(full, h, sp) && Later(full, h, sp, h', sp') && r < |h.scopes|
    ensures ScopeFits(full, h', sp', h.scopes[r], r)
  {
    hide Among;
    assert ScopeFits(full, h, sp, h.scopes[r], r);
    FewParamsLater(full, h, sp, h', sp');
    if full { Arguments.FrameMore(h.scopes[r].vars, FewParams(h), FewParams(h')); }
  }

  // ----- lookups -----

  lemma {:induction false} GetUses(k: Config, full: bool, h: Heap, sp: Declarations, r: nat)
    requires Sane(k, full, h, sp) && r < |h.scopes|
    ensures var us := UsesOf(Get(h.scopes, r, USES)); var v := ViewAt(h, sp, r);
      Soundness.AllStr(us) && Soundness.Strs(us) == v.uses && Among(v.ns, us)
    decreases r
  {
    hide LambdasFit;
    assert ScopeFits(full, h, sp, h.scopes[r], r);
    if h.scopes[r].parent.Some? {
      GetUses(k, full, h, sp, h.scopes[r].parent.value);
    }
  }

  lemma {:induction false} GetFinds(h: Heap, sp: Declarations, r: nat, x: string)
    requires x in ViewAt(h, sp, r).names
    ensures Get(h.scopes, r, x).Some?
    decreases r
  {
    if h.scopes[r].parent.Some? && h.scopes[r].parent.value < r && x !in h.scopes[r].vars {
      GetFinds(h, sp, h.scopes[r].parent.value, x);
    }
  }

  lemma {:induction false} GetWithin(h: Heap, sp: Declarations, r: nat, x: string)
    requires ScopesFit(true, h, sp)
    ensures var v := Get(h.scopes, r, x); v.Some? ==> Arguments.Within(v.value, FewParams(h))
    decreases r
  {
    hide FewParams;
    if r < |h.scopes| {
      assert ScopeFits(true, h, sp, h.scopes[r], r);
      if x !in h.scopes[r].vars && h.scopes[r].parent.Some? && h.scopes[r].parent.value < r {
        GetWithin(h, sp, h.scopes[r].parent.value, x);
      }
    }
  }

  // ----- the heap's steps -----

  lemma AddedScope(k: Config, full: bool, h: Heap, sp: Declarations, x: Scope)
    requires Sane(k, full, h, sp) && x.parent.Some? && x.parent.value < |h.scopes|
    requires USES !in x.vars && (full ==> Arguments.FrameWithin(x.vars, FewParams(h)))
    ensures var h' := WithScope(h, x);
      && Sane(k, full, h', sp) && Later(full, h, sp, h', sp)
      && ViewAt(h', sp, |h.scopes|) == Wider(ViewAt(h', sp, x.parent.value), x.vars.Keys)
  {
    hide WellFormed, BodyFits, UsesList;
    var h' := WithScope(h, x);
    AddScope(h, x);
    OldLambdas(k, full, h, sp, h', sp);
    assert FewParams(h') == FewParams(h);
    forall r | 0 <= r < |h'.scopes| ensures ScopeFits(full, h', sp, h'.scopes[r], r) {
      if r < |h.scopes| { ScopeMore(full, h, sp, h', sp, r); }
    }
  }

  lemma AddedBase(k: Config, full: bool, h: Heap, sp: Declarations, ns: Spaces) returns (sp': Declarations)
    requires Sane(k, full, h, sp)
    ensures var h' := WithBase(h);
      && Sane(k, full, h', sp') && Later(full, h, sp, h', sp') && FunctionScope(h', |h.scopes|)
      && ViewAt(h', sp', |h.scopes|) == View({}, [], ns)
  {
    hide WellFormed, BodyFits;
    sp' := sp[|h.scopes| := ns];
    var h' := WithBase(h);
    AddBase(h);
    OldLambdas(k, full, h, sp, h', sp');
    assert FewParams(h') == FewParams(h);
    forall r | 0 <= r < |h'.scopes| ensures ScopeFits(full, h', sp', h'.scopes[r], r) {
      if r < |h.scopes| { ScopeMore(full, h, sp, h', sp', r); }
    }
  }

  /** A variable of a function scope is bound, or its list of namespaces gets longer. */
  lemma AddedVar(k: Config, full: bool, h: Heap, sp: Declarations, r: nat, x: string, v: Value)
    requires Sane(k, full, h, sp) && FunctionScope(h, r) && (full ==> Arguments.Within(v, FewParams(h)))
    requires x == USES ==>
      && v.Arr? && Soundness.AllStr(v.elems) && Among(SpaceOf(sp, r), v.elems)
      && ViewAt(h, sp, r).uses <= Soundness.Strs(v.elems)
    ensures var h' := WithVar(h, r, x, v);
      && Sane(k, full, h', sp) && Later(full, h, sp, h', sp) && FunctionScope(h', r)
      && var w := ViewAt(h', sp, r);
      && w.names == ViewAt(h, sp, r).names + {x} && w.ns == ViewAt(h, sp, r).ns
      && w.uses == if x == USES then Soundness.Strs(v.elems) else ViewAt(h, sp, r).uses
  {
    hide WellFormed, BodyFits, Among;
    var h' := WithVar(h, r, x, v);
    AddVar(h, r, x, v);
    assert ScopeFits(full, h, sp, h.scopes[r], r);
    assert ScopeLater(full, h.scopes[r], h'.scopes[r]);
    OldLambdas(k, full, h, sp, h', sp);
    assert FewParams(h') == FewParams(h);
    forall i | 0 <= i < |h'.scopes| ensures ScopeFits(full, h', sp, h'.scopes[i], i) {
      if i != r { ScopeMore(full, h, sp, h', sp, i); }
    }
    forall c | 0 <= c < |h'.clos| ensures ScratchFits(full, h', h'.clos[c]) {
      assert ScratchFits(full, h, h.clos[c]);
    }
  }

  lemma {:induction false} ViewPrefix(h: Heap, h': Heap, sp: Declarations, r: nat)
    requires h.scopes <= h'.scopes && r < |h.scopes|
    ensures ViewAt(h', sp, r) == ViewAt(h, sp, r)
    decreases r
  {
    if h.scopes[r].parent.Some? && h.scopes[r].parent.value < r {
      ViewPrefix(h, h', sp, h.scopes[r].parent.value);
    }
  }

  /** A copied chain shows what the chain shows. */
  lemma {:induction false} CopiedChain(k: Config, full: bool, h: Heap, sp: Declarations, env: nat)
    requires Sane(k, full, h, sp) && env < |h.scopes|
    ensures var copy := Snapshot(h.scopes, env); var h' := h.(scopes := copy.scopes);
      && Sane(k, full, h', sp) && Later(full, h, sp, h', sp) && h.scopes <= h'.scopes && copy.scope < |h'.scopes|
      && ViewAt(h', sp, copy.scope) == ViewAt(h, sp, env)
    decreases env
  {
    hide WellFormed, LambdasFit, ScopesFit;
    LaterSelf(full, h, sp);
    if h.scopes[env].reusable {
      ParentThere(k, full, h, sp, env);
      var q := h.scopes[env].parent.value;
      CopiedChain(k, full, h, sp, q);
      var p := Snapshot(h.scopes, q);
      var h1, x := h.(scopes := p.scopes), Scope(Some(p.scope), h.scopes[env].vars, false);
      CopyFits(k, full, h, sp, h1, env);
      AddedScope(k, full, h1, sp, x);
      ViewPrefix(h1, WithScope(h1, x), sp, p.scope);
      LaterTrans(full, h, sp, h1, sp, WithScope(h1, x), sp);
    }
  }

  lemma ParentThere(k: Config, full: bool, h: Heap, sp: Declarations, r: nat)
    requires Sane(k, full, h, sp) && r < |h.scopes| && h.scopes[r].reusable
    ensures h.scopes[r].parent.Some? && h.scopes[r].parent.value < r
  {
    hide LambdasFit;
    assert ScopeFits(full, h, sp, h.scopes[r], r);
  }

  lemma CopyFits(k: Config, full: bool, h: Heap, sp: Declarations, h1: Heap, r: nat)
    requires Sane(k, full, h, sp) && Later(full, h, sp, h1, sp) && r < |h.scopes| && h.scopes[r].parent.Some?
    ensures USES !in h.scopes[r].vars && (full ==> Arguments.FrameWithin(h.scopes[r].vars, FewParams(h1)))
  {
    hide LambdasFit;
    ScopeMore(full, h, sp, h1, sp, r);
  }

  lemma Captured(k: Config, full: bool, h: Heap, sp: Declarations, env: nat, depth: nat, ps: seq<string>, b: Expr)
    requires Sane(k, full, h, sp) && env < |h.scopes| && USES !in ps
    requires Known(k, full, Wider(ViewAt(h, sp, env), Names(ps)), b)
    ensures var h' := Capturing(h, env, depth, ps, b);
      && Sane(k, full, h', sp) && Later(full, h, sp, h', sp)
      && |h'.clos| == |h.clos| + 1 && h'.clos[|h.clos|].params == ps
  {
    hide WellFormed, ScopesFit, LambdasFit;
    CopiedChain(k, full, h, sp, env);
    var copy := Snapshot(h.scopes, env);
    var h1 := h.(scopes := copy.scopes);
    AddedLambda(k, full, h1, sp, LambdaObj(ps, b, copy.scope, depth, None, false));
    LaterTrans(full, h, sp, h1, sp, Capturing(h, env, depth, ps, b), sp);
  }

  lemma AddedLambda(k: Config, full: bool, h: Heap, sp: Declarations, c: LambdaObj)
    requires Sane(k, full, h, sp) && BodyFits(k, full, h, sp, c) && c.scratch.None? && !c.inCall
    ensures Sane(k, full, WithLambda(h, c), sp) && Later(full, h, sp, WithLambda(h, c), sp)
  {
    hide WellFormed, UsesList, BodyFits, ViewAt;
    var h' := WithLambda(h, c);
    FittingLambda(k, full, h, sp, c);
    AddLambda(h, c);
    OldLambdas(k, full, h, sp, h', sp);
    forall d | 0 <= d < |h.clos| ensures ScratchFits(full, h', h'.clos[d]) { assert ScratchFits(full, h, h.clos[d]); }
    forall r | 0 <= r < |h'.scopes| ensures ScopeFits(full, h', sp, h'.scopes[r], r) { ScopeMore(full, h, sp, h', sp, r); }
    StillFits(k, full, h, sp, h', sp, c, c);
  }

  lemma FittingLambda(k: Config, full: bool, h: Heap, sp: Declarations, c: LambdaObj)
    requires BodyFits(k, full, h, sp, c)
    ensures c.env < |h.scopes|
  {
  }

  // ----- calls of closures -----

  /** A closure takes its argument scope, or a fresh one: either binds its parameters on top
      of where it was written, and no chain loses a name. */
  lemma Entered(k: Config, full: bool, h: Heap, sp: Declarations, id: nat, vars: Frame)
    requires Sane(k, full, h, sp) && id < |h.clos| && vars.Keys <= Names(h.clos[id].params)
    requires full ==> vars.Keys == Names(h.clos[id].params) && Arguments.FrameWithin(vars, FewParams(h))
    ensures var h1, r := Enter(h, id, vars), ArgScope(h, id);
      && Sane(k, full, h1, sp) && Later(full, h, sp, h1, sp) && r < |h1.scopes|
      && Known(k, full, ViewAt(h1, sp, r), h.clos[id].body)
  {
    hide WellFormed, Known, UsesList;
    var c := h.clos[id];
    var h1, r := Enter(h, id, vars), ArgScope(h, id);
    if c.inCall { EnterFresh(h, id, vars); } else { EnterOwn(h, id, vars); }
    ArgScopeThere(h, id, vars);
    assert BodyFits(k, full, h, sp, c) && ScratchFits(full, h, c);
    EnteredLater(k, full, h, sp, id, vars);
    OldLambdas(k, full, h, sp, h1, sp);
    assert FewParams(h1) == FewParams(h);
    forall q | 0 <= q < |h1.scopes| ensures ScopeFits(full, h1, sp, h1.scopes[q], q) {
      if q != r { ScopeMore(full, h, sp, h1, sp, q); }
    }
    EnteredScratch(k, full, h, sp, id, vars);
    KnownLater(k, full, h, sp, h1, sp, c.env, Names(c.params), c.body);
    EnteredView(k, full, h1, sp, r, c, vars);
  }

  lemma EnteredLater(k: Config, full: bool, h: Heap, sp: Declarations, id: nat, vars: Frame)
    requires Sane(k, full, h, sp) && id < |h.clos| && vars.Keys <= Names(h.clos[id].params)
    requires full ==> vars.Keys == Names(h.clos[id].params)
    ensures Later(full, h, sp, Enter(h, id, vars), sp)
  {
    hide BodyFits, WellFormed;
    var c, h1, r := h.clos[id], Enter(h, id, vars), ArgScope(h, id);
    assert ScratchFits(full, h, c) && USES !in c.params by { assert BodyFits(k, full, h, sp, c); UsesOut(k, full, h, sp, c); }
    if r < |h.scopes| {
      assert ScopeFits(full, h, sp, h.scopes[r], r);
      assert ScopeLater(full, h.scopes[r], h1.scopes[r]);
    }
  }

  lemma UsesOut(k: Config, full: bool, h: Heap, sp: Declarations, c: LambdaObj)
    requires BodyFits(k, full, h, sp, c)
    ensures USES !in c.params
  {
  }

  lemma EnteredScratch(k: Config, full: bool, h: Heap, sp: Declarations, id: nat, vars: Frame)
    requires Sane(k, full, h, sp) && id < |h.clos|
    requires full ==> vars.Keys == Names(h.clos[id].params)
    ensures var h1 := Enter(h, id, vars); forall d :: 0 <= d < |h1.clos| ==> ScratchFits(full, h1, h1.clos[d])
  {
    hide BodyFits, ScopesFit;
    var h1, r := Enter(h, id, vars), ArgScope(h, id);
    forall d | 0 <= d < |h1.clos| ensures ScratchFits(full, h1, h1.clos[d]) {
      assert ScratchFits(full, h, h.clos[d]) && WellFormedLambda(h, h.clos[d]);
    }
  }

  lemma EnteredView(k: Config, full: bool, h: Heap, sp: Declarations, r: nat, c: LambdaObj, vars: Frame)
    requires r < |h.scopes| && h.scopes[r] == Scope(Some(c.env), vars, true) && c.env < r
    requires Known(k, full, Wider(ViewAt(h, sp, c.env), Names(c.params)), c.body)
    requires full ==> vars.Keys == Names(c.params)
    ensures Known(k, full, ViewAt(h, sp, r), c.body)
  {
    KnownMore(k, full, Wider(ViewAt(h, sp, c.env), Names(c.params)), ViewAt(h, sp, r), c.body);
  }

  /** Guards and log entries are nothing a lookup can see. */
  lemma FlagsOnly(k: Config, full: bool, h: Heap, sp: Declarations, h': Heap)
    requires Sane(k, full, h, sp) && WellFormed(h') && h'.scopes == h.scopes && |h'.clos| == |h.clos|
    requires forall c :: 0 <= c < |h.clos| ==> SameText(h.clos[c], h'.clos[c]) && h'.clos[c].scratch == h.clos[c].scratch
    ensures Sane(k, full, h', sp) && Later(full, h, sp, h', sp)
  {
    hide WellFormed, BodyFits;
    OldLambdas(k, full, h, sp, h', sp);
    forall r | 0 <= r < |h'.scopes| ensures ScopeFits(full, h', sp, h'.scopes[r], r) { ScopeMore(full, h, sp, h', sp, r); }
    forall c | 0 <= c < |h'.clos| ensures ScratchFits(full, h', h'.clos[c]) {
      assert ScratchFits(full, h, h.clos[c]);
    }
  }

  // ----- what runs keep, and what they never end in -----

  ghost predicate Entries(k: Config, full: bool) {
    && (full ==> Arguments.PassOn(k))
    && forall n :: n in k.fns ==> GoodEntry(k, full, k.fns[n])
  }

  ghost predicate GoodEntry(k: Config, full: bool, f: FnDef) {
    Soundness.GoodFn(k, f) && (full ==> Arguments.SuppliedFn(k, f))
  }

  predicate Told(full: bool, out: Outcome) {
    out.Err? ==> !out.e.NotDefined? && (full ==> !out.e.Undefined?)
  }

  ghost predicate Went(k: Config, full: bool, h: Heap, sp: Declarations, r: Ran, sp': Declarations) {
    Sane(k, full, r.h, sp') && Later(full, h, sp, r.h, sp') && Told(full, r.out)
  }

  ghost predicate Ends(k: Config, full: bool, h: Heap, sp: Declarations, r: Ran, sp': Declarations) {
    Went(k, full, h, sp, r, sp') && (full && r.out.Val? ==> Arguments.Within(r.out.v, FewParams(r.h)))
  }

  ghost predicate Stands(k: Config, full: bool, h: Heap, sp: Declarations, env: nat, e: Expr) {
    Sane(k, full, h, sp) && env < |h.scopes| && Known(k, full, ViewAt(h, sp, env), e)
  }

  ghost predicate AllStand(k: Config, full: bool, h: Heap, sp: Declarations, env: nat, es: seq<Expr>) {
    Sane(k, full, h, sp) && env < |h.scopes| && KnownAll(k, full, ViewAt(h, sp, env), es)
  }

  lemma StandsLater(k: Config, full: bool, h: Heap, sp: Declarations, h': Heap, sp': Declarations, env: nat, e: Expr)
    requires Stands(k, full, h, sp, env, e) && Sane(k, full, h', sp') && Later(full, h, sp, h', sp')
    ensures Stands(k, full, h', sp', env, e)
  {
    hide Sane, Known, ViewAt;
    ViewLater(full, h, sp, h', sp', env);
    KnownMore(k, full, ViewAt(h, sp, env), ViewAt(h', sp', env), e);
  }

  lemma AllStandLater(k: Config, full: bool, h: Heap, sp: Declarations, h': Heap, sp': Declarations, env: nat, es: seq<Expr>)
    requires AllStand(k, full, h, sp, env, es) && Sane(k, full, h', sp') && Later(full, h, sp, h', sp')
    ensures AllStand(k, full, h', sp', env, es)
  {
    hide Sane, Known, ViewAt;
    ViewLater(full, h, sp, h', sp', env);
    forall i | 0 <= i < |es| ensures Known(k, full, ViewAt(h', sp', env), es[i]) {
      KnownMore(k, full, ViewAt(h, sp, env), ViewAt(h', sp', env), es[i]);
    }
  }

  /** One step after another. */
  lemma EndsAfter(k: Config, full: bool, h: Heap, sp: Declarations, h1: Heap, sp1: Declarations, r: Ran, sp': Declarations)
    requires Later(full, h, sp, h1, sp1) && Ends(k, full, h1, sp1, r, sp')
    ensures Ends(k, full, h, sp, r, sp')
  {
    hide Later, Sane, Told;
    LaterTrans(full, h, sp, h1, sp1, r.h, sp');
  }

  lemma WithinLater(full: bool, h: Heap, sp: Declarations, h': Heap, sp': Declarations, vs: seq<Value>)
    requires Later(full, h, sp, h', sp') && Arguments.WithinAll(vs, FewParams(h))
    ensures Arguments.WithinAll(vs, FewParams(h'))
  {
    hide Later, FewParams;
    FewParamsLater(full, h, sp, h', sp');
    Arguments.AllMore(vs, FewParams(h), FewParams(h'));
  }

  lemma {:induction false} ExprEnds(k: Config, full: bool, fuel: nat, env: nat, depth: nat, e: Expr, h: Heap, sp: Declarations)
    returns (sp': Declarations)
    requires Entries(k, full) && Stands(k, full, h, sp, env, e)
    ensures Ends(k, full, h, sp, RunExpr(k, fuel, env, depth, e, h), sp')
    decreases fuel, 0, e, 2
  {
    hide Sane, Later, ViewAt, Known, Entries, RunList, RunRounds, RunCall, FewParams;
    sp' := sp;
    LaterSelf(full, h, sp);
    if !TooDeep(k, depth) {
      match e {
        case Lit(_) =>
        case Ident(x) => IdentEnds(k, full, h, sp, env, x);
        case Strict(op, es) =>
          PartsKnown(k, full, ViewAt(h, sp, env), e);
          sp' := ListEnds(k, full, fuel, env, depth, es, h, sp);
          PrimEnds(k, full, op, RunList(k, fuel, env, depth, es, h));
        case ArrayLit(es) =>
          PartsKnown(k, full, ViewAt(h, sp, env), e);
          sp' := ListEnds(k, full, fuel, env, depth, es, h, sp);
        case And(_, _) => sp' := ChoiceEnds(k, full, fuel, env, depth, e, h, sp);
        case Or(_, _) => sp' := ChoiceEnds(k, full, fuel, env, depth, e, h, sp);
        case If(_, _, _) => sp' := ChoiceEnds(k, full, fuel, env, depth, e, h, sp);
        case Coalesce(_, _) => sp' := ChoiceEnds(k, full, fuel, env, depth, e, h, sp);
        case Try(_, _) => sp' := ChoiceEnds(k, full, fuel, env, depth, e, h, sp);
        case For(_, _, _, _) => sp' := ForEnds(k, full, fuel, env, depth, e, h, sp);
        case Raise(m) =>
          RaiseKnown(k, full, ViewAt(h, sp, env), m);
          sp' := ExprEnds(k, full, fuel, env, depth, m, h, sp);
        case Lambda(ps, b) =>
          LambdaKnown(k, full, ViewAt(h, sp, env), ps, b);
          Captured(k, full, h, sp, env, depth, ps, b);
          NewClosure(k, full, h, Capturing(h, env, depth, ps, b), ps, ViewAt(h, sp, env), b);
        case Call(_, _) => sp' := CallExprEnds(k, full, fuel, env, depth, e, h, sp);
      }
    }
  }

  lemma IdentEnds(k: Config, full: bool, h: Heap, sp: Declarations, env: nat, x: string)
    requires Stands(k, full, h, sp, env, Ident(x))
    ensures var v := Get(h.scopes, env, x);
      full ==> v.Some? && Arguments.Within(v.value, FewParams(h))
  {
    hide WellFormed, LambdasFit, ScopesFit;
    if full {
      GetFinds(h, sp, env, x);
      GetWithin(h, sp, env, x);
    }
  }

  lemma NewClosure(k: Config, full: bool, h: Heap, h': Heap, ps: seq<string>, v: View, b: Expr)
    requires |h'.clos| == |h.clos| + 1 && h'.clos[|h.clos|].params == ps && Known(k, full, v, Lambda(ps, b))
    ensures full ==> Arguments.Within(Clo(|h.clos|), FewParams(h'))
  {
  }

  lemma PrimEnds(k: Config, full: bool, op: string, a: Ran)
    requires Entries(k, full) && (a.out.Val? ==> a.out.v.Arr?)
    requires full && a.out.Val? ==> Arguments.Within(a.out.v, FewParams(a.h))
    ensures full && a.out.Val? && k.prim(op, a.out.v.elems).Ok? ==> Arguments.Within(k.prim(op, a.out.v.elems).v, FewParams(a.h))
  {
    hide FewParams;
    if full && a.out.Val? {
      assert Arguments.WithinAll(a.out.v.elems, FewParams(a.h));
    }
  }

  lemma PartsKnown(k: Config, full: bool, v: View, e: Expr)
    requires Known(k, full, v, e) && (e.Strict? || e.ArrayLit?)
    ensures KnownAll(k, full, v, if e.Strict? then e.operands else e.elems)
  {
    if full { SuppliedEach(k, v.ns, if e.Strict? then e.operands else e.elems); }
  }

  lemma SuppliedEach(k: Config, ns: Spaces, es: seq<Expr>)
    ensures Arguments.SuppliedAll(k, ns, es) <==> forall i :: 0 <= i < |es| ==> Arguments.Supplied(k, ns, es[i])
  {
  }

  lemma RaiseKnown(k: Config, full: bool, v: View, m: Expr)
    requires Known(k, full, v, Raise(m))
    ensures Known(k, full, v, m)
  {
  }

  lemma LambdaKnown(k: Config, full: bool, v: View, ps: seq<string>, b: Expr)
    requires Known(k, full, v, Lambda(ps, b))
    ensures USES !in ps && Known(k, full, Wider(v, Names(ps)), b) && (full ==> |ps| <= 1)
  {
  }

  /** The part that is evaluated first, and the part that may follow. */
  function FirstPart(e: Expr): Expr
    requires e.And? || e.Or? || e.If? || e.Coalesce? || e.Try?
  {
    if e.If? then e.cond else if e.Try? then e.body else e.left
  }

  function NextPart(e: Expr, a: Outcome): Option<Expr>
    requires e.And? || e.Or? || e.If? || e.Coalesce? || e.Try?
  {
    match e
    case And(_, r) => if a.Val? && ToBool(a.v) then Some(r) else None
    case Or(_, r) => if a.Val? && !ToBool(a.v) then Some(r) else None
    case If(_, t, f) => if !a.Val? then None else if ToBool(a.v) then Some(t) else f
    case Coalesce(_, r) => if a.Val? && a.v.Null? then Some(r) else None
    case Try(_, d) => if a.Err? then d else None
  }

  lemma ChoiceKnown(k: Config, full: bool, v: View, e: Expr, a: Outcome)
    requires Known(k, full, v, e) && (e.And? || e.Or? || e.If? || e.Coalesce? || e.Try?)
    ensures Known(k, full, v, FirstPart(e)) && FirstPart(e) < e
    ensures NextPart(e, a).Some? ==> Known(k, full, v, NextPart(e, a).value) && NextPart(e, a).value < e
  {
  }

  lemma {:induction false} ChoiceEnds(k: Config, full: bool, fuel: nat, env: nat, depth: nat, e: Expr, h: Heap, sp: Declarations)
    returns (sp': Declarations)
    requires Entries(k, full) && Stands(k, full, h, sp, env, e) && !TooDeep(k, depth)
    requires e.And? || e.Or? || e.If? || e.Coalesce? || e.Try?
    ensures Ends(k, full, h, sp, RunExpr(k, fuel, env, depth, e, h), sp')
    decreases fuel, 0, e, 1
  {
    hide Sane, Later, ViewAt, Known, Entries, RunList, RunRounds, RunCall, FewParams;
    var a := RunExpr(k, fuel, env, depth, FirstPart(e), h);
    ChoiceKnown(k, full, ViewAt(h, sp, env), e, a.out);
    sp' := ExprEnds(k, full, fuel, env, depth, FirstPart(e), h, sp);
    var next := NextPart(e, a.out);
    if next.Some? {
      var sp1 := sp';
      StandsLater(k, full, h, sp, a.h, sp1, env, next.value);
      sp' := ExprEnds(k, full, fuel, env, depth, next.value, a.h, sp1);
      EndsAfter(k, full, h, sp, a.h, sp1, RunExpr(k, fuel, env, depth, next.value, a.h), sp');
    }
  }

  lemma {:induction false} ListEnds(k: Config, full: bool, fuel: nat, env: nat, depth: nat, es: seq<Expr>, h: Heap, sp: Declarations)
    returns (sp': Declarations)
    requires Entries(k, full) && AllStand(k, full, h, sp, env, es)
    ensures Ends(k, full, h, sp, RunList(k, fuel, env, depth, es, h), sp')
    decreases fuel, 0, es, 0
  {
    hide Sane, Later, ViewAt, Known, Entries, RunExpr, FewParams;
    sp' := sp;
    LaterSelf(full, h, sp);
    if es != [] {
      assert KnownAll(k, full, ViewAt(h, sp, env), es[1..]);
      sp' := ExprEnds(k, full, fuel, env, depth, es[0], h, sp);
      var a, sp1 := RunExpr(k, fuel, env, depth, es[0], h), sp';
      if a.out.Val? {
        AllStandLater(k, full, h, sp, a.h, sp1, env, es[1..]);
        sp' := ListEnds(k, full, fuel, env, depth, es[1..], a.h, sp1);
        var b := RunList(k, fuel, env, depth, es[1..], a.h);
        EndsAfter(k, full, h, sp, a.h, sp1, b, sp');
        if full { PrependWithin(full, a.h, sp1, b.h, sp', a.out.v, b.out); }
      }
    }
  }

  lemma {:induction false} ForEnds(k: Config, full: bool, fuel: nat, env: nat, depth: nat, e: Expr, h: Heap, sp: Declarations)
    returns (sp': Declarations)
    requires Entries(k, full) && Stands(k, full, h, sp, env, e) && !TooDeep(k, depth) && e.For?
    ensures Ends(k, full, h, sp, RunExpr(k, fuel, env, depth, e, h), sp')
    decreases fuel, 0, e, 0
  {
    hide Sane, Later, ViewAt, Known, Entries, RunList, RunRounds, RunCall, FewParams;
    ForKnown(k, full, ViewAt(h, sp, env), e);
    sp' := ExprEnds(k, full, fuel, env, depth, e.iterable, h, sp);
    var a, sp1 := RunExpr(k, fuel, env, depth, e.iterable, h), sp';
    if a.out.Val? && a.out.v.Arr? {
      StandsLater(k, full, h, sp, a.h, sp1, env, e);
      sp' := RoundsEnds(k, full, fuel, env, depth, e, a.out.v.elems, 0, a.h, sp1);
      EndsAfter(k, full, h, sp, a.h, sp1, RunRounds(k, fuel, env, depth, e.variable, e.index, e.body, a.out.v.elems, 0, a.h), sp');
    }
  }

  lemma ForKnown(k: Config, full: bool, v: View, e: Expr)
    requires Known(k, full, v, e) && e.For?
    ensures Known(k, full, v, e.iterable) && Known(k, full, Wider(v, ForNames(e.variable, e.index)), e.body)
    ensures e.variable != USES && e.index != USES
  {
  }

  lemma {:induction false} RoundsEnds(k: Config, full: bool, fuel: nat, env: nat, depth: nat, e: Expr, items: seq<Value>, i: nat,
                                      h: Heap, sp: Declarations)
    returns (sp': Declarations)
    requires Entries(k, full) && Stands(k, full, h, sp, env, e) && e.For? && i <= |items|
    requires full ==> Arguments.WithinAll(items, FewParams(h))
    ensures Ends(k, full, h, sp, RunRounds(k, fuel, env, depth, e.variable, e.index, e.body, items, i, h), sp')
    decreases fuel, 0, e.body, |items| - i + 3
  {
    hide Sane, Later, ViewAt, Known, Entries, RunExpr, FewParams, Arguments.WithinAll;
    sp' := sp;
    LaterSelf(full, h, sp);
    if i < |items| && !TooDeep(k, depth) {
      var scope := Scope(Some(env), ForFrame(e.variable, e.index, items[i], i), false);
      var h1 := WithScope(h, scope);
      RoundAt(k, full, h, sp, env, e, items, i);
      var sp1 := ExprEnds(k, full, fuel, |h.scopes|, depth, e.body, h1, sp);
      var a := RunExpr(k, fuel, |h.scopes|, depth, e.body, h1);
      EndsAfter(k, full, h, sp, h1, sp, a, sp1);
      sp' := sp1;
      if a.out.Val? {
        StandsLater(k, full, h, sp, a.h, sp1, env, e);
        if full { WithinLater(full, h, sp, a.h, sp1, items); }
        sp' := RoundsEnds(k, full, fuel, env, depth, e, items, i + 1, a.h, sp1);
        var b := RunRounds(k, fuel, env, depth, e.variable, e.index, e.body, items, i + 1, a.h);
        EndsAfter(k, full, h, sp, a.h, sp1, b, sp');
        if full { PrependWithin(full, a.h, sp1, b.h, sp', a.out.v, b.out); }
      }
    }
  }

  lemma PrependWithin(full: bool, h: Heap, sp: Declarations, h': Heap, sp': Declarations, v: Value, out: Outcome)
    requires Later(full, h, sp, h', sp') && Arguments.Within(v, FewParams(h))
    requires out.Val? ==> out.v.Arr? && Arguments.Within(out.v, FewParams(h'))
    ensures out.Val? ==> Arguments.Within(Arr([v] + out.v.elems), FewParams(h'))
  {
    hide Later, FewParams;
    WithinLater(full, h, sp, h', sp', [v]);
  }

  lemma RoundAt(k: Config, full: bool, h: Heap, sp: Declarations, env: nat, e: Expr, items: seq<Value>, i: nat)
    requires Stands(k, full, h, sp, env, e) && e.For? && i < |items|
    requires full ==> Arguments.WithinAll(items, FewParams(h))
    ensures var h1 := WithScope(h, Scope(Some(env), ForFrame(e.variable, e.index, items[i], i), false));
      Stands(k, full, h1, sp, |h.scopes|, e.body) && Later(full, h, sp, h1, sp)
  {
    hide Sane, Later, Known, FewParams;
    var x := Scope(Some(env), ForFrame(e.variable, e.index, items[i], i), false);
    ForKnown(k, full, ViewAt(h, sp, env), e);
    AddedScope(k, full, h, sp, x);
    ViewPrefix(h, WithScope(h, x), sp, env);
    assert x.vars.Keys == ForNames(e.variable, e.index);
  }

  // ----- calls -----

  lemma {:induction false} CallExprEnds(k: Config, full: bool, fuel: nat, env: nat, depth: nat, e: Expr, h: Heap, sp: Declarations)
    returns (sp': Declarations)
    requires Entries(k, full) && Stands(k, full, h, sp, env, e) && !TooDeep(k, depth) && e.Call?
    ensures Ends(k, full, h, sp, RunExpr(k, fuel, env, depth, e, h), sp')
    decreases fuel, 0, e, 0
  {
    hide Sane, Later, ViewAt, Known, KnownAll, Entries, RunList, RunRounds, RunCall, FewParams;
    var v, a := ViewAt(h, sp, env), RunList(k, fuel, env, depth, e.args, h);
    if full && Arguments.ReduceCall(k, v.ns, e.fn, e.args) {
      ReduceKnown(k, v, e);
      sp' := ReduceListEnds(k, fuel, env, depth, e.args, h, sp);
    } else {
      CallKnown(k, full, v, e);
      sp' := ListEnds(k, full, fuel, env, depth, e.args, h, sp);
    }
    if a.out.Val? && fuel > 0 {
      var sp1 := sp';
      StandsLater(k, full, h, sp, a.h, sp1, env, e);
      SameSpace(full, h, sp, a.h, sp1, env);
      if full && Arguments.ReduceCall(k, v.ns, e.fn, e.args) {
        sp' := ReduceCallEnds(k, fuel - 1, env, depth, e, a.out.v.elems, a.h, sp1);
      } else {
        CallKnown(k, full, ViewAt(a.h, sp1, env), e);
        sp' := CallEnds(k, full, fuel - 1, env, depth, e.fn, a.out.v.elems, a.h, sp1);
      }
      EndsAfter(k, full, h, sp, a.h, sp1, RunCall(k, fuel - 1, env, depth, e.fn, a.out.v.elems, a.h), sp');
    }
  }

  lemma SameSpace(full: bool, h: Heap, sp: Declarations, h': Heap, sp': Declarations, r: nat)
    requires Later(full, h, sp, h', sp') && r < |h.scopes|
    ensures ViewAt(h', sp', r).ns == ViewAt(h, sp, r).ns
  {
    ViewLater(full, h, sp, h', sp', r);
  }

  lemma CallKnown(k: Config, full: bool, v: View, e: Expr)
    requires Known(k, full, v, e) && e.Call? && !(full && Arguments.ReduceCall(k, v.ns, e.fn, e.args))
    ensures KnownAll(k, full, v, e.args) && CallOk(k, e.fn, v.uses) && (full ==> Arguments.CallSupplied(k, v.ns, e.fn, |e.args|))
  {
    hide Arguments.ReduceCall, Arguments.CallSupplied, CallOk;
    if full { SuppliedEach(k, v.ns, e.args); }
  }

  lemma ReduceKnown(k: Config, v: View, e: Expr)
    requires Known(k, true, v, e) && e.Call? && Arguments.ReduceCall(k, v.ns, e.fn, e.args)
    ensures KnownAll(k, true, v, e.args[..2]) && CallOk(k, e.fn, v.uses) && PassedLambda(k, v, e.args[2])
  {
    hide Arguments.CallSupplied, CallOk, OnlyHof;
    SuppliedEach(k, v.ns, e.args[..2]);
    assert Soundness.NoUses(e.args[2]) && VarsOk(e.args[2], v.names) && CallsOk(k, e.args[2], v.uses);
  }

  /** A closure of two parameters at most, written as an argument. */
  ghost predicate PassedLambda(k: Config, v: View, e: Expr) {
    e.Lambda? && |e.params| <= 2 && USES !in e.params && Known(k, true, Wider(v, Names(e.params)), e.body)
  }

  predicate ReduceParams(f: Value, h: Heap) {
    f.Clo? && f.id < |h.clos| && |h.clos[f.id].params| <= 2
  }

  lemma {:induction false} ReduceListEnds(k: Config, fuel: nat, env: nat, depth: nat, es: seq<Expr>, h: Heap, sp: Declarations)
    returns (sp': Declarations)
    requires es != [] && Entries(k, true) && AllStand(k, true, h, sp, env, es[..|es| - 1]) && !TooDeep(k, depth)
    requires PassedLambda(k, ViewAt(h, sp, env), es[|es| - 1])
    ensures var r := RunList(k, fuel, env, depth, es, h);
      && Went(k, true, h, sp, r, sp')
      && (r.out.Val? ==>
            Arguments.WithinAll(r.out.v.elems[..|es| - 1], FewParams(r.h)) && ReduceParams(r.out.v.elems[|es| - 1], r.h))
    decreases fuel, 0, es, 0
  {
    hide Sane, Later, ViewAt, Known, Entries, FewParams;
    if |es| == 1 {
      sp' := sp;
      assert es[1..] == [];
      Captured(k, true, h, sp, env, depth, es[0].params, es[0].body);
    } else {
      hide RunExpr, PassedLambda;
      assert es[..|es| - 1][0] == es[0] && es[1..][..|es| - 2] == es[..|es| - 1][1..];
      assert AllStand(k, true, h, sp, env, es[1..][..|es| - 2]);
      sp' := ExprEnds(k, true, fuel, env, depth, es[0], h, sp);
      var a, sp1 := RunExpr(k, fuel, env, depth, es[0], h), sp';
      if a.out.Val? {
        AllStandLater(k, true, h, sp, a.h, sp1, env, es[1..][..|es| - 2]);
        PassedLater(k, h, sp, a.h, sp1, env, es[|es| - 1]);
        sp' := ReduceListEnds(k, fuel, env, depth, es[1..], a.h, sp1);
        var b := RunList(k, fuel, env, depth, es[1..], a.h);
        LaterTrans(true, h, sp, a.h, sp1, b.h, sp');
        if b.out.Val? {
          WithinLater(true, a.h, sp1, b.h, sp', [a.out.v]);
          var vs := [a.out.v] + b.out.v.elems;
          assert vs[..|es| - 1] == [a.out.v] + b.out.v.elems[..|es| - 2];
        }
      }
    }
  }

  lemma PassedLater(k: Config, h: Heap, sp: Declarations, h': Heap, sp': Declarations, env: nat, e: Expr)
    requires PassedLambda(k, ViewAt(h, sp, env), e) && Later(true, h, sp, h', sp') && env < |h.scopes|
    ensures PassedLambda(k, ViewAt(h', sp', env), e)
  {
    hide Known, Later, ViewAt;
    KnownLater(k, true, h, sp, h', sp', env, Names(e.params), e.body);
  }

  lemma {:induction false} ReduceCallEnds(k: Config, fuel: nat, env: nat, depth: nat, e: Expr, args: seq<Value>,
                                          h: Heap, sp: Declarations)
    returns (sp': Declarations)
    requires Entries(k, true) && Stands(k, true, h, sp, env, e) && e.Call? && |args| == 3
    requires Arguments.ReduceCall(k, ViewAt(h, sp, env).ns, e.fn, e.args)
    requires Arguments.WithinAll(args[..2], FewParams(h)) && ReduceParams(args[2], h)
    ensures Ends(k, true, h, sp, RunCall(k, fuel, env, depth, e.fn, args, h), sp')
    decreases fuel, 3
  {
    hide Sane, Later, Known, Entries, RunHof, FewParams, ViewAt, Arguments.WithinAll;
    sp' := sp;
    LaterSelf(true, h, sp);
    ReduceKnown(k, ViewAt(h, sp, env), e);
    GetUses(k, true, h, sp, env);
    var us := UsesOf(Get(h.scopes, env, USES));
    var t := Resolve(k, us, e.fn);
    Soundness.ResolveFinds(k, us, e.fn);
    assert HofTarget(t, 3);
    if t.BuiltinTarget? && !(t.checked && BadArity(t.b, |args|)) {
      assert HofServed(t.b.kind.hof, args, h) by { TwoArgs(args, FewParams(h)); }
      sp' := HofEnds(k, true, fuel, t.b.kind.hof, args, h, sp);
    }
  }

  lemma TwoArgs(args: seq<Value>, ids: set<nat>)
    requires |args| == 3 && Arguments.WithinAll(args[..2], ids)
    ensures Arguments.Within(args[0], ids) && Arguments.Within(args[1], ids)
  {
    assert args[..2][0] == args[0] && args[..2][1] == args[1];
  }

  lemma {:induction false} CallEnds(k: Config, full: bool, fuel: nat, env: nat, depth: nat, name: string, args: seq<Value>,
                                    h: Heap, sp: Declarations)
    returns (sp': Declarations)
    requires Entries(k, full) && Sane(k, full, h, sp) && env < |h.scopes| && CallOk(k, name, ViewAt(h, sp, env).uses)
    requires full ==> Arguments.WithinAll(args, FewParams(h)) && Arguments.CallSupplied(k, ViewAt(h, sp, env).ns, name, |args|)
    ensures Ends(k, full, h, sp, RunCall(k, fuel, env, depth, name, args, h), sp')
    decreases fuel, 3
  {
    hide Sane, Later, RunHof, RunUser, FewParams, ViewAt, CallOk, GoodEntry;
    sp' := sp;
    LaterSelf(full, h, sp);
    GetUses(k, full, h, sp, env);
    var us := UsesOf(Get(h.scopes, env, USES));
    var t := Resolve(k, us, name);
    Soundness.ResolveFinds(k, us, name);
    ResolvedFrom(k, us, name);
    if IsDebugName(name) {
      Logged(k, full, h, sp, DebugEntry(name, args));
    } else if t.UserTarget? {
      assert full ==> Arguments.EnoughFor(t, |args|);
      sp' := UserEnds(k, full, fuel, depth, t.f, args, h, sp);
    } else if t.b.kind.HigherOrder? && !(t.checked && BadArity(t.b, |args|)) {
      assert full ==> HofServed(t.b.kind.hof, args, h) by { if full { ArgsFit(t.b.kind.hof, args, h); } }
      sp' := HofEnds(k, full, fuel, t.b.kind.hof, args, h, sp);
    } else if full && t.b.kind.Plain? {
      assert Arguments.BuiltinPassesOn(t.b.kind.f);
    }
  }

  lemma Logged(k: Config, full: bool, h: Heap, sp: Declarations, entry: Entry)
    requires Sane(k, full, h, sp)
    ensures var h' := h.(log := h.log + [entry]); Sane(k, full, h', sp) && Later(full, h, sp, h', sp) && FewParams(h') == FewParams(h)
  {
    hide WellFormed;
    LogKeeps(h, entry);
    FlagsOnly(k, full, h, sp, h.(log := h.log + [entry]));
  }

  /** No more parameters than a collection builtin passes. */
  predicate CallableBy(hof: Hof, f: Value, h: Heap) {
    f.Clo? ==> f.id < |h.clos| && |h.clos[f.id].params| <= HofArity(hof) - 1
  }

  predicate HofServed(hof: Hof, args: seq<Value>, h: Heap) {
    && (forall i :: 0 <= i < |args| && i < HofArity(hof) - 1 ==> Arguments.Within(args[i], FewParams(h)))
    && (|args| >= HofArity(hof) ==> CallableBy(hof, args[HofArity(hof) - 1], h))
  }

  lemma ArgsFit(hof: Hof, args: seq<Value>, h: Heap)
    requires Arguments.WithinAll(args, FewParams(h))
    ensures HofServed(hof, args, h)
  {
    assert forall i :: 0 <= i < |args| && args[i].Clo? ==> args[i].id in FewParams(h);
  }

  lemma {:induction false} HofEnds(k: Config, full: bool, fuel: nat, hof: Hof, args: seq<Value>, h: Heap, sp: Declarations)
    returns (sp': Declarations)
    requires Entries(k, full) && Sane(k, full, h, sp) && (full ==> HofServed(hof, args, h))
    ensures Ends(k, full, h, sp, RunHof(k, fuel, hof, args, h), sp')
    decreases fuel, 2, 1
  {
    hide Entries, Sane, Later, FewParams, RunLoop;
    sp' := sp;
    LaterSelf(full, h, sp);
    if |args| >= HofArity(hof) && args[0].Arr? {
      sp' := LoopEnds(k, full, fuel, hof, args[HofArity(hof) - 1], args[0].elems, HofInit(hof, args), h, sp);
    }
  }

  lemma {:induction false} LoopEnds(k: Config, full: bool, fuel: nat, hof: Hof, f: Value, items: seq<Value>, acc: Value,
                                    h: Heap, sp: Declarations)
    returns (sp': Declarations)
    requires Entries(k, full) && Sane(k, full, h, sp)
    requires full ==> CallableBy(hof, f, h) && Arguments.WithinAll([acc] + items, FewParams(h))
    ensures Ends(k, full, h, sp, RunLoop(k, fuel, hof, f, items, acc, h), sp')
    decreases fuel, 2, 0, |items|
  {
    hide Entries, Sane, Later, FewParams, RunLambda, Arguments.WithinAll, CallableBy;
    sp' := sp;
    LaterSelf(full, h, sp);
    if full { LoopArgs(hof, f, items, acc, h); }
    if items != [] {
      var args := HofArgs(hof, acc, items[0]);
      var sp1 := LambdaEnds(k, full, fuel, f, args, h, sp);
      var a := RunLambda(k, fuel, f, args, h);
      sp' := sp1;
      if a.out.Val? {
        var acc' := HofStep(hof, acc, items[0], a.out.v);
        if full { LoopLater(hof, f, items, acc, h, sp, a, sp1); }
        sp' := LoopEnds(k, full, fuel, hof, f, items[1..], acc', a.h, sp1);
        EndsAfter(k, full, h, sp, a.h, sp1, RunLoop(k, fuel, hof, f, items[1..], acc', a.h), sp');
      }
    }
  }

  lemma LoopArgs(hof: Hof, f: Value, items: seq<Value>, acc: Value, h: Heap)
    requires CallableBy(hof, f, h) && Arguments.WithinAll([acc] + items, FewParams(h))
    ensures Arguments.Within(acc, FewParams(h))
    ensures items != [] ==>
      var args := HofArgs(hof, acc, items[0]);
      Arguments.WithinAll(args, FewParams(h)) && (f.Clo? ==> f.id < |h.clos| && |h.clos[f.id].params| <= |args|)
  {
    hide FewParams;
    assert ([acc] + items)[0] == acc;
    if items != [] { assert ([acc] + items)[1] == items[0]; }
  }

  lemma LoopLater(hof: Hof, f: Value, items: seq<Value>, acc: Value, h: Heap, sp: Declarations, a: Ran, sp1: Declarations)
    requires CallableBy(hof, f, h) && items != [] && Arguments.WithinAll([acc] + items, FewParams(h))
    requires Later(true, h, sp, a.h, sp1) && a.out.Val? && Arguments.Within(a.out.v, FewParams(a.h))
    ensures CallableBy(hof, f, a.h)
    ensures Arguments.WithinAll([HofStep(hof, acc, items[0], a.out.v)] + items[1..], FewParams(a.h))
  {
    hide FewParams;
    if f.Clo? { assert SameText(h.clos[f.id], a.h.clos[f.id]); }
    WithinLater(true, h, sp, a.h, sp1, [acc] + items);
    var all := [acc] + items;
    assert all[0] == acc && all[1] == items[0];
    assert forall i :: 0 <= i < |items[1..]| ==> items[1..][i] == all[i + 2];
  }

  lemma {:induction false} LambdaEnds(k: Config, full: bool, fuel: nat, f: Value, args: seq<Value>, h: Heap, sp: Declarations)
    returns (sp': Declarations)
    requires Entries(k, full) && Sane(k, full, h, sp)
    requires full ==> Arguments.WithinAll(args, FewParams(h)) && (f.Clo? ==> f.id < |h.clos| && |h.clos[f.id].params| <= |args|)
    ensures Ends(k, full, h, sp, RunLambda(k, fuel, f, args, h), sp')
    decreases fuel, 1
  {
    hide Entries, Sane, Later, FewParams, RunExpr, Enter, Leave, ArgScope, ViewAt, Known;
    sp' := sp;
    LaterSelf(full, h, sp);
    if f.Clo? && f.id < |h.clos| {
      var c := h.clos[f.id];
      var vars := Bind(c.params, args);
      var h1 := Enter(h, f.id, vars);
      BoundNames(full, c.params, args, FewParams(h));
      Entered(k, full, h, sp, f.id, vars);
      LaterThere(full, h, sp, h1, sp, f.id);
      var a := Ran(Err(MaxDepth), h1);
      if !TooDeep(k, c.depth + 1) {
        a := RunExpr(k, fuel, ArgScope(h, f.id), c.depth + 1, c.body, h1);
        sp' := ExprEnds(k, full, fuel, ArgScope(h, f.id), c.depth + 1, c.body, h1, sp);
        EndsAfter(k, full, h, sp, h1, sp, a, sp');
      }
      if !c.inCall {
        SaneWell(k, full, h, sp);
        LambdaKeeps(k, fuel, f, args, h);
        Left(k, full, f.id, h, sp, a, sp');
      }
    }
  }

  lemma SaneWell(k: Config, full: bool, h: Heap, sp: Declarations)
    requires Sane(k, full, h, sp)
    ensures WellFormed(h)
  {
  }

  lemma LaterThere(full: bool, h: Heap, sp: Declarations, h': Heap, sp': Declarations, id: nat)
    requires Later(full, h, sp, h', sp') && id < |h.clos|
    ensures id < |h'.clos|
  {
  }

  lemma BoundNames(full: bool, params: seq<string>, args: seq<Value>, ids: set<nat>)
    requires full ==> |params| <= |args| && Arguments.WithinAll(args, ids)
    ensures Bind(params, args).Keys <= Names(params)
    ensures full ==> Bind(params, args).Keys == Names(params) && Arguments.FrameWithin(Bind(params, args), ids)
  {
    hide Arguments.WithinAll, Arguments.FrameWithin;
    if full { Arguments.BindWithin(params, args, |params|, ids); }
  }

  /** The guard comes down, and nothing else changes. */
  lemma Left(k: Config, full: bool, id: nat, h: Heap, sp: Declarations, a: Ran, sp': Declarations)
    requires Ends(k, full, h, sp, a, sp') && WellFormed(Leave(a.h, id))
    ensures Ends(k, full, h, sp, Ran(a.out, Leave(a.h, id)), sp')
  {
    hide WellFormed, ScopesFit, LambdasFit, Later;
    var h' := Leave(a.h, id);
    FlagsOnly(k, full, a.h, sp', h');
    LaterTrans(full, h, sp, a.h, sp', h', sp');
    FewParamsLater(full, a.h, sp', h', sp');
    if full && a.out.Val? { Arguments.WithinMore(a.out.v, FewParams(a.h), FewParams(h')); }
  }

  // ----- user functions -----

  /** A function scope in which these names are bound and these namespaces are in force. */
  ghost predicate Opened(k: Config, full: bool, h: Heap, sp: Declarations, env: nat, vars: set<string>, uses: seq<string>, ns: Spaces) {
    && Sane(k, full, h, sp) && FunctionScope(h, env)
    && var v := ViewAt(h, sp, env);
    v.uses == uses && v.ns == ns && (full ==> vars <= v.names) && (!full ==> ns == None)
  }

  lemma {:induction false} UserEnds(k: Config, full: bool, fuel: nat, depth: nat, f: FnDef, args: seq<Value>, h: Heap, sp: Declarations)
    returns (sp': Declarations)
    requires Entries(k, full) && Sane(k, full, h, sp) && GoodEntry(k, full, f)
    requires full ==> Arguments.WithinAll(args, FewParams(h)) && Arguments.EnoughFor(UserTarget(f), |args|)
    ensures Ends(k, full, h, sp, RunUser(k, fuel, depth, f, args, h), sp')
    decreases fuel, 2, 0, 0
  {
    hide Entries, Sane, Later, FewParams, RunParams, RunBody, ViewAt, Declared, Arguments.Supplied, Clean, Soundness.NoUsesStmt;
    var ns := if full then Declared(f) else None;
    var env, h1 := |h.scopes|, WithBase(h);
    var sp1 := AddedBase(k, full, h, sp, ns);
    sp' := sp1;
    if !TooDeep(k, depth + 1) {
      if full { WithinLater(full, h, sp, h1, sp1, args); }
      ParamsEnds(k, full, fuel, env, depth + 1, f.params, args, {}, ns, h1, sp1);
      var p := RunParams(k, fuel, env, depth + 1, f.params, args, h1);
      LaterTrans(full, h, sp, h1, sp1, p.h, sp1);
      if p.out.Val? {
        FunctionBody(k, full, f);
        sp' := BodyEnds(k, full, fuel, env, depth + 1, f.body, Null, ParamNames(f.params), [], ns, p.h, sp1);
        EndsAfter(k, full, h, sp, p.h, sp1, RunBody(k, fuel, env, depth + 1, f.body, Null, p.h), sp');
      }
    }
  }

  lemma FunctionBody(k: Config, full: bool, f: FnDef)
    requires GoodEntry(k, full, f)
    ensures BodyErrors(k, f.body, ParamNames(f.params), []) == []
    ensures forall i :: 0 <= i < |f.body| ==> Soundness.NoUsesStmt(f.body[i])
    ensures full ==> Arguments.SuppliedStmts(k, Declared(f), f.body)
  {
    hide Arguments.Supplied, Declared;
    if full { Arguments.SuppliedBody(k, f); }
  }

  lemma {:induction false} ParamsEnds(k: Config, full: bool, fuel: nat, env: nat, depth: nat, params: seq<Param>, args: seq<Value>,
                                      vars: set<string>, ns: Spaces, h: Heap, sp: Declarations)
    requires Opened(k, full, h, sp, env, vars, [], ns) && Soundness.PlainParams(params)
    requires full ==> Arguments.WithinAll(args, FewParams(h)) && forall i :: |args| <= i < |params| ==> params[i].default.Some?
    ensures var r := RunParams(k, fuel, env, depth, params, args, h);
      && Ends(k, full, h, sp, r, sp)
      && (r.out.Val? ==> Opened(k, full, r.h, sp, env, vars + ParamNames(params), [], ns))
    decreases params
  {
    hide Sane, Later, FewParams, ViewAt, WithVar, Arguments.WithinAll;
    LaterSelf(full, h, sp);
    if params == [] {
      assert vars + ParamNames(params) == vars;
    } else {
      var p := params[0];
      FirstParam(params);
      if args != [] {
        if full { FirstWithin(args, FewParams(h)); }
        ParamBound(k, full, h, sp, env, vars, ns, p.name, args[0], args[1..]);
        var h1 := WithVar(h, env, p.name, args[0]);
        ParamsEnds(k, full, fuel, env, depth, params[1..], args[1..], vars + {p.name}, ns, h1, sp);
        EndsAfter(k, full, h, sp, h1, sp, RunParams(k, fuel, env, depth, params[1..], args[1..], h1), sp);
      } else if p.default.Some? {
        DefaultRuns(k, fuel, env, depth, p, h);
        if !TooDeep(k, depth) {
          var v := LitValue(p.default.value.lit);
          var h1 := WithVar(h, env, p.name, v);
          ParamBound(k, full, h, sp, env, vars, ns, p.name, v, []);
          ParamsEnds(k, full, fuel, env, depth, params[1..], [], vars + {p.name}, ns, h1, sp);
          EndsAfter(k, full, h, sp, h1, sp, RunParams(k, fuel, env, depth, params[1..], [], h1), sp);
        }
      } else {
        ParamsEnds(k, full, fuel, env, depth, params[1..], [], vars, ns, h, sp);
      }
    }
  }

  lemma FirstParam(params: seq<Param>)
    requires params != []
    ensures Soundness.PlainParams(params) ==> Soundness.PlainParams(params[1..]) && params[0].name != USES
    ensures ParamNames(params) == {params[0].name} + ParamNames(params[1..])
  {
    assert forall i :: 0 < i < |params| ==> params[i] == params[1..][i - 1];
    forall x | x in ParamNames(params) ensures x in {params[0].name} + ParamNames(params[1..]) {
      var i :| 0 <= i < |params| && params[i].name == x;
      if i > 0 { assert params[1..][i - 1].name == x; }
    }
  }

  lemma FirstWithin(args: seq<Value>, ids: set<nat>)
    requires args != [] && Arguments.WithinAll(args, ids)
    ensures Arguments.Within(args[0], ids) && Arguments.WithinAll(args[1..], ids)
  {
  }

  lemma DefaultRuns(k: Config, fuel: nat, env: nat, depth: nat, p: Param, h: Heap)
    requires p.default.Some? && p.default.value.Lit?
    ensures RunBinding(k, fuel, env, depth, p.name, p.default.value, h) ==
      if TooDeep(k, depth) then Ran(Err(MaxDepth), h)
      else Ran(Val(LitValue(p.default.value.lit)), WithVar(h, env, p.name, LitValue(p.default.value.lit)))
  {
  }

  lemma ParamBound(k: Config, full: bool, h: Heap, sp: Declarations, env: nat, vars: set<string>, ns: Spaces, x: string, v: Value, rest: seq<Value>)
    requires Opened(k, full, h, sp, env, vars, [], ns) && x != USES
    requires full ==> Arguments.Within(v, FewParams(h)) && Arguments.WithinAll(rest, FewParams(h))
    ensures var h' := WithVar(h, env, x, v);
      && Opened(k, full, h', sp, env, vars + {x}, [], ns) && Later(full, h, sp, h', sp)
      && (full ==> Arguments.WithinAll(rest, FewParams(h')))
  {
    hide Sane, Later, ViewAt, WithVar, FewParams;
    AddedVar(k, full, h, sp, env, x, v);
    if full { WithinLater(full, h, sp, WithVar(h, env, x, v), sp, rest); }
  }

  /** A clean body runs to its end with the scope the compiler saw, statement by statement. */
  lemma {:induction false} BodyEnds(k: Config, full: bool, fuel: nat, env: nat, depth: nat, stmts: seq<Stmt>, result: Value,
                                    vars: set<string>, uses: seq<string>, ns: Spaces, h: Heap, sp: Declarations)
    returns (sp': Declarations)
    requires Entries(k, full) && Opened(k, full, h, sp, env, vars, uses, ns) && BodyErrors(k, stmts, vars, uses) == []
    requires forall i :: 0 <= i < |stmts| ==> Soundness.NoUsesStmt(stmts[i])
    requires full ==> Arguments.SuppliedStmts(k, ns, stmts) && Arguments.Within(result, FewParams(h))
    ensures Ends(k, full, h, sp, RunBody(k, fuel, env, depth, stmts, result, h), sp')
    decreases fuel, 1, stmts, 1
  {
    hide Entries, Sane, Later, FewParams, RunStmt, ViewAt, StmtErrors, Soundness.NoUsesStmt, Arguments.SuppliedStmt, BodyErrors;
    sp' := sp;
    LaterSelf(full, h, sp);
    if stmts != [] {
      BodyStep(k, stmts, vars, uses);
      var sp1 := StmtEnds(k, full, fuel, env, depth, stmts[0], vars, uses, ns, h, sp);
      var a := RunStmt(k, fuel, env, depth, stmts[0], h);
      sp' := sp1;
      if a.out.Val? {
        sp' := BodyEnds(k, full, fuel, env, depth, stmts[1..], a.out.v, VarsAfter(stmts[0], vars), UsesAfter(stmts[0], uses), ns, a.h, sp1);
        EndsAfter(k, full, h, sp, a.h, sp1, RunBody(k, fuel, env, depth, stmts[1..], a.out.v, a.h), sp');
      }
    }
  }

  lemma {:induction false} StmtEnds(k: Config, full: bool, fuel: nat, env: nat, depth: nat, stmt: Stmt,
                                    vars: set<string>, uses: seq<string>, ns: Spaces, h: Heap, sp: Declarations)
    returns (sp': Declarations)
    requires Entries(k, full) && Opened(k, full, h, sp, env, vars, uses, ns)
    requires StmtErrors(k, stmt, vars, uses) == [] && Soundness.NoUsesStmt(stmt)
    requires full ==> Arguments.SuppliedStmt(k, ns, stmt)
    ensures var r := RunStmt(k, fuel, env, depth, stmt, h);
      && Ends(k, full, h, sp, r, sp')
      && (r.out.Val? ==> Opened(k, full, r.h, sp', env, VarsAfter(stmt, vars), UsesAfter(stmt, uses), ns))
    decreases fuel, 1, stmt, 0
  {
    hide Entries, Sane, Later, FewParams, RunExpr, ViewAt, Arguments.Supplied, Soundness.NoUses, WithVar, Errors;
    sp' := sp;
    LaterSelf(full, h, sp);
    if !TooDeep(k, depth) {
      if stmt.Use? {
        Used(k, full, env, stmt.ns, vars, uses, ns, h, sp);
      } else {
        sp' := ValueEnds(k, full, fuel, env, depth, stmt.value, vars, uses, ns, h, sp);
        var a := RunExpr(k, fuel, env, depth, stmt.value, h);
        if stmt.Let? && a.out.Val? {
          LetBound(k, full, a.h, sp', env, vars, uses, ns, stmt.name, a.out.v);
          LaterTrans(full, h, sp, a.h, sp', WithVar(a.h, env, stmt.name, a.out.v), sp');
        }
      }
    }
  }

  lemma LetBound(k: Config, full: bool, h: Heap, sp: Declarations, env: nat, vars: set<string>, uses: seq<string>, ns: Spaces, x: string, v: Value)
    requires Opened(k, full, h, sp, env, vars, uses, ns) && x != USES && (full ==> Arguments.Within(v, FewParams(h)))
    ensures var h' := WithVar(h, env, x, v); Opened(k, full, h', sp, env, vars + {x}, uses, ns) && Later(full, h, sp, h', sp)
  {
    hide Sane, Later, ViewAt, WithVar, FewParams;
    AddedVar(k, full, h, sp, env, x, v);
  }

  /** The value of a statement; the function's own scope is as before. */
  lemma {:induction false} ValueEnds(k: Config, full: bool, fuel: nat, env: nat, depth: nat, e: Expr,
                                     vars: set<string>, uses: seq<string>, ns: Spaces, h: Heap, sp: Declarations)
    returns (sp': Declarations)
    requires Entries(k, full) && Opened(k, full, h, sp, env, vars, uses, ns)
    requires Errors(k, e, vars, uses) == [] && Soundness.NoUses(e) && (full ==> Arguments.Supplied(k, ns, e))
    ensures var r := RunExpr(k, fuel, env, depth, e, h);
      Ends(k, full, h, sp, r, sp') && Opened(k, full, r.h, sp', env, vars, uses, ns)
    decreases fuel, 0, e, 3
  {
    hide Entries, Sane, Later, FewParams, RunExpr, Arguments.Supplied, Soundness.NoUses, VarsOk, CallsOk, Errors;
    NoErrors(k, e, vars, uses);
    if full { MoreNames(e, vars, ViewAt(h, sp, env).names); }
    sp' := ExprEnds(k, full, fuel, env, depth, e, h, sp);
    var h' := RunExpr(k, fuel, env, depth, e, h).h;
    OwnScopeKept(k, full, fuel, env, depth, e, h, sp);
    SpaceKept(full, h, sp, h', sp', env);
  }

  lemma OwnScopeKept(k: Config, full: bool, fuel: nat, env: nat, depth: nat, e: Expr, h: Heap, sp: Declarations)
    requires Sane(k, full, h, sp) && FunctionScope(h, env)
    ensures var h' := RunExpr(k, fuel, env, depth, e, h).h; env < |h'.scopes| && h'.scopes[env] == h.scopes[env]
  {
    hide RunExpr, WellFormed;
    ExprKeeps(k, fuel, env, depth, e, h);
    NotScratch(h, env);
  }

  lemma SpaceKept(full: bool, h: Heap, sp: Declarations, h': Heap, sp': Declarations, r: nat)
    requires Later(full, h, sp, h', sp') && r < |h.scopes|
    ensures SpaceOf(sp', r) == SpaceOf(sp, r)
  {
  }

  lemma Used(k: Config, full: bool, env: nat, name: string, vars: set<string>, uses: seq<string>, ns: Spaces, h: Heap, sp: Declarations)
    requires Opened(k, full, h, sp, env, vars, uses, ns) && (full ==> ns.None? || name in ns.value)
    ensures var v := Arr(UsesOf(Get(h.scopes, env, USES)) + [Str(name)]); var h' := WithVar(h, env, USES, v);
      && Opened(k, full, h', sp, env, vars, uses + [name], ns) && Later(full, h, sp, h', sp) && FewParams(h') == FewParams(h)
  {
    hide Sane, Later, FewParams;
    GetUses(k, full, h, sp, env);
    var us := UsesOf(Get(h.scopes, env, USES));
    var all := us + [Str(name)];
    assert Soundness.AllStr(all) && Soundness.Strs(all) == Soundness.Strs(us) + [name];
    if full {
      GetWithin(h, sp, env, USES) by { SaneScopes(k, full, h, sp); }
      assert Arguments.Within(Arr(all), FewParams(h));
    }
    AddedVar(k, full, h, sp, env, USES, Arr(all));
    SameParams(h, WithVar(h, env, USES, Arr(all)));
  }

  lemma SaneScopes(k: Config, full: bool, h: Heap, sp: Declarations)
    requires Sane(k, full, h, sp)
    ensures ScopesFit(full, h, sp)
  {
  }

  lemma SameParams(h: Heap, h': Heap)
    requires h'.clos == h.clos
    ensures FewParams(h') == FewParams(h)
  {
  }

  // ----- whole runs -----

  lemma {:induction false} NamedEnds(k: Config, full: bool, fuel: nat, env: nat, params: seq<Param>, args: Frame,
                                     vars: set<string>, ns: Spaces, h: Heap, sp: Declarations)
    requires Opened(k, full, h, sp, env, vars, [], ns) && Soundness.PlainParams(params)
    requires full ==> Arguments.FrameWithin(args, {})
    ensures var r := RunNamed(k, fuel, env, params, args, h);
      && Ends(k, full, h, sp, r, sp)
      && (r.out.Val? ==> Opened(k, full, r.h, sp, env, vars + ParamNames(params), [], ns))
    decreases params
  {
    hide Sane, Later, FewParams, ViewAt, WithVar;
    LaterSelf(full, h, sp);
    if params == [] {
      assert vars + ParamNames(params) == vars;
    } else {
      var p := params[0];
      FirstParam(params);
      var v := if p.name in args then args[p.name] else if p.default.Some? then LitValue(p.default.value.lit) else Null;
      if full && p.name in args { Arguments.WithinMore(args[p.name], {}, FewParams(h)); }
      if p.name !in args && p.default.Some? { DefaultRuns(k, fuel, env, 0, p, h); }
      if p.name in args || p.default.None? || !TooDeep(k, 0) {
        var h1 := WithVar(h, env, p.name, v);
        ParamBound(k, full, h, sp, env, vars, ns, p.name, v, []);
        NamedEnds(k, full, fuel, env, params[1..], args, vars + {p.name}, ns, h1, sp);
        EndsAfter(k, full, h, sp, h1, sp, RunNamed(k, fuel, env, params[1..], args, h1), sp);
      }
    }
  }

  lemma {:induction false} ExecuteTold(k: Config, full: bool, fuel: nat, f: FnDef, args: Frame)
    requires Entries(k, full) && GoodEntry(k, full, f) && (full ==> Arguments.FrameWithin(args, {}))
    ensures Told(full, RunExecute(k, fuel, f, args).out)
  {
    hide Entries, Sane, Later, FewParams, RunNamed, RunBody, ViewAt, Declared, Arguments.Supplied, Clean, Soundness.NoUsesStmt;
    var ns := if full then Declared(f) else None;
    EmptySane(k, full);
    var sp := AddedBase(k, full, EMPTY, map[], ns);
    var h := WithBase(EMPTY);
    NamedEnds(k, full, fuel, 0, f.params, args, {}, ns, h, sp);
    var p := RunNamed(k, fuel, 0, f.params, args, h);
    if p.out.Val? {
      FunctionBody(k, full, f);
      var _ := BodyEnds(k, full, fuel, 0, 0, f.body, Null, ParamNames(f.params), [], ns, p.h, sp);
    }
  }

  lemma EmptySane(k: Config, full: bool)
    ensures Sane(k, full, EMPTY, map[])
  {
  }

  /** Call soundness of the executor: whatever a clean function over a clean table is called
      with, and however its argument scopes are rebound, no run of it ends in a call that is
      not defined. */
  lemma RunsFindTheirCallees(k: Config, fuel: nat, f: FnDef, args: Frame)
    requires Soundness.GoodTable(k) && Soundness.GoodFn(k, f)
    ensures var r := RunExecute(k, fuel, f, args).out; r.Err? ==> !r.e.NotDefined?
  {
    hide RunExecute, Soundness.GoodFn;
    ExecuteTold(k, false, fuel, f, args);
  }

  /** With enough arguments at every call and no `$` names it ends in no undefined variable
      either. */
  lemma RunsFindTheirNames(k: Config, fuel: nat, f: FnDef, args: Frame)
    requires Arguments.SuppliedTable(k) && Arguments.SuppliedFn(k, f) && Arguments.FrameWithin(args, {})
    ensures var r := RunExecute(k, fuel, f, args).out; r.Err? ==> !r.e.NotDefined? && !r.e.Undefined?
  {
    hide RunExecute, Soundness.GoodFn;
    SuppliedEntries(k, f);
    ExecuteTold(k, true, fuel, f, args);
  }

  lemma SuppliedEntries(k: Config, f: FnDef)
    requires Arguments.SuppliedTable(k) && Arguments.SuppliedFn(k, f)
    ensures Entries(k, true) && GoodEntry(k, true, f)
  {
    hide Arguments.PassOn, Arguments.Supplied, Declared, Soundness.GoodFn;
    forall n | n in k.fns ensures GoodEntry(k, true, k.fns[n]) {
      assert Arguments.SuppliedFn(k, k.fns[n]);
    }
  }
}
