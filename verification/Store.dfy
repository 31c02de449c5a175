/** The executor's mutable heap: scopes and lambda objects, and what has to be
    true of them for scope reuse to be invisible. */
module Store {
  import opened Wrappers
  import opened Syntax
  import opened Lexical

  /** A scope object, its inline and spill storage read as one map. */
  datatype Scope = Scope(parent: Option<nat>, vars: Frame, reusable: bool)

  /** A lambda object with its argument scope and reentrancy guard. */
  datatype LambdaObj = LambdaObj(params: seq<string>, body: Expr, env: nat, depth: nat,
                                 scratch: Option<nat>, inCall: bool)

  /** `phi` lists the objects that are function scopes, in the order they were made, and
      `live` the calls in progress that run in their lambda's own scope, the latest last. */
  datatype Heap = Heap(scopes: seq<Scope>, clos: seq<LambdaObj>, log: seq<Entry>, phi: seq<nat>, live: seq<nat>)

  // ----- where lambdas may stand -----

  /** Where an expression is evaluated.  In a program whose closures may be kept: outside
      every lambda of its function, directly in a lambda's scope, or in a `for` scope over
      a lambda's scope.  `Passing` is anywhere in a program whose lambdas are all written
      as arguments, so that none is called after the call it was written for. */
  datatype Mode = Outside | InLambda | InForInLambda | Passing

  function ForMode(m: Mode): Mode {
    if m == InLambda then InForInLambda else m
  }

  function BodyMode(m: Mode): Mode {
    if m == Passing then Passing else InLambda
  }

  function TopMode(kept: bool): Mode {
    if kept then Outside else Passing
  }

  /** No lambda stands in a `for` body that itself stands in a lambda. */
  predicate Placed(e: Expr, m: Mode)
    decreases e
  {
    match e
    case Lit(_) => true
    case Ident(_) => true
    case Strict(_, es) => PlacedAll(es, m)
    case ArrayLit(es) => PlacedAll(es, m)
    case And(l, r) => Placed(l, m) && Placed(r, m)
    case Or(l, r) => Placed(l, m) && Placed(r, m)
    case If(c, t, f) => Placed(c, m) && Placed(t, m) && (f.Some? ==> Placed(f.value, m))
    case Coalesce(l, r) => Placed(l, m) && Placed(r, m)
    case Try(b, d) => Placed(b, m) && (d.Some? ==> Placed(d.value, m))
    case For(_, _, it, b) => Placed(it, m) && Placed(b, ForMode(m))
    case Raise(x) => Placed(x, m)
    case Lambda(_, b) => m != InForInLambda && Placed(b, InLambda)
    case Call(_, es) => PlacedAll(es, m)
  }

  predicate PlacedAll(es: seq<Expr>, m: Mode)
    decreases es
  {
    forall i :: 0 <= i < |es| ==> Placed(es[i], m)
  }

  predicate PlacedStmt(st: Stmt) {
    st.Use? || Placed(st.value, Outside)
  }

  predicate PlacedFn(f: FnDef) {
    && (forall i :: 0 <= i < |f.params| ==> f.params[i].default.Some? ==> Placed(f.params[i].default.value, Outside))
    && (forall i :: 0 <= i < |f.body| ==> PlacedStmt(f.body[i]))
  }

  ghost predicate PlacedTable(k: Config) {
    forall n :: n in k.fns ==> PlacedFn(k.fns[n])
  }

  // ----- shapes of scope chains -----

  /** No scope on the chain can ever be rebound. */
  ghost predicate Stable(sc: seq<Scope>, r: nat)
    decreases r
  {
    && r < |sc| && !sc[r].reusable
    && (sc[r].parent.Some? ==> sc[r].parent.value < r && Stable(sc, sc[r].parent.value))
  }

  /** The scope is some lambda's argument scope. */
  ghost predicate Scratch(h: Heap, r: nat) {
    exists c :: 0 <= c < |h.clos| && h.clos[c].scratch == Some(r)
  }

  /** No scope on the chain is a lambda's argument scope. */
  ghost predicate ScratchFree(h: Heap, r: nat)
    decreases r
  {
    && r < |h.scopes| && !Scratch(h, r)
    && (h.scopes[r].parent.Some? ==> h.scopes[r].parent.value < r && ScratchFree(h, h.scopes[r].parent.value))
  }

  /** A lambda's argument scope while no call is using it. */
  ghost predicate IdleScratch(h: Heap, r: nat) {
    exists c :: 0 <= c < |h.clos| && h.clos[c].scratch == Some(r) && !h.clos[c].inCall
  }

  /** No scope on the chain is up for rebinding right now. */
  ghost predicate Safe(h: Heap, r: nat)
    decreases r
  {
    && r < |h.scopes| && !IdleScratch(h, r)
    && (h.scopes[r].parent.Some? ==> h.scopes[r].parent.value < r && Safe(h, h.scopes[r].parent.value))
  }

  /** The chain from `r` shows exactly the lexical environment `lex`. */
  ghost predicate Shows(h: Heap, r: nat, lex: Env)
    decreases r
  {
    && r < |h.scopes| && lex.base.Some?
    && if lex.frames == [] then lex.base.value < |h.phi| && h.phi[lex.base.value] == r
       else
         && h.scopes[r].vars == lex.frames[0]
         && h.scopes[r].parent.Some? && h.scopes[r].parent.value < r
         && Shows(h, h.scopes[r].parent.value, Env(lex.frames[1..], lex.base))
  }

  ghost predicate Fits(h: Heap, r: nat, m: Mode)
    requires r < |h.scopes|
  {
    match m
    case Outside => Stable(h.scopes, r)
    case InLambda => h.scopes[r].reusable && h.scopes[r].parent.Some? && Stable(h.scopes, h.scopes[r].parent.value)
    case InForInLambda => true
    case Passing => true
  }

  /** `r` may serve as the scope an expression in mode `m` is evaluated in. */
  ghost predicate Runs(h: Heap, r: nat, lex: Env, m: Mode) {
    Shows(h, r, lex) && Safe(h, r) && Fits(h, r, m)
  }

  // ----- what is true of every heap the executor makes -----

  /** Every lambda owns its argument scope, and the guard is up exactly for the lambdas
      whose scope a call in progress is using, which are all different. */
  ghost predicate WellFormed(h: Heap) {
    && (forall r :: 0 <= r < |h.scopes| && h.scopes[r].parent.Some? ==> h.scopes[r].parent.value < r)
    && (forall b :: 0 <= b < |h.phi| ==> FunctionScope(h, h.phi[b]))
    && (forall b, d :: 0 <= b < d < |h.phi| ==> h.phi[b] != h.phi[d])
    && (forall c :: 0 <= c < |h.clos| ==> WellFormedLambda(h, h.clos[c]))
    && (forall c, d :: 0 <= c < d < |h.clos| && h.clos[c].scratch.Some? ==> h.clos[c].scratch != h.clos[d].scratch)
    && GuardsFit(h.clos, h.live)
  }

  ghost predicate GuardsFit(clos: seq<LambdaObj>, live: seq<nat>) {
    && (forall c :: 0 <= c < |clos| ==> (clos[c].inCall <==> c in live))
    && (forall i, j :: 0 <= i < j < |live| ==> live[i] != live[j])
    && (forall c :: c in live ==> c < |clos|)
  }

  ghost predicate FunctionScope(h: Heap, r: nat) {
    r < |h.scopes| && h.scopes[r].parent.None? && !h.scopes[r].reusable
  }

  ghost predicate WellFormedLambda(h: Heap, c: LambdaObj) {
    && c.env < |h.scopes|
    && (c.scratch.Some? ==> c.env < c.scratch.value < |h.scopes| && h.scopes[c.scratch.value].reusable)
    && (c.inCall ==> c.scratch.Some?)
  }

  // ----- what an evaluation leaves alone -----

  ghost predicate SameLambda(c: LambdaObj, d: LambdaObj, n: nat) {
    && c.params == d.params && c.body == d.body && c.env == d.env && c.depth == d.depth && c.inCall == d.inCall
    && (c.scratch.Some? ==> d.scratch == c.scratch)
    && (c.scratch.None? && d.scratch.Some? ==> d.scratch.value >= n)
  }

  /** Every scope that is not an idle scratch is untouched, except for the variables of
      function scope `x`, and every guard is back to what it was. */
  ghost predicate Kept(h: Heap, h': Heap, x: int) {
    && |h.scopes| <= |h'.scopes| && |h.clos| <= |h'.clos| && h.phi <= h'.phi && h'.live == h.live
    && (forall c :: 0 <= c < |h.clos| ==> SameLambda(h.clos[c], h'.clos[c], |h.scopes|))
    && (forall c :: |h.clos| <= c < |h'.clos| ==> NewLambda(h'.clos[c], |h.scopes|))
    && (forall r :: 0 <= r < |h.scopes| && r != x && !IdleScratch(h, r) ==> h'.scopes[r] == h.scopes[r])
    && (0 <= x < |h.scopes| ==> h.scopes[x].parent.None? && h'.scopes[x] == h.scopes[x].(vars := h'.scopes[x].vars))
  }

  ghost predicate NewLambda(c: LambdaObj, n: nat) {
    !c.inCall && (c.scratch.Some? ==> c.scratch.value >= n)
  }

  /** A step keeps the heap well formed and leaves other scopes alone. */
  ghost predicate Keeps(h: Heap, h': Heap, x: int) {
    WellFormed(h') && Kept(h, h', x)
  }

  lemma KeptIdle(h: Heap, h': Heap, x: int, r: nat)
    requires Kept(h, h', x) && r < |h.scopes|
    ensures IdleScratch(h', r) ==> IdleScratch(h, r)
    ensures Scratch(h', r) ==> Scratch(h, r)
  {
    forall c | 0 <= c < |h'.clos| && h'.clos[c].scratch == Some(r)
      ensures c < |h.clos| && h.clos[c].scratch == Some(r) && h.clos[c].inCall == h'.clos[c].inCall
    {
      assert if c < |h.clos| then SameLambda(h.clos[c], h'.clos[c], |h.scopes|) else NewLambda(h'.clos[c], |h.scopes|);
    }
  }

  lemma KeptSelf(h: Heap)
    ensures Kept(h, h, -1)
  {
  }

  lemma KeptTrans(h0: Heap, h1: Heap, h2: Heap, x: int)
    requires Kept(h0, h1, x) && Kept(h1, h2, x)
    ensures Kept(h0, h2, x)
  {
    forall c | 0 <= c < |h0.clos| ensures SameLambda(h0.clos[c], h2.clos[c], |h0.scopes|) {
      assert SameLambda(h0.clos[c], h1.clos[c], |h0.scopes|) && SameLambda(h1.clos[c], h2.clos[c], |h1.scopes|);
    }
    forall c | |h0.clos| <= c < |h2.clos| ensures NewLambda(h2.clos[c], |h0.scopes|) {
      if c < |h1.clos| {
        assert NewLambda(h1.clos[c], |h0.scopes|) && SameLambda(h1.clos[c], h2.clos[c], |h1.scopes|);
      } else {
        assert NewLambda(h2.clos[c], |h1.scopes|);
      }
    }
    forall r | 0 <= r < |h0.scopes| && r != x && !IdleScratch(h0, r) ensures h2.scopes[r] == h0.scopes[r] {
      KeptIdle(h0, h1, x, r);
    }
  }

  /** A step that touches no function scope touches all but `x` too. */
  lemma KeptAt(h: Heap, h': Heap, x: nat)
    requires Kept(h, h', -1) && WellFormed(h) && FunctionScope(h, x)
    ensures Kept(h, h', x)
  {
    NotScratch(h, x);
  }

  /** Only reusable scopes serve as argument scopes. */
  lemma NotScratch(h: Heap, r: nat)
    requires WellFormed(h) && (r < |h.scopes| ==> !h.scopes[r].reusable)
    ensures !Scratch(h, r) && !IdleScratch(h, r)
  {
    forall c | 0 <= c < |h.clos| ensures h.clos[c].scratch != Some(r) {
      assert WellFormedLambda(h, h.clos[c]);
    }
  }

  /** A step that may change function scope `x` changes none of an older heap's scopes. */
  lemma KeptOlder(h0: Heap, h1: Heap, h2: Heap, x: nat)
    requires Kept(h0, h1, -1) && Kept(h1, h2, x) && |h0.scopes| <= x
    ensures Kept(h0, h2, -1)
  {
    assert Kept(h0, h1, x);
    KeptTrans(h0, h1, h2, x);
  }

  lemma StableIsSafe(h: Heap, r: nat)
    requires WellFormed(h) && Stable(h.scopes, r)
    ensures Safe(h, r) && ScratchFree(h, r)
    decreases r
  {
    NotScratch(h, r);
    if h.scopes[r].parent.Some? {
      StableIsSafe(h, h.scopes[r].parent.value);
    }
  }

  /** A chain that is safe now keeps showing the same environment afterwards. */
  lemma {:induction false} ChainKept(h: Heap, h': Heap, x: int, r: nat, lex: Env)
    requires Kept(h, h', x) && Safe(h, r) && Shows(h, r, lex)
    ensures Safe(h', r) && Shows(h', r, lex)
    decreases r
  {
    KeptIdle(h, h', x, r);
    if lex.frames == [] {
      SafeKept(h, h', x, r);
    } else {
      ChainKept(h, h', x, h.scopes[r].parent.value, Env(lex.frames[1..], lex.base));
    }
  }

  lemma {:induction false} SafeKept(h: Heap, h': Heap, x: int, r: nat)
    requires Kept(h, h', x) && Safe(h, r)
    ensures Safe(h', r)
    ensures Stable(h.scopes, r) ==> Stable(h'.scopes, r)
    decreases r
  {
    KeptIdle(h, h', x, r);
    if h.scopes[r].parent.Some? {
      SafeKept(h, h', x, h.scopes[r].parent.value);
    }
  }

  lemma RunsKept(h: Heap, h': Heap, x: int, r: nat, lex: Env, m: Mode)
    requires Kept(h, h', x) && Runs(h, r, lex, m)
    requires m == InLambda ==> r != x
    ensures Runs(h', r, lex, m)
  {
    ChainKept(h, h', x, r, lex);
    SafeKept(h, h', x, r);
    if h.scopes[r].parent.Some? {
      SafeKept(h, h', x, h.scopes[r].parent.value);
    }
  }

  // ----- which chains can be rebound -----

  /** A chain without argument scopes stays one and never changes, whatever runs. */
  lemma {:induction false} ScratchFreeKept(h: Heap, h': Heap, x: int, r: nat)
    requires Kept(h, h', x) && ScratchFree(h, r)
    ensures ScratchFree(h', r) && h'.scopes[r].parent == h.scopes[r].parent
    ensures r != x ==> h'.scopes[r] == h.scopes[r]
    decreases r
  {
    KeptIdle(h, h', x, r);
    assert !IdleScratch(h, r);
    if h.scopes[r].parent.Some? {
      ScratchFreeKept(h, h', x, h.scopes[r].parent.value);
    }
  }

  // ----- the heap's elementary steps -----

  function WithScope(h: Heap, x: Scope): Heap {
    h.(scopes := h.scopes + [x])
  }

  lemma AddScope(h: Heap, x: Scope)
    requires WellFormed(h) && (x.parent.Some? ==> x.parent.value < |h.scopes|)
    ensures Keeps(h, WithScope(h, x), -1)
    ensures !Scratch(WithScope(h, x), |h.scopes|) && !IdleScratch(WithScope(h, x), |h.scopes|)
  {
    var h' := WithScope(h, x);
    forall c | 0 <= c < |h'.clos| ensures WellFormedLambda(h', h'.clos[c]) {
      assert WellFormedLambda(h, h.clos[c]);
    }
    forall b | 0 <= b < |h'.phi| ensures FunctionScope(h', h'.phi[b]) {
      assert FunctionScope(h, h.phi[b]);
    }
    forall c | 0 <= c < |h.clos| ensures h.clos[c].scratch != Some(|h.scopes|) {
      assert WellFormedLambda(h, h.clos[c]);
    }
  }

  function WithBase(h: Heap): Heap {
    h.(scopes := h.scopes + [Scope(None, map[], false)], phi := h.phi + [|h.scopes|])
  }

  lemma AddBase(h: Heap)
    requires WellFormed(h)
    ensures Keeps(h, WithBase(h), -1) && FunctionScope(WithBase(h), |h.scopes|)
  {
    var h' := WithBase(h);
    forall c | 0 <= c < |h'.clos| ensures WellFormedLambda(h', h'.clos[c]) {
      assert WellFormedLambda(h, h.clos[c]);
    }
    forall b | 0 <= b < |h'.phi| ensures FunctionScope(h', h'.phi[b]) {
      assert b < |h.phi| ==> FunctionScope(h, h.phi[b]);
    }
  }

  function WithLambda(h: Heap, c: LambdaObj): Heap {
    h.(clos := h.clos + [c])
  }

  lemma AddLambda(h: Heap, c: LambdaObj)
    requires WellFormed(h) && c.env < |h.scopes| && c.scratch.None? && !c.inCall
    ensures Keeps(h, WithLambda(h, c), -1)
  {
    var h' := WithLambda(h, c);
    forall i | 0 <= i < |h'.clos| ensures WellFormedLambda(h', h'.clos[i]) {
      assert i < |h.clos| ==> WellFormedLambda(h, h.clos[i]);
    }
    forall b | 0 <= b < |h'.phi| ensures FunctionScope(h', h'.phi[b]) {
      assert FunctionScope(h, h.phi[b]);
    }
  }

  function WithVar(h: Heap, r: nat, x: string, v: Value): Heap {
    if r < |h.scopes| then h.(scopes := h.scopes[r := h.scopes[r].(vars := h.scopes[r].vars[x := v])]) else h
  }

  lemma AddVar(h: Heap, r: nat, x: string, v: Value)
    requires WellFormed(h) && FunctionScope(h, r)
    ensures Keeps(h, WithVar(h, r, x, v), r) && FunctionScope(WithVar(h, r, x, v), r)
  {
    var h' := WithVar(h, r, x, v);
    forall c | 0 <= c < |h'.clos| ensures WellFormedLambda(h', h'.clos[c]) {
      assert WellFormedLambda(h, h.clos[c]);
    }
    forall b | 0 <= b < |h'.phi| ensures FunctionScope(h', h'.phi[b]) {
      assert FunctionScope(h, h.phi[b]);
    }
  }

  /** The argument scope a call of lambda `id` takes: its own, made on first use, or, while
      a call is using that, a fresh one. */
  function ArgScope(h: Heap, id: nat): nat
    requires id < |h.clos|
  {
    if !h.clos[id].inCall && h.clos[id].scratch.Some? then h.clos[id].scratch.value else |h.scopes|
  }

  /** The heap a body of lambda `id` starts in. */
  function Enter(h: Heap, id: nat, vars: Frame): Heap
    requires id < |h.clos|
  {
    var c := h.clos[id];
    var x := Scope(Some(c.env), vars, true);
    var r := ArgScope(h, id);
    var scopes := if r < |h.scopes| then h.scopes[r := x] else h.scopes + [x];
    if c.inCall then h.(scopes := scopes)
    else h.(scopes := scopes, clos := h.clos[id := c.(scratch := Some(r), inCall := true)], live := h.live + [id])
  }

  /** What the deferred statement of a call in its own scope does. */
  function Leave(h: Heap, id: nat): Heap {
    if id < |h.clos| && h.live != []
    then h.(clos := h.clos[id := h.clos[id].(inCall := false)], live := h.live[..|h.live| - 1])
    else h
  }

  lemma EnterFresh(h: Heap, id: nat, vars: Frame)
    requires WellFormed(h) && id < |h.clos| && h.clos[id].inCall
    ensures Keeps(h, Enter(h, id, vars), -1)
  {
    assert WellFormedLambda(h, h.clos[id]);
    AddScope(h, Scope(Some(h.clos[id].env), vars, true));
  }

  /** Taking an idle argument scope raises its lambda's guard and keeps the heap in order. */
  lemma EnterOwn(h: Heap, id: nat, vars: Frame)
    requires WellFormed(h) && id < |h.clos| && !h.clos[id].inCall
    ensures WellFormed(Enter(h, id, vars)) && !IdleScratch(Enter(h, id, vars), ArgScope(h, id))
  {
    var h1, r := Enter(h, id, vars), ArgScope(h, id);
    assert WellFormedLambda(h, h.clos[id]);
    forall c | 0 <= c < |h.clos| ensures WellFormedLambda(h1, h1.clos[c]) && (c != id ==> h.clos[c].scratch != Some(r)) {
      assert WellFormedLambda(h, h.clos[c]);
    }
    forall b | 0 <= b < |h1.phi| ensures FunctionScope(h1, h1.phi[b]) {
      assert FunctionScope(h, h.phi[b]);
    }
  }

  lemma EnterIdle(h: Heap, id: nat, vars: Frame, q: nat)
    requires WellFormed(h) && id < |h.clos| && !h.clos[id].inCall && q < |h.scopes| && !IdleScratch(h, q)
    ensures var h1 := Enter(h, id, vars); !IdleScratch(h1, q) && h1.scopes[q] == h.scopes[q]
  {
    var h1 := Enter(h, id, vars);
    forall c | 0 <= c < |h1.clos| && !h1.clos[c].inCall ensures h1.clos[c].scratch != Some(q) {
      assert h.clos[c] == h1.clos[c];
    }
  }

  /** Chains that are safe look the same after a lambda has taken its scope. */
  lemma {:induction false} EnterChain(h: Heap, id: nat, vars: Frame, q: nat, lex: Env)
    requires WellFormed(h) && id < |h.clos| && !h.clos[id].inCall && Safe(h, q) && Shows(h, q, lex)
    ensures var h1 := Enter(h, id, vars); Safe(h1, q) && Shows(h1, q, lex)
    decreases q
  {
    EnterIdle(h, id, vars, q);
    if lex.frames == [] {
      EnterSafe(h, id, vars, q);
    } else {
      EnterChain(h, id, vars, h.scopes[q].parent.value, Env(lex.frames[1..], lex.base));
    }
  }

  lemma {:induction false} EnterSafe(h: Heap, id: nat, vars: Frame, q: nat)
    requires WellFormed(h) && id < |h.clos| && !h.clos[id].inCall && Safe(h, q)
    ensures var h1 := Enter(h, id, vars); Safe(h1, q) && (Stable(h.scopes, q) ==> Stable(h1.scopes, q))
    decreases q
  {
    EnterIdle(h, id, vars, q);
    if h.scopes[q].parent.Some? {
      EnterSafe(h, id, vars, h.scopes[q].parent.value);
    }
  }

  /** When a call in its own scope returns, nothing outside has changed but idle scratches. */
  lemma LeaveKept(h: Heap, id: nat, vars: Frame, h2: Heap)
    requires WellFormed(h) && id < |h.clos| && !h.clos[id].inCall && Kept(Enter(h, id, vars), h2, -1)
    ensures id < |h2.clos| && h2.live == h.live + [id] && Kept(h, Leave(h2, id), -1)
  {
    var h1, h3 := Enter(h, id, vars), Leave(h2, id);
    forall c | 0 <= c < |h.clos| ensures SameLambda(h.clos[c], h3.clos[c], |h.scopes|) {
      assert SameLambda(h1.clos[c], h2.clos[c], |h1.scopes|);
    }
    forall c | |h.clos| <= c < |h3.clos| ensures NewLambda(h3.clos[c], |h.scopes|) {
      assert NewLambda(h2.clos[c], |h1.scopes|);
    }
    forall q | 0 <= q < |h.scopes| && !IdleScratch(h, q) ensures h3.scopes[q] == h.scopes[q] {
      EnterIdle(h, id, vars, q);
    }
  }

  lemma LeaveWellFormed(h: Heap, id: nat)
    requires WellFormed(h) && id < |h.clos| && h.live != [] && h.live[|h.live| - 1] == id
    ensures WellFormed(Leave(h, id))
  {
    var h' := Leave(h, id);
    assert h.live == h'.live + [id];
    assert forall c :: c in h'.live ==> c in h.live;
    forall c | 0 <= c < |h'.clos| ensures WellFormedLambda(h', h'.clos[c]) {
      assert WellFormedLambda(h, h.clos[c]);
    }
    forall b | 0 <= b < |h'.phi| ensures FunctionScope(h', h'.phi[b]) {
      assert FunctionScope(h, h.phi[b]);
    }
  }

  /** The next call of an idle lambda puts what it likes into its argument scope: a chain
      through that scope is not safe from rebinding. */
  lemma IdleScratchRebound(h: Heap, id: nat, r: nat, vars: Frame)
    requires WellFormed(h) && id < |h.clos| && h.clos[id].scratch == Some(r) && !h.clos[id].inCall
    ensures r < |h.scopes| && Enter(h, id, vars).scopes[r] == Scope(Some(h.clos[id].env), vars, true)
  {
    assert WellFormedLambda(h, h.clos[id]);
  }
}
