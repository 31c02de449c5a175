/** The same for the lexical meaning: an independent account of what conditions, connectives
    and the collection builtins answer there. */
module LexicalMeaning {
  import opened Wrappers
  import opened Syntax
  import opened Lexical
  import opened Meaning

  /** An `if` goes on with its first branch exactly if its condition is no false value, and
      with the other branch, or null, if it is one. */
  lemma LexicalIfChooses(k: Config, fuel: nat, env: Env, depth: nat, c: Expr, t: Expr, f: Option<Expr>, s: State)
    requires InLimit(k, depth)
    ensures var a, r := Eval(k, fuel, env, depth, c, s), Eval(k, fuel, env, depth, If(c, t, f), s);
      if !a.out.Val? then r == a
      else if a.out.v !in FALSE_VALUES then r == Eval(k, fuel, env, depth, t, a.st)
      else if f.Some? then r == Eval(k, fuel, env, depth, f.value, a.st)
      else r == Res(Val(Null), a.st)
  {
    hide ToBool, FALSE_VALUES;
    var a := Eval(k, fuel, env, depth, c, s);
    if a.out.Val? { Truth(a.out.v); }
  }

  /** What is known of two operands: how the left one ends, and the right one after it with
      its value as a truth value. */
  function LexicalRight(k: Config, fuel: nat, env: Env, depth: nat, r: Expr, s: State): Res {
    var b := Eval(k, fuel, env, depth, r, s);
    if b.out.Val? then Res(Val(Bool(b.out.v !in FALSE_VALUES)), b.st) else b
  }

  /** `and` answers false without its right side if the left side is false, and the truth of
      the right side if not. */
  lemma LexicalAndAnswers(k: Config, fuel: nat, env: Env, depth: nat, l: Expr, r: Expr, s: State)
    requires InLimit(k, depth)
    ensures var a := Eval(k, fuel, env, depth, l, s);
      Eval(k, fuel, env, depth, And(l, r), s) ==
        if !a.out.Val? then a
        else if a.out.v in FALSE_VALUES then Res(Val(Bool(false)), a.st)
        else LexicalRight(k, fuel, env, depth, r, a.st)
  {
    hide ToBool, FALSE_VALUES;
    var a := Eval(k, fuel, env, depth, l, s);
    var b := Eval(k, fuel, env, depth, r, a.st);
    if a.out.Val? { Truth(a.out.v); }
    if b.out.Val? { Truth(b.out.v); }
  }

  /** `or` answers true without its right side if the left side is true, and the truth of the
      right side if not. */
  lemma LexicalOrAnswers(k: Config, fuel: nat, env: Env, depth: nat, l: Expr, r: Expr, s: State)
    requires InLimit(k, depth)
    ensures var a := Eval(k, fuel, env, depth, l, s);
      Eval(k, fuel, env, depth, Or(l, r), s) ==
        if !a.out.Val? then a
        else if a.out.v !in FALSE_VALUES then Res(Val(Bool(true)), a.st)
        else LexicalRight(k, fuel, env, depth, r, a.st)
  {
    hide ToBool, FALSE_VALUES;
    var a := Eval(k, fuel, env, depth, l, s);
    var b := Eval(k, fuel, env, depth, r, a.st);
    if a.out.Val? { Truth(a.out.v); }
    if b.out.Val? { Truth(b.out.v); }
  }

  /** Calls of one closure after each other, with their results and the states between them. */
  ghost predicate AppliesGive(k: Config, fuel: nat, f: Value, args: seq<seq<Value>>, results: seq<Value>, states: seq<State>) {
    && |results| <= |args| && |states| == |results| + 1
    && forall j :: 0 <= j < |results| ==> Apply(k, fuel, f, args[j], states[j]) == Res(Val(results[j]), states[j + 1])
  }

  /** All calls gave a result, and the builtin ends like this; or the first call without one
      ends the builtin. */
  ghost predicate LoopEndsAs(k: Config, fuel: nat, f: Value, args: seq<seq<Value>>, results: seq<Value>, states: seq<State>, v: Value, r: Res) {
    && AppliesGive(k, fuel, f, args, results, states)
    && var n := |results|;
    if n == |args| then r == Res(Val(v), states[n])
    else !r.out.Val? && Apply(k, fuel, f, args[n], states[n]) == r
  }

  /** One call more in front. */
  lemma AppliesBefore(k: Config, fuel: nat, f: Value, args: seq<seq<Value>>, first: seq<Value>, v: Value, s: State,
                    results: seq<Value>, states: seq<State>)
    requires AppliesGive(k, fuel, f, args, results, states) && Apply(k, fuel, f, first, s) == Res(Val(v), states[0])
    ensures AppliesGive(k, fuel, f, [first] + args, [v] + results, [s] + states)
  {
    hide Apply;
    var allArgs, all, ss := [first] + args, [v] + results, [s] + states;
    forall j | 0 <= j < |all| ensures Apply(k, fuel, f, allArgs[j], ss[j]) == Res(Val(all[j]), ss[j + 1]) {
      if j > 0 {
        assert allArgs[j] == args[j - 1] && all[j] == results[j - 1] && ss[j] == states[j - 1] && ss[j + 1] == states[j];
      }
    }
  }

  lemma {:induction false} FilterLoops(k: Config, fuel: nat, f: Value, items: seq<Value>, done: seq<Value>, s: State)
    returns (results: seq<Value>, states: seq<State>)
    ensures |results| <= |items| && states != [] && states[0] == s
    ensures LoopEndsAs(k, fuel, f, Singly(items), results, states, Arr(done + Chosen(items, results)),
                   HofLoop(k, fuel, FilterHof, f, items, Arr(done), s))
    decreases items
  {
    hide Apply, FALSE_VALUES, ToBool;
    results, states := [], [s];
    if items == [] {
      assert done + Chosen(items, results) == done;
    } else {
      var a := Apply(k, fuel, f, [items[0]], s);
      assert Singly(items) == [[items[0]]] + Singly(items[1..]);
      if a.out.Val? {
        Truth(a.out.v);
        var more := if a.out.v in FALSE_VALUES then [] else [items[0]];
        results, states := FilterLoops(k, fuel, f, items[1..], done + more, a.st);
        AppliesBefore(k, fuel, f, Singly(items[1..]), [items[0]], a.out.v, s, results, states);
        var all := [a.out.v] + results;
        assert all[1..] == results && done + more + Chosen(items[1..], results) == done + Chosen(items, all);
        assert done + [] == done;
        results, states := all, [s] + states;
      }
    }
  }

  lemma {:induction false} MapLoops(k: Config, fuel: nat, f: Value, items: seq<Value>, done: seq<Value>, s: State)
    returns (results: seq<Value>, states: seq<State>)
    ensures |results| <= |items| && states != [] && states[0] == s
    ensures LoopEndsAs(k, fuel, f, Singly(items), results, states, Arr(done + results),
                   HofLoop(k, fuel, MapHof, f, items, Arr(done), s))
    decreases items
  {
    hide Apply;
    results, states := [], [s];
    if items == [] {
      assert done + results == done;
    } else {
      var a := Apply(k, fuel, f, [items[0]], s);
      assert Singly(items) == [[items[0]]] + Singly(items[1..]);
      if a.out.Val? {
        results, states := MapLoops(k, fuel, f, items[1..], done + [a.out.v], a.st);
        AppliesBefore(k, fuel, f, Singly(items[1..]), [items[0]], a.out.v, s, results, states);
        assert done + [a.out.v] + results == done + ([a.out.v] + results);
        results, states := [a.out.v] + results, [s] + states;
      }
    }
  }

  /** One call more in front of a fold. */
  lemma ReduceLoopsMore(k: Config, fuel: nat, f: Value, items: seq<Value>, init: Value, v: Value, s: State, results: seq<Value>, states: seq<State>, r: Res)
    requires items != [] && |results| <= |items| - 1 && states != [] && Apply(k, fuel, f, [init, items[0]], s) == Res(Val(v), states[0])
    requires LoopEndsAs(k, fuel, f, Folding(v, items[1..], results), results, states, LastResult(v, results), r)
    ensures LoopEndsAs(k, fuel, f, Folding(init, items, [v] + results), [v] + results, [s] + states, LastResult(init, [v] + results), r)
  {
    hide Apply;
    FoldingMore(init, items, v, results);
    AppliesBefore(k, fuel, f, Folding(v, items[1..], results), [init, items[0]], v, s, results, states);
    hide Folding, AppliesGive;
  }

  lemma {:induction false} ReduceLoops(k: Config, fuel: nat, f: Value, items: seq<Value>, init: Value, s: State)
    returns (results: seq<Value>, states: seq<State>)
    ensures |results| <= |items| && states != [] && states[0] == s
    ensures LoopEndsAs(k, fuel, f, Folding(init, items, results), results, states, LastResult(init, results),
                   HofLoop(k, fuel, ReduceHof, f, items, init, s))
    decreases items
  {
    hide Apply, Folding;
    results, states := [], [s];
    if items == [] {
      assert Folding(init, items, results) == [] by { NoFolding(init); }
    } else {
      var a := Apply(k, fuel, f, [init, items[0]], s);
      if a.out.Val? {
        results, states := ReduceLoops(k, fuel, f, items[1..], a.out.v, a.st);
        ReduceLoopsMore(k, fuel, f, items, init, a.out.v, s, results, states, HofLoop(k, fuel, ReduceHof, f, items, init, s));
        results, states := [a.out.v] + results, [s] + states;
      } else {
        FirstFolding(init, items);
      }
    }
  }

  /** `filter(items, f)` calls `f` once per item, in order, and gives exactly the items whose
      call gave no false value; the first call that fails ends it. */
  lemma LexicalFilterKeeps(k: Config, fuel: nat, items: seq<Value>, f: Value, more: seq<Value>, s: State)
    returns (results: seq<Value>, states: seq<State>)
    ensures |results| <= |items| && states != [] && states[0] == s
    ensures LoopEndsAs(k, fuel, f, Singly(items), results, states, Arr(Chosen(items, results)),
                   CallHof(k, fuel, FilterHof, [Arr(items), f] + more, s))
  {
    hide HofLoop, LoopEndsAs;
    results, states := FilterLoops(k, fuel, f, items, [], s);
    assert [] + Chosen(items, results) == Chosen(items, results);
  }

  /** `map(items, f)` gives all the results, in order. */
  lemma LexicalMapGives(k: Config, fuel: nat, items: seq<Value>, f: Value, more: seq<Value>, s: State)
    returns (results: seq<Value>, states: seq<State>)
    ensures |results| <= |items| && states != [] && states[0] == s
    ensures LoopEndsAs(k, fuel, f, Singly(items), results, states, Arr(results), CallHof(k, fuel, MapHof, [Arr(items), f] + more, s))
  {
    hide HofLoop, LoopEndsAs;
    results, states := MapLoops(k, fuel, f, items, [], s);
    assert [] + results == results;
  }

  /** `reduce(items, init, f)` hands each result on to the next call and gives the last one. */
  lemma LexicalReduceGives(k: Config, fuel: nat, items: seq<Value>, init: Value, f: Value, more: seq<Value>, s: State)
    returns (results: seq<Value>, states: seq<State>)
    ensures |results| <= |items| && states != [] && states[0] == s
    ensures LoopEndsAs(k, fuel, f, Folding(init, items, results), results, states, LastResult(init, results),
                   CallHof(k, fuel, ReduceHof, [Arr(items), init, f] + more, s))
  {
    hide HofLoop, LoopEndsAs;
    results, states := ReduceLoops(k, fuel, f, items, init, s);
  }
}
