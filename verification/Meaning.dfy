/** What conditions, connectives, loops and the collection builtins answer, said with the
    values themselves, for the executor and for its lexical meaning. */
module Meaning {
  import opened Wrappers
  import opened Chars
  import opened Syntax
  import L = Lexical
  import opened Store
  import opened Running

  /** The values that count as false; objects and closures count as true. */
  const FALSE_VALUES: set<Value> := {Null, Bool(false), Num(0), Str(""), Arr([])}

  predicate InLimit(k: Config, depth: nat) {
    k.limit == 0 || depth <= k.limit
  }

  lemma Truth(v: Value)
    ensures ToBool(v) <==> v !in FALSE_VALUES
  {
  }

  // ----- conditions and connectives -----

  /** An `if` goes on with its first branch exactly if its condition is no false value, and
      with the other branch, or null, if it is one. */
  lemma IfChooses(k: Config, fuel: nat, env: nat, depth: nat, c: Expr, t: Expr, f: Option<Expr>, h: Heap)
    requires InLimit(k, depth)
    ensures var a, r := RunExpr(k, fuel, env, depth, c, h), RunExpr(k, fuel, env, depth, If(c, t, f), h);
      if !a.out.Val? then r == a
      else if a.out.v !in FALSE_VALUES then r == RunExpr(k, fuel, env, depth, t, a.h)
      else if f.Some? then r == RunExpr(k, fuel, env, depth, f.value, a.h)
      else r == Ran(Val(Null), a.h)
  {
    hide ToBool, FALSE_VALUES;
    var a := RunExpr(k, fuel, env, depth, c, h);
    if a.out.Val? { Truth(a.out.v); }
  }

  /** What is known of two operands: how the left one ends, and the right one after it with
      its value as a truth value. */
  function Right(k: Config, fuel: nat, env: nat, depth: nat, r: Expr, h: Heap): Ran {
    var b := RunExpr(k, fuel, env, depth, r, h);
    if b.out.Val? then Ran(Val(Bool(b.out.v !in FALSE_VALUES)), b.h) else b
  }

  /** `and` answers false without its right side if the left side is false, and the truth of
      the right side if not. */
  lemma AndAnswers(k: Config, fuel: nat, env: nat, depth: nat, l: Expr, r: Expr, h: Heap)
    requires InLimit(k, depth)
    ensures var a := RunExpr(k, fuel, env, depth, l, h);
      RunExpr(k, fuel, env, depth, And(l, r), h) ==
        if !a.out.Val? then a
        else if a.out.v in FALSE_VALUES then Ran(Val(Bool(false)), a.h)
        else Right(k, fuel, env, depth, r, a.h)
  {
    hide ToBool, FALSE_VALUES;
    var a := RunExpr(k, fuel, env, depth, l, h);
    var b := RunExpr(k, fuel, env, depth, r, a.h);
    if a.out.Val? { Truth(a.out.v); }
    if b.out.Val? { Truth(b.out.v); }
  }

  /** `or` answers true without its right side if the left side is true, and the truth of the
      right side if not. */
  lemma OrAnswers(k: Config, fuel: nat, env: nat, depth: nat, l: Expr, r: Expr, h: Heap)
    requires InLimit(k, depth)
    ensures var a := RunExpr(k, fuel, env, depth, l, h);
      RunExpr(k, fuel, env, depth, Or(l, r), h) ==
        if !a.out.Val? then a
        else if a.out.v !in FALSE_VALUES then Ran(Val(Bool(true)), a.h)
        else Right(k, fuel, env, depth, r, a.h)
  {
    hide ToBool, FALSE_VALUES;
    var a := RunExpr(k, fuel, env, depth, l, h);
    var b := RunExpr(k, fuel, env, depth, r, a.h);
    if a.out.Val? { Truth(a.out.v); }
    if b.out.Val? { Truth(b.out.v); }
  }

  /** `??` looks at its right side exactly if the left one is null. */
  lemma CoalesceAnswers(k: Config, fuel: nat, env: nat, depth: nat, l: Expr, r: Expr, h: Heap)
    requires InLimit(k, depth)
    ensures var a := RunExpr(k, fuel, env, depth, l, h);
      RunExpr(k, fuel, env, depth, Coalesce(l, r), h) ==
        if a.out == Val(Null) then RunExpr(k, fuel, env, depth, r, a.h) else a
  {
    hide RunList, RunRounds, RunCall, Capturing, ToBool, LitValue, Get;
    var a := RunExpr(k, fuel, env, depth, l, h);
    assert Coalesce(l, r).left == l && Coalesce(l, r).right == r;
  }

  /** `try` answers with its default, or null, exactly if its body ends in an error; neither an
      exhausted stack nor a panic is one. */
  lemma TryAnswers(k: Config, fuel: nat, env: nat, depth: nat, b: Expr, d: Option<Expr>, h: Heap)
    requires InLimit(k, depth)
    ensures var a := RunExpr(k, fuel, env, depth, b, h);
      RunExpr(k, fuel, env, depth, Try(b, d), h) ==
        if a.out.Val? || a.out == Overflow || a.out == Panic then a
        else if d.Some? then RunExpr(k, fuel, env, depth, d.value, a.h)
        else Ran(Val(Null), a.h)
  {
    hide RunList, RunRounds, RunCall, Capturing, ToBool, LitValue, Get;
    var a := RunExpr(k, fuel, env, depth, b, h);
    assert Try(b, d).body == b && Try(b, d).default == d;
  }

  // ----- the collection builtins -----

  /** Calls of one closure after each other, with their results and the heaps between them. */
  ghost predicate CallsGive(k: Config, fuel: nat, f: Value, args: seq<seq<Value>>, results: seq<Value>, heaps: seq<Heap>) {
    && |results| <= |args| && |heaps| == |results| + 1
    && forall j :: 0 <= j < |results| ==> RunLambda(k, fuel, f, args[j], heaps[j]) == Ran(Val(results[j]), heaps[j + 1])
  }

  /** All calls gave a result, and the builtin ends like this; or the first call without one
      ends the builtin. */
  ghost predicate EndsAs(k: Config, fuel: nat, f: Value, args: seq<seq<Value>>, results: seq<Value>, heaps: seq<Heap>, v: Value, r: Ran) {
    && CallsGive(k, fuel, f, args, results, heaps)
    && var n := |results|;
    if n == |args| then r == Ran(Val(v), heaps[n])
    else !r.out.Val? && RunLambda(k, fuel, f, args[n], heaps[n]) == r
  }

  /** Each item by itself. */
  function Singly(items: seq<Value>): seq<seq<Value>> {
    seq(|items|, j requires 0 <= j < |items| => [items[j]])
  }

  /** The items whose call gave no false value, in order. */
  function Chosen(items: seq<Value>, results: seq<Value>): seq<Value>
    requires |results| <= |items|
  {
    if results == [] then []
    else (if results[0] in FALSE_VALUES then [] else [items[0]]) + Chosen(items[1..], results[1..])
  }

  /** One call more in front. */
  lemma CallsBefore(k: Config, fuel: nat, f: Value, args: seq<seq<Value>>, first: seq<Value>, v: Value, h: Heap,
                    results: seq<Value>, heaps: seq<Heap>)
    requires CallsGive(k, fuel, f, args, results, heaps) && RunLambda(k, fuel, f, first, h) == Ran(Val(v), heaps[0])
    ensures CallsGive(k, fuel, f, [first] + args, [v] + results, [h] + heaps)
  {
    hide RunLambda;
    var allArgs, all, hs := [first] + args, [v] + results, [h] + heaps;
    forall j | 0 <= j < |all| ensures RunLambda(k, fuel, f, allArgs[j], hs[j]) == Ran(Val(all[j]), hs[j + 1]) {
      if j > 0 {
        assert allArgs[j] == args[j - 1] && all[j] == results[j - 1] && hs[j] == heaps[j - 1] && hs[j + 1] == heaps[j];
      }
    }
  }

  lemma {:induction false} FilterRuns(k: Config, fuel: nat, f: Value, items: seq<Value>, done: seq<Value>, h: Heap)
    returns (results: seq<Value>, heaps: seq<Heap>)
    ensures |results| <= |items| && heaps != [] && heaps[0] == h
    ensures EndsAs(k, fuel, f, Singly(items), results, heaps, Arr(done + Chosen(items, results)),
                   RunLoop(k, fuel, FilterHof, f, items, Arr(done), h))
    decreases items
  {
    hide RunLambda, FALSE_VALUES, ToBool;
    results, heaps := [], [h];
    if items == [] {
      assert done + Chosen(items, results) == done;
    } else {
      var a := RunLambda(k, fuel, f, [items[0]], h);
      assert Singly(items) == [[items[0]]] + Singly(items[1..]);
      if a.out.Val? {
        Truth(a.out.v);
        var more := if a.out.v in FALSE_VALUES then [] else [items[0]];
        results, heaps := FilterRuns(k, fuel, f, items[1..], done + more, a.h);
        CallsBefore(k, fuel, f, Singly(items[1..]), [items[0]], a.out.v, h, results, heaps);
        var all := [a.out.v] + results;
        assert all[1..] == results && done + more + Chosen(items[1..], results) == done + Chosen(items, all);
        assert done + [] == done;
        results, heaps := all, [h] + heaps;
      }
    }
  }

  lemma {:induction false} MapRuns(k: Config, fuel: nat, f: Value, items: seq<Value>, done: seq<Value>, h: Heap)
    returns (results: seq<Value>, heaps: seq<Heap>)
    ensures |results| <= |items| && heaps != [] && heaps[0] == h
    ensures EndsAs(k, fuel, f, Singly(items), results, heaps, Arr(done + results),
                   RunLoop(k, fuel, MapHof, f, items, Arr(done), h))
    decreases items
  {
    hide RunLambda;
    results, heaps := [], [h];
    if items == [] {
      assert done + results == done;
    } else {
      var a := RunLambda(k, fuel, f, [items[0]], h);
      assert Singly(items) == [[items[0]]] + Singly(items[1..]);
      if a.out.Val? {
        results, heaps := MapRuns(k, fuel, f, items[1..], done + [a.out.v], a.h);
        CallsBefore(k, fuel, f, Singly(items[1..]), [items[0]], a.out.v, h, results, heaps);
        assert done + [a.out.v] + results == done + ([a.out.v] + results);
        results, heaps := [a.out.v] + results, [h] + heaps;
      }
    }
  }

  /** Each item behind the result of the call before it. */
  function Folding(init: Value, items: seq<Value>, results: seq<Value>): seq<seq<Value>>
    requires |results| <= |items|
  {
    var n := if |results| < |items| then |results| + 1 else |items|;
    seq(n, j requires 0 <= j < n => [if j == 0 then init else results[j - 1], items[j]])
  }

  function LastResult(init: Value, results: seq<Value>): Value {
    if results == [] then init else results[|results| - 1]
  }

  lemma NoFolding(init: Value)
    ensures Folding(init, [], []) == []
  {
  }

  lemma FirstFolding(init: Value, items: seq<Value>)
    requires items != []
    ensures Folding(init, items, []) == [[init, items[0]]]
  {
  }

  lemma FoldingMore(init: Value, items: seq<Value>, v: Value, results: seq<Value>)
    requires items != [] && |results| <= |items| - 1
    ensures Folding(init, items, [v] + results) == [[init, items[0]]] + Folding(v, items[1..], results)
  {
  }

  /** One call more in front of a fold. */
  lemma ReduceRunsMore(k: Config, fuel: nat, f: Value, items: seq<Value>, init: Value, v: Value, h: Heap, results: seq<Value>, heaps: seq<Heap>, r: Ran)
    requires items != [] && |results| <= |items| - 1 && heaps != [] && RunLambda(k, fuel, f, [init, items[0]], h) == Ran(Val(v), heaps[0])
    requires EndsAs(k, fuel, f, Folding(v, items[1..], results), results, heaps, LastResult(v, results), r)
    ensures EndsAs(k, fuel, f, Folding(init, items, [v] + results), [v] + results, [h] + heaps, LastResult(init, [v] + results), r)
  {
    hide RunLambda;
    FoldingMore(init, items, v, results);
    CallsBefore(k, fuel, f, Folding(v, items[1..], results), [init, items[0]], v, h, results, heaps);
    hide Folding, CallsGive;
  }

  lemma {:induction false} ReduceRuns(k: Config, fuel: nat, f: Value, items: seq<Value>, init: Value, h: Heap)
    returns (results: seq<Value>, heaps: seq<Heap>)
    ensures |results| <= |items| && heaps != [] && heaps[0] == h
    ensures EndsAs(k, fuel, f, Folding(init, items, results), results, heaps, LastResult(init, results),
                   RunLoop(k, fuel, ReduceHof, f, items, init, h))
    decreases items
  {
    hide RunLambda, Folding;
    results, heaps := [], [h];
    if items == [] {
      assert Folding(init, items, results) == [] by { NoFolding(init); }
    } else {
      var a := RunLambda(k, fuel, f, [init, items[0]], h);
      if a.out.Val? {
        results, heaps := ReduceRuns(k, fuel, f, items[1..], a.out.v, a.h);
        ReduceRunsMore(k, fuel, f, items, init, a.out.v, h, results, heaps, RunLoop(k, fuel, ReduceHof, f, items, init, h));
        results, heaps := [a.out.v] + results, [h] + heaps;
      } else {
        FirstFolding(init, items);
      }
    }
  }

  /** `filter(items, f)` calls `f` once per item, in order, and gives exactly the items whose
      call gave no false value; the first call that fails ends it. */
  lemma FilterKeeps(k: Config, fuel: nat, items: seq<Value>, f: Value, more: seq<Value>, h: Heap)
    returns (results: seq<Value>, heaps: seq<Heap>)
    ensures |results| <= |items| && heaps != [] && heaps[0] == h
    ensures EndsAs(k, fuel, f, Singly(items), results, heaps, Arr(Chosen(items, results)),
                   RunHof(k, fuel, FilterHof, [Arr(items), f] + more, h))
  {
    hide RunLoop, EndsAs;
    results, heaps := FilterRuns(k, fuel, f, items, [], h);
    assert [] + Chosen(items, results) == Chosen(items, results);
  }

  /** `map(items, f)` gives all the results, in order. */
  lemma MapGives(k: Config, fuel: nat, items: seq<Value>, f: Value, more: seq<Value>, h: Heap)
    returns (results: seq<Value>, heaps: seq<Heap>)
    ensures |results| <= |items| && heaps != [] && heaps[0] == h
    ensures EndsAs(k, fuel, f, Singly(items), results, heaps, Arr(results), RunHof(k, fuel, MapHof, [Arr(items), f] + more, h))
  {
    hide RunLoop, EndsAs;
    results, heaps := MapRuns(k, fuel, f, items, [], h);
    assert [] + results == results;
  }

  /** `reduce(items, init, f)` hands each result on to the next call and gives the last one. */
  lemma ReduceGives(k: Config, fuel: nat, items: seq<Value>, init: Value, f: Value, more: seq<Value>, h: Heap)
    returns (results: seq<Value>, heaps: seq<Heap>)
    ensures |results| <= |items| && heaps != [] && heaps[0] == h
    ensures EndsAs(k, fuel, f, Folding(init, items, results), results, heaps, LastResult(init, results),
                   RunHof(k, fuel, ReduceHof, [Arr(items), init, f] + more, h))
  {
    hide RunLoop, EndsAs;
    results, heaps := ReduceRuns(k, fuel, f, items, init, h);
  }

  /** Without its closure a collection builtin answers for an empty array alone. */
  lemma WithoutClosure(k: Config, fuel: nat, items: seq<Value>, v: Value, more: seq<Value>, h: Heap)
    ensures forall hof :: RunHof(k, fuel, hof, [], h) == Ran(Panic, h)
    ensures !v.Arr? ==> forall hof :: RunHof(k, fuel, hof, [v] + more, h).out.Err?
    ensures forall hof :: hof in {MapHof, FilterHof} ==>
      RunHof(k, fuel, hof, [Arr(items)], h) == Ran(if items == [] then Val(Arr([])) else Panic, h)
    ensures RunHof(k, fuel, ReduceHof, [Arr(items)], h) == Ran(Panic, h)
    ensures RunHof(k, fuel, ReduceHof, [Arr(items), v], h) == Ran(if items == [] then Val(v) else Panic, h)
  {
  }

  // ----- literals, and the limit -----

  /** Beyond a positive limit nothing is evaluated; up to it, and without one, a literal is
      its value. */
  lemma LiteralsAnswer(k: Config, fuel: nat, env: nat, depth: nat, b: bool, n: int, t: string, h: Heap)
    ensures var beyond := k.limit > 0 && depth > k.limit;
      && RunExpr(k, fuel, env, depth, Lit(NullLit), h) == Ran(if beyond then Err(MaxDepth) else Val(Null), h)
      && RunExpr(k, fuel, env, depth, Lit(BoolLit(b)), h) == Ran(if beyond then Err(MaxDepth) else Val(Bool(b)), h)
      && RunExpr(k, fuel, env, depth, Lit(NumLit(n)), h) == Ran(if beyond then Err(MaxDepth) else Val(Num(n)), h)
      && RunExpr(k, fuel, env, depth, Lit(StrLit(t)), h) == Ran(if beyond then Err(MaxDepth) else Val(Str(t)), h)
  {
  }

  /** A user function is called one level deeper: at the limit itself it is refused. */
  lemma CallsDeepen(k: Config, fuel: nat, depth: nat, n: int, h: Heap)
    ensures RunUser(k, fuel, depth, FnDef([], [Return(Lit(NumLit(n)))]), [], h).out
      == if k.limit > 0 && depth >= k.limit then Err(MaxDepth) else Val(Num(n))
  {
    var body, h1 := [Return(Lit(NumLit(n)))], WithBase(h);
    LiteralsAnswer(k, fuel, |h.scopes|, depth + 1, true, n, "", h1);
    assert RunParams(k, fuel, |h.scopes|, depth + 1, [], [], h1) == Ran(Val(Null), h1);
    if InLimit(k, depth + 1) {
      assert RunStmt(k, fuel, |h.scopes|, depth + 1, body[0], h1) == Ran(Val(Num(n)), h1);
      assert body[1..] == [];
      assert RunBody(k, fuel, |h.scopes|, depth + 1, [], Num(n), h1) == Ran(Val(Num(n)), h1);
      assert RunBody(k, fuel, |h.scopes|, depth + 1, body, Null, h1) == Ran(Val(Num(n)), h1);
    }
  }

  /** A raised value as a message: text as it is, null as nothing, truth values by name. */
  lemma RaiseSays(k: Config, fuel: nat, env: nat, depth: nat, e: Expr, h: Heap)
    requires InLimit(k, depth)
    ensures var a, r := RunExpr(k, fuel, env, depth, e, h), RunExpr(k, fuel, env, depth, Raise(e), h);
      r == if !a.out.Val? then a
           else Ran(Err(Raised(
             if a.out.v == Null then "" else if a.out.v == Bool(true) then "true" else if a.out.v == Bool(false) then "false"
             else if a.out.v.Str? then a.out.v.s else k.show(a.out.v))), a.h)
  {
  }

  // ----- calls -----

  /** The names a call can mean, in order: through each namespace, first with the prefix of an
      application, and at last the name itself. */
  function Candidate(spaces: seq<string>, name: string, i: nat): string
    requires i <= 2 * |spaces|
  {
    if i == 2 * |spaces| then name
    else if i % 2 == 0 then "app:" + spaces[i / 2] + "::" + name
    else spaces[i / 2] + "::" + name
  }

  predicate Defined(k: Config, name: string) {
    name in k.builtins || name in k.fns
  }

  function Texts(spaces: seq<string>): seq<Value> {
    seq(|spaces|, i requires 0 <= i < |spaces| => Str(spaces[i]))
  }

  /** What a defined name stands for; only the bare name has its arguments counted. */
  function Meant(k: Config, name: string, bare: bool): Target
    requires Defined(k, name)
  {
    if name in k.builtins then BuiltinTarget(k.builtins[name], bare) else UserTarget(k.fns[name])
  }

  lemma PairTried(k: Config, space: string, name: string)
    ensures var a, b := "app:" + space + "::" + name, space + "::" + name;
      FindAny(k, Qualified(space, name)) ==
        if Defined(k, a) then Meant(k, a, false) else if Defined(k, b) then Meant(k, b, false) else NoTarget
  {
    var names := Qualified(space, name);
    assert names[1..][0] == names[1] && names[1..][1..] == [];
    assert FindAny(k, names[1..]) == if Find(k, names[1], false).NoTarget? then FindAny(k, []) else Find(k, names[1], false);
  }

  /** The first two candidates belong to the first namespace, the others to the rest. */
  lemma Candidates(spaces: seq<string>, name: string, i: nat)
    requires spaces != [] && i <= 2 * |spaces|
    ensures Candidate(spaces, name, i) ==
      if i == 0 then "app:" + spaces[0] + "::" + name
      else if i == 1 then spaces[0] + "::" + name
      else Candidate(spaces[1..], name, i - 2)
  {
    if i >= 2 && i < 2 * |spaces| {
      assert (i - 2) / 2 == i / 2 - 1 && spaces[1..][i / 2 - 1] == spaces[i / 2];
    }
  }

  /** One step through the namespaces. */
  lemma SpaceTried(k: Config, spaces: seq<string>, name: string)
    requires spaces != []
    ensures var a, b := "app:" + spaces[0] + "::" + name, spaces[0] + "::" + name;
      Resolve(k, Texts(spaces), name) ==
        if Defined(k, a) then Meant(k, a, false) else if Defined(k, b) then Meant(k, b, false)
        else Resolve(k, Texts(spaces[1..]), name)
  {
    assert Texts(spaces)[1..] == Texts(spaces[1..]);
    PairTried(k, spaces[0], name);
    hide FindAny;
  }

  /** A call means the first name that is defined, a builtin before a function of that name. */
  lemma {:induction false} FirstDefinedWins(k: Config, spaces: seq<string>, name: string, i: nat)
    requires i <= 2 * |spaces| && Defined(k, Candidate(spaces, name, i))
    requires forall j: nat :: j < i ==> !Defined(k, Candidate(spaces, name, j))
    ensures Resolve(k, Texts(spaces), name) == Meant(k, Candidate(spaces, name, i), i == 2 * |spaces|)
    decreases spaces
  {
    hide Resolve, Defined, Candidate, Meant;
    if spaces == [] {
      BareName(k, name);
    } else {
      SpaceTried(k, spaces, name);
      Candidates(spaces, name, i);
      Candidates(spaces, name, 0);
      Candidates(spaces, name, 1);
      if i >= 2 {
        assert !Defined(k, Candidate(spaces, name, 0)) && !Defined(k, Candidate(spaces, name, 1));
        OthersTried(k, spaces, name, i);
        FirstDefinedWins(k, spaces[1..], name, i - 2);
      } else if i == 1 {
        assert !Defined(k, Candidate(spaces, name, 0));
      }
    }
  }

  lemma BareName(k: Config, name: string)
    ensures Candidate([], name, 0) == name
    ensures Resolve(k, Texts([]), name) == if Defined(k, name) then Meant(k, name, true) else NoTarget
  {
  }

  lemma OthersTried(k: Config, spaces: seq<string>, name: string, i: nat)
    requires spaces != [] && 2 <= i <= 2 * |spaces|
    requires forall j: nat :: j < i ==> !Defined(k, Candidate(spaces, name, j))
    ensures forall j: nat :: j < i - 2 ==> !Defined(k, Candidate(spaces[1..], name, j))
  {
    hide Defined, Candidate;
    forall j: nat | j < i - 2 ensures !Defined(k, Candidate(spaces[1..], name, j)) {
      Candidates(spaces, name, j + 2);
    }
  }

  lemma {:induction false} NoneDefined(k: Config, spaces: seq<string>, name: string)
    requires forall j: nat :: j <= 2 * |spaces| ==> !Defined(k, Candidate(spaces, name, j))
    ensures Resolve(k, Texts(spaces), name) == NoTarget
    decreases spaces
  {
    hide Resolve, Defined, Candidate, Meant;
    if spaces == [] {
      BareName(k, name);
    } else {
      SpaceTried(k, spaces, name);
      Candidates(spaces, name, 0);
      Candidates(spaces, name, 1);
      forall j: nat | j <= 2 * |spaces[1..]| ensures !Defined(k, Candidate(spaces[1..], name, j)) {
        Candidates(spaces, name, j + 2);
      }
      NoneDefined(k, spaces[1..], name);
    }
  }

  /** The word, in any mixture of capitals and small letters. */
  predicate AnyCase(name: string, small: string, capital: string)
    requires |small| == |capital|
  {
    |name| == |small| && forall i :: 0 <= i < |name| ==> name[i] == small[i] || name[i] == capital[i]
  }

  predicate DebugWord(name: string) { AnyCase(name, "debug", "DEBUG") }

  predicate PrintWord(name: string) { AnyCase(name, "print", "PRINT") }

  lemma DebugNames(name: string)
    ensures Upper(name) == "DEBUG" <==> DebugWord(name)
    ensures Upper(name) == "PRINT" <==> PrintWord(name)
  {
    if |name| == 5 {
      var u := Upper(name);
      assert u == "DEBUG" <==> u[0] == 'D' && u[1] == 'E' && u[2] == 'B' && u[3] == 'U' && u[4] == 'G';
      assert u == "PRINT" <==> u[0] == 'P' && u[1] == 'R' && u[2] == 'I' && u[3] == 'N' && u[4] == 'T';
    }
  }

  /** A debug or print call logs its values, under the text that comes first if it is a debug
      call with something after it, and answers with the last of them. */
  lemma DebugAnswers(k: Config, fuel: nat, env: nat, depth: nat, name: string, args: seq<Value>, h: Heap)
    requires DebugWord(name) || PrintWord(name)
    ensures RunCall(k, fuel, env, depth, name, args, h) == Ran(
      Val(if args == [] then Null else args[|args| - 1]),
      h.(log := h.log + [if DebugWord(name) && |args| >= 2 && args[0].Str? then Entry(args[0].s, args[1..]) else Entry("", args)]))
  {
    DebugNames(name);
    hide Upper, DebugWord, PrintWord;
  }

  /** The namespaces that are visible here. */
  predicate Spaces(h: Heap, env: nat, spaces: seq<string>) {
    match Get(h.scopes, env, "__uses__")
    case Some(v) => v == Arr(Texts(spaces))
    case None => spaces == []
  }

  /** Any other call: the first defined name decides; a builtin found by its bare name has its
      arguments counted first, and a user function is called with them. */
  lemma CallAnswers(k: Config, fuel: nat, env: nat, depth: nat, name: string, args: seq<Value>, h: Heap, spaces: seq<string>, i: nat)
    requires !DebugWord(name) && !PrintWord(name) && Spaces(h, env, spaces)
    requires i <= 2 * |spaces| && Defined(k, Candidate(spaces, name, i))
    requires forall j: nat :: j < i ==> !Defined(k, Candidate(spaces, name, j))
    ensures var c, n := Candidate(spaces, name, i), |args|;
      RunCall(k, fuel, env, depth, name, args, h) ==
        if c !in k.builtins then RunUser(k, fuel, depth, k.fns[c], args, h)
        else
          var b := k.builtins[c];
          if i == 2 * |spaces| && (0 <= n < b.min || n > b.max >= 0) then Ran(Err(Failed("arity")), h)
          else if b.kind.HigherOrder? then RunHof(k, fuel, b.kind.hof, args, h)
          else match b.kind.f(args)
            case Ok(v) => Ran(Val(v), h)
            case Fail(m) => Ran(Err(Failed(m)), h)
  {
    DebugNames(name);
    FirstDefinedWins(k, spaces, name, i);
    hide Upper, DebugWord, PrintWord, Candidate, Resolve, Texts, RunHof, RunUser;
  }

  /** A call whose names are all undefined says so. */
  lemma UndefinedCall(k: Config, fuel: nat, env: nat, depth: nat, name: string, args: seq<Value>, h: Heap, spaces: seq<string>)
    requires !DebugWord(name) && !PrintWord(name) && Spaces(h, env, spaces)
    requires forall j: nat :: j <= 2 * |spaces| ==> !Defined(k, Candidate(spaces, name, j))
    ensures RunCall(k, fuel, env, depth, name, args, h) == Ran(Err(NotDefined(name)), h)
  {
    DebugNames(name);
    NoneDefined(k, spaces, name);
    hide Upper, DebugWord, PrintWord, Candidate, Resolve, Texts;
  }

  /** After a `use` its namespace is the last of those that are visible. */
  lemma UseAdds(k: Config, fuel: nat, env: nat, depth: nat, ns: string, h: Heap, spaces: seq<string>)
    requires InLimit(k, depth) && env < |h.scopes| && Spaces(h, env, spaces)
    ensures var r := RunStmt(k, fuel, env, depth, Use(ns), h);
      r.out == Val(Null) && Spaces(r.h, env, spaces + [ns])
  {
    assert Texts(spaces) + [Str(ns)] == Texts(spaces + [ns]);
    var r := RunStmt(k, fuel, env, depth, Use(ns), h);
    assert USES in r.h.scopes[env].vars;
  }

  // ----- loops and parameters -----

  function CountUp(from: nat, n: nat): seq<Value> {
    seq(n, j => Num(from + j))
  }

  lemma {:induction false} PlacesLoop(k: Config, fuel: nat, env: nat, depth: nat, x: string, index: string,
                                      items: seq<Value>, i: nat, h: Heap)
    requires InLimit(k, depth) && i <= |items| && index != ""
    ensures RunRounds(k, fuel, env, depth, x, index, Ident(index), items, i, h).out == Val(Arr(CountUp(i, |items| - i)))
    decreases |items| - i
  {
    if i < |items| {
      var h1 := WithScope(h, Scope(Some(env), L.ForFrame(x, index, items[i], i), false));
      PlacesLoop(k, fuel, env, depth, x, index, items, i + 1, h1);
      FoundHere(k, fuel, env, depth, L.ForFrame(x, index, items[i], i), index, h);
      assert [Num(i)] + CountUp(i + 1, |items| - i - 1) == CountUp(i, |items| - i);
      hide RunExpr, CountUp;
    }
  }

  lemma {:induction false} ItemsLoop(k: Config, fuel: nat, env: nat, depth: nat, x: string, index: string,
                                     items: seq<Value>, i: nat, h: Heap)
    requires InLimit(k, depth) && i <= |items| && index != x
    ensures RunRounds(k, fuel, env, depth, x, index, Ident(x), items, i, h).out == Val(Arr(items[i..]))
    decreases |items| - i
  {
    if i < |items| {
      var h1 := WithScope(h, Scope(Some(env), L.ForFrame(x, index, items[i], i), false));
      ItemsLoop(k, fuel, env, depth, x, index, items, i + 1, h1);
      FoundHere(k, fuel, env, depth, L.ForFrame(x, index, items[i], i), x, h);
      assert [items[i]] + items[i + 1..] == items[i..];
      hide RunExpr;
    }
  }

  /** A name that the newest scope binds is found there. */
  lemma FoundHere(k: Config, fuel: nat, env: nat, depth: nat, vars: Frame, x: string, h: Heap)
    requires InLimit(k, depth) && x in vars
    ensures var h1 := WithScope(h, Scope(Some(env), vars, false));
      RunExpr(k, fuel, |h.scopes|, depth, Ident(x), h1) == Ran(Val(vars[x]), h1)
  {
  }

  /** In a loop over an array the variable is each item in turn, and the other one its place. */
  lemma ForBinds(k: Config, fuel: nat, env: nat, depth: nat, x: string, index: string, it: Expr, h: Heap)
    requires InLimit(k, depth)
    ensures var a := RunExpr(k, fuel, env, depth, it, h);
      a.out.Val? && a.out.v.Arr? ==>
        && (index != x ==> RunExpr(k, fuel, env, depth, For(x, index, it, Ident(x)), h).out == a.out)
        && (index != "" ==>
              RunExpr(k, fuel, env, depth, For(x, index, it, Ident(index)), h).out == Val(Arr(CountUp(0, |a.out.v.elems|))))
  {
    hide RunRounds, CountUp;
    var a := RunExpr(k, fuel, env, depth, it, h);
    if a.out.Val? && a.out.v.Arr? {
      var items := a.out.v.elems;
      assert items[0..] == items;
      if index != x {
        ItemsLoop(k, fuel, env, depth, x, index, items, 0, a.h);
        ForRuns(k, fuel, env, depth, x, index, it, Ident(x), h);
      }
      if index != "" {
        PlacesLoop(k, fuel, env, depth, x, index, items, 0, a.h);
        ForRuns(k, fuel, env, depth, x, index, it, Ident(index), h);
      }
      hide RunExpr;
    }
  }

  lemma ForRuns(k: Config, fuel: nat, env: nat, depth: nat, x: string, index: string, it: Expr, body: Expr, h: Heap)
    requires InLimit(k, depth)
    ensures var a := RunExpr(k, fuel, env, depth, it, h);
      a.out.Val? && a.out.v.Arr? ==>
        RunExpr(k, fuel, env, depth, For(x, index, it, body), h) ==
        RunRounds(k, fuel, env, depth, x, index, body, a.out.v.elems, 0, a.h)
  {
    hide RunRounds;
  }

  /** A closure finds each argument under the name of its parameter, the last of that name. */
  lemma ClosureBinds(k: Config, fuel: nat, f: Value, args: seq<Value>, i: nat, h: Heap)
    requires WellFormed(h) && f.Clo? && f.id < |h.clos| && InLimit(k, h.clos[f.id].depth + 1)
    requires var ps := h.clos[f.id].params; i < |ps| && i < |args| && h.clos[f.id].body == Ident(ps[i])
    requires forall j :: i < j < |h.clos[f.id].params| && j < |args| ==> h.clos[f.id].params[j] != h.clos[f.id].params[i]
    ensures RunLambda(k, fuel, f, args, h).out == Val(args[i])
  {
    var c := h.clos[f.id];
    var n := if |c.params| < |args| then |c.params| else |args|;
    assert WellFormedLambda(h, c);
    hide WellFormed;
    L.LastBinds(c.params, args, n, i);
    var h1 := Enter(h, f.id, L.Bind(c.params, args));
    assert h1.scopes[ArgScope(h, f.id)].vars == L.Bind(c.params, args);
  }

  /** After a `let` its name stands for the value, and every other name for what it did. */
  lemma LetBinds(k: Config, fuel: nat, env: nat, depth: nat, x: string, e: Expr, h: Heap)
    requires InLimit(k, depth)
    ensures var a, r := RunExpr(k, fuel, env, depth, e, h), RunStmt(k, fuel, env, depth, Let(x, e), h);
      if !a.out.Val? then r == a
      else
        && r.out == Val(Null)
        && (env < |a.h.scopes| ==> forall y :: Get(r.h.scopes, env, y) == if y == x then Some(a.out.v) else Get(a.h.scopes, env, y))
  {
    hide RunExpr;
    var a := RunExpr(k, fuel, env, depth, e, h);
    if a.out.Val? && env < |a.h.scopes| {
      forall y ensures Get(WithVar(a.h, env, x, a.out.v).scopes, env, y) == if y == x then Some(a.out.v) else Get(a.h.scopes, env, y) {
        GetAbove(a.h, env, x, a.out.v, y);
      }
      hide Get;
    }
  }

  /** A name bound in one scope changes nothing further out. */
  lemma GetAbove(h: Heap, env: nat, x: string, v: Value, y: string)
    requires env < |h.scopes|
    ensures Get(WithVar(h, env, x, v).scopes, env, y) == if y == x then Some(v) else Get(h.scopes, env, y)
  {
    var h' := WithVar(h, env, x, v);
    if h.scopes[env].parent.Some? && h.scopes[env].parent.value < env {
      GetOutside(h, env, x, v, y, h.scopes[env].parent.value);
    }
  }

  lemma {:induction false} GetOutside(h: Heap, env: nat, x: string, v: Value, y: string, r: nat)
    requires r < env < |h.scopes|
    ensures Get(WithVar(h, env, x, v).scopes, r, y) == Get(h.scopes, r, y)
    decreases r
  {
    if h.scopes[r].parent.Some? && h.scopes[r].parent.value < r {
      GetOutside(h, env, x, v, y, h.scopes[r].parent.value);
    }
  }
}
