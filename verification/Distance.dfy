/** Spelling suggestions: the two-row edit distance and the search for a near name. */
module Distance {
  import opened Chars

  // ----- what the distance means -----

  /** One step of an edit script, read from the left end of a word to its right end. */
  datatype Edit = Keep | Substitute(c: char) | Insert(c: char) | Delete

  type Script = seq<Edit>

  function Cost(s: Script): nat {
    if s == [] then 0 else Cost(s[..|s| - 1]) + if s[|s| - 1].Keep? then 0 else 1
  }

  /** The script turns all of `a` into exactly `b`. */
  predicate Turns(s: Script, a: string, b: string)
    decreases s
  {
    if s == [] then a == [] && b == []
    else
      var t := s[..|s| - 1];
      match s[|s| - 1]
      case Keep => a != [] && b != [] && Last(a) == Last(b) && Turns(t, Init(a), Init(b))
      case Substitute(c) => a != [] && b != [] && Last(b) == c && Turns(t, Init(a), Init(b))
      case Insert(c) => b != [] && Last(b) == c && Turns(t, a, Init(b))
      case Delete => a != [] && Turns(t, Init(a), b)
  }

  function Last<T>(a: seq<T>): T
    requires a != []
  {
    a[|a| - 1]
  }

  function Init<T>(a: seq<T>): seq<T>
    requires a != []
  {
    a[..|a| - 1]
  }

  function Min(a: nat, b: nat): nat {
    if a < b then a else b
  }

  /** The recurrence the table is filled by. */
  function Dist(a: string, b: string): nat
    decreases |a| + |b|
  {
    if a == [] then |b|
    else if b == [] then |a|
    else Min(Min(Dist(a, Init(b)) + 1, Dist(Init(a), b) + 1),
             Dist(Init(a), Init(b)) + if Last(a) == Last(b) then 0 else 1)
  }

  lemma {:induction false} Push(s: Script, e: Edit)
    ensures Init(s + [e]) == s && Last(s + [e]) == e
    ensures Cost(s + [e]) == Cost(s) + if e.Keep? then 0 else 1
  {
    assert (s + [e])[..|s|] == s;
  }

  /** No script is cheaper than the recurrence says. */
  lemma {:induction false} DistIsLeast(s: Script, a: string, b: string)
    requires Turns(s, a, b)
    ensures Dist(a, b) <= Cost(s)
    decreases s
  {
    if s != [] {
      var t := Init(s);
      match Last(s) {
        case Keep => DistIsLeast(t, Init(a), Init(b));
        case Substitute(_) => DistIsLeast(t, Init(a), Init(b));
        case Insert(_) => DistIsLeast(t, a, Init(b));
        case Delete => DistIsLeast(t, Init(a), b);
      }
    }
  }

  /** And some script is exactly as cheap. */
  lemma {:induction false} DistIsReached(a: string, b: string) returns (s: Script)
    ensures Turns(s, a, b) && Cost(s) == Dist(a, b)
    decreases |a| + |b|
  {
    var t: Script;
    if a == [] && b == [] {
      s := [];
    } else if a == [] || (b != [] && Dist(a, b) == Dist(a, Init(b)) + 1) {
      t := DistIsReached(a, Init(b));
      s := t + [Insert(Last(b))];
      Push(t, Insert(Last(b)));
    } else if b == [] || Dist(a, b) == Dist(Init(a), b) + 1 {
      t := DistIsReached(Init(a), b);
      s := t + [Delete];
      Push(t, Delete);
    } else {
      t := DistIsReached(Init(a), Init(b));
      var e := if Last(a) == Last(b) then Keep else Substitute(Last(b));
      s := t + [e];
      Push(t, e);
    }
  }

  // ----- it is a metric -----

  lemma {:induction false} Reverse(s: Script, a: string, b: string) returns (r: Script)
    requires Turns(s, a, b)
    ensures Turns(r, b, a) && Cost(r) == Cost(s)
    decreases s
  {
    if s == [] {
      return [];
    }
    var t: Script, e: Edit;
    match Last(s) {
      case Keep => t := Reverse(Init(s), Init(a), Init(b)); e := Keep;
      case Substitute(_) => t := Reverse(Init(s), Init(a), Init(b)); e := Substitute(Last(a));
      case Insert(_) => t := Reverse(Init(s), a, Init(b)); e := Delete;
      case Delete => t := Reverse(Init(s), Init(a), b); e := Insert(Last(a));
    }
    r := t + [e];
    Push(t, e);
  }

  /** Doing one script after another takes no more than both together. */
  lemma {:induction false} Compose(p: Script, q: Script, a: string, b: string, c: string) returns (r: Script)
    requires Turns(p, a, b) && Turns(q, b, c)
    ensures Turns(r, a, c) && Cost(r) <= Cost(p) + Cost(q)
    decreases |p| + |q|
  {
    var t: Script;
    if p == [] && q == [] {
      return [];
    }
    if q != [] && Last(q).Insert? {
      t := Compose(p, Init(q), a, b, Init(c));
      Push(t, Last(q));
      return t + [Last(q)];
    }
    if p != [] && Last(p).Delete? {
      t := Compose(Init(p), q, Init(a), b, c);
      Push(t, Delete);
      return t + [Delete];
    }
    if Last(p).Insert? {
      t := ComposeInsert(p, q, a, b, c);
      return t;
    }
    if Last(q).Delete? {
      t := Compose(Init(p), Init(q), Init(a), Init(b), c);
      Push(t, Delete);
      return t + [Delete];
    }
    t := Compose(Init(p), Init(q), Init(a), Init(b), Init(c));
    var e := if Last(q).Keep? then Last(p) else Last(q);
    Push(t, e);
    r := t + [e];
  }

  /** The first script's last step puts in a character that the second one looks at. */
  lemma {:induction false} ComposeInsert(p: Script, q: Script, a: string, b: string, c: string) returns (r: Script)
    requires Turns(p, a, b) && Turns(q, b, c) && p != [] && q != [] && Last(p).Insert? && !Last(q).Insert?
    ensures Turns(r, a, c) && Cost(r) <= Cost(p) + Cost(q)
    decreases |p| + |q|, 0
  {
    if Last(q).Delete? {
      r := Compose(Init(p), Init(q), a, Init(b), c);
    } else {
      var t := Compose(Init(p), Init(q), a, Init(b), Init(c));
      Push(t, Insert(Last(c)));
      r := t + [Insert(Last(c))];
    }
  }

  lemma {:induction false} Symmetric(a: string, b: string)
    ensures Dist(a, b) == Dist(b, a)
  {
    var s := DistIsReached(a, b);
    var r := Reverse(s, a, b);
    DistIsLeast(r, b, a);
    s := DistIsReached(b, a);
    r := Reverse(s, b, a);
    DistIsLeast(r, a, b);
  }

  lemma {:induction false} Triangle(a: string, b: string, c: string)
    ensures Dist(a, c) <= Dist(a, b) + Dist(b, c)
  {
    var p := DistIsReached(a, b);
    var q := DistIsReached(b, c);
    var r := Compose(p, q, a, b, c);
    DistIsLeast(r, a, c);
  }

  lemma {:induction false} ZeroOnlyOnEqual(a: string, b: string)
    ensures Dist(a, b) == 0 <==> a == b
    decreases |a|
  {
    if a != [] && b != [] {
      ZeroOnlyOnEqual(Init(a), Init(b));
      assert a == Init(a) + [Last(a)] && b == Init(b) + [Last(b)];
    }
  }

  // ----- the two rows -----

  /** A cell from its three neighbours. */
  lemma Cell(a: string, b: string, i: nat, j: nat)
    requires 0 < i <= |a| && 0 < j <= |b|
    ensures Dist(a[..i], b[..j]) == Min(Min(Dist(a[..i], b[..j - 1]) + 1, Dist(a[..i - 1], b[..j]) + 1),
                                        Dist(a[..i - 1], b[..j - 1]) + if a[i - 1] == b[j - 1] then 0 else 1)
  {
    assert Init(a[..i]) == a[..i - 1] && Init(b[..j]) == b[..j - 1];
  }

  lemma Border(a: string, b: string)
    ensures Dist(a, []) == |a| && Dist([], b) == |b|
  {
  }

  method Levenshtein(a: string, b: string) returns (d: nat)
    ensures d == Dist(a, b)
    ensures exists s :: Turns(s, a, b) && Cost(s) == d
    ensures forall s :: Turns(s, a, b) ==> d <= Cost(s)
  {
    d := Rows(a, b);
    var s := DistIsReached(a, b);
    forall t | Turns(t, a, b) ensures d <= Cost(t) {
      DistIsLeast(t, a, b);
    }
  }

  method Rows(a: string, b: string) returns (d: nat)
    ensures d == Dist(a, b)
  {
    hide Dist;
    Border(a, b);
    if |a| == 0 {
      return |b|;
    }
    if |b| == 0 {
      return |a|;
    }
    var prev, curr := new nat[|b| + 1], new nat[|b| + 1];
    var j := 0;
    while j <= |b|
      invariant 0 <= j <= |b| + 1
      invariant forall m :: 0 <= m < j ==> prev[m] == Dist(a[..0], b[..m])
      modifies prev
    {
      Border([], b[..j]);
      prev[j] := j;
      j := j + 1;
    }
    var i := 1;
    while i <= |a|
      invariant 1 <= i <= |a| + 1 && prev.Length == curr.Length == |b| + 1 && prev != curr
      invariant fresh(prev) && fresh(curr)
      invariant forall m :: 0 <= m <= |b| ==> prev[m] == Dist(a[..i - 1], b[..m])
    {
      FillRow(a, b, i, prev, curr);
      prev, curr := curr, prev;
      i := i + 1;
    }
    assert a[..|a|] == a && b[..|b|] == b;
    d := prev[|b|];
  }

  /** The row for one more character of `a`, from the row before it. */
  method FillRow(a: string, b: string, i: nat, prev: array<nat>, curr: array<nat>)
    requires 1 <= i <= |a| && prev.Length == curr.Length == |b| + 1 && prev != curr
    requires forall m :: 0 <= m <= |b| ==> prev[m] == Dist(a[..i - 1], b[..m])
    modifies curr
    ensures forall m :: 0 <= m <= |b| ==> curr[m] == Dist(a[..i], b[..m])
  {
    hide Dist;
    Border(a[..i], b);
    curr[0] := i;
    var j := 1;
    while j <= |b|
      invariant 1 <= j <= |b| + 1
      invariant forall m :: 0 <= m < j ==> curr[m] == Dist(a[..i], b[..m])
    {
      Cell(a, b, i, j);
      var cost := if a[i - 1] == b[j - 1] then 0 else 1;
      curr[j] := Min(Min(curr[j - 1] + 1, prev[j] + 1), prev[j - 1] + cost);
      j := j + 1;
    }
  }

  // ----- the nearest candidate -----

  predicate Internal(c: string) {
    "__" <= c
  }

  function Gap(target: string, c: string): nat {
    Dist(Lower(target), Lower(c))
  }

  predicate Partial(target: string, c: string) {
    Lower(target) <= Lower(c) || Lower(c) <= Lower(target)
  }

  /** `i` is the first of the nearest candidates. */
  predicate Nearest(target: string, cs: seq<string>, i: nat) {
    && i < |cs| && !Internal(cs[i])
    && (forall j :: 0 <= j < |cs| && !Internal(cs[j]) ==> Gap(target, cs[i]) <= Gap(target, cs[j]))
    && (forall j :: 0 <= j < i && !Internal(cs[j]) ==> Gap(target, cs[i]) < Gap(target, cs[j]))
  }

  predicate Within(target: string, cs: seq<string>, maxDist: nat) {
    exists i :: 0 <= i < |cs| && !Internal(cs[i]) && Gap(target, cs[i]) <= maxDist
  }

  predicate FirstPartial(target: string, cs: seq<string>, i: nat) {
    && i < |cs| && !Internal(cs[i]) && Partial(target, cs[i])
    && forall j :: 0 <= j < i && !Internal(cs[j]) ==> !Partial(target, cs[j])
  }

  /** The first nearest candidate if one is near enough, else the first that is a prefix
      of the target or has it as a prefix, else nothing. */
  method ClosestMatch(target: string, candidates: seq<string>, maxDist: nat) returns (best: string)
    ensures Within(target, candidates, maxDist) ==>
      exists i: nat :: Nearest(target, candidates, i) && Gap(target, candidates[i]) <= maxDist && best == candidates[i]
    ensures !Within(target, candidates, maxDist) ==>
      || (exists i: nat :: FirstPartial(target, candidates, i) && best == candidates[i])
      || (best == "" && forall i :: 0 <= i < |candidates| && !Internal(candidates[i]) ==> !Partial(target, candidates[i]))
  {
    best := "";
    if |candidates| == 0 {
      return;
    }
    var low := Lower(target);
    var bestDist := maxDist + 1;
    ghost var at := 0;
    var i := 0;
    while i < |candidates|
      invariant 0 <= i <= |candidates| && bestDist <= maxDist + 1
      invariant forall j :: 0 <= j < i && !Internal(candidates[j]) ==> bestDist <= Gap(target, candidates[j])
      invariant bestDist <= maxDist ==>
        && at < i && best == candidates[at] && !Internal(best) && Gap(target, best) == bestDist
        && forall j :: 0 <= j < at && !Internal(candidates[j]) ==> bestDist < Gap(target, candidates[j])
    {
      if !("__" <= candidates[i]) {
        var d := Levenshtein(low, Lower(candidates[i]));
        if d < bestDist {
          bestDist, best, at := d, candidates[i], i;
        }
      }
      i := i + 1;
    }
    if bestDist <= maxDist {
      assert Nearest(target, candidates, at);
      return;
    }
    i := 0;
    while i < |candidates|
      invariant 0 <= i <= |candidates|
      invariant forall j :: 0 <= j < i && !Internal(candidates[j]) ==> !Partial(target, candidates[j])
    {
      if !("__" <= candidates[i]) && (low <= Lower(candidates[i]) || Lower(candidates[i]) <= low) {
        assert FirstPartial(target, candidates, i);
        return candidates[i];
      }
      i := i + 1;
    }
    best := "";
  }
}
