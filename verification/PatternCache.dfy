/** The bounded cache of compiled patterns: a map for lookup, a list for recency. */
module PatternCache {

  const PATTERN_CACHE_SIZE: nat := 256

  // ----- recency -----

  function Without(s: seq<string>, p: string): seq<string> {
    if s == [] then [] else (if s[0] == p then [] else [s[0]]) + Without(s[1..], p)
  }

  /** Every pattern of a history once, the latest used first. */
  function Recent(h: seq<string>): seq<string> {
    if h == [] then [] else [h[|h| - 1]] + Without(Recent(h[..|h| - 1]), h[|h| - 1])
  }

  function Elems(s: seq<string>): set<string> {
    set x | x in s
  }

  function Take(s: seq<string>, n: nat): seq<string> {
    if |s| <= n then s else s[..n]
  }

  predicate Distinct(s: seq<string>) {
    forall i, j :: 0 <= i < j < |s| ==> s[i] != s[j]
  }

  lemma {:induction false} WithoutElems(s: seq<string>, p: string)
    ensures forall x :: x in Without(s, p) <==> x in s && x != p
    ensures Distinct(s) ==> Distinct(Without(s, p))
    decreases s
  {
    if s != [] {
      WithoutElems(s[1..], p);
      assert s == [s[0]] + s[1..];
      if Distinct(s) {
        assert forall i, j :: 0 <= i < j < |s[1..]| ==> s[1..][i] == s[i + 1] && s[1..][j] == s[j + 1];
        assert s[0] !in s[1..];
      }
    }
  }

  lemma {:induction false} WithoutConcat(s: seq<string>, t: seq<string>, p: string)
    ensures Without(s + t, p) == Without(s, p) + Without(t, p)
    decreases s
  {
    if s == [] {
      assert s + t == t;
    } else {
      assert (s + t)[1..] == s[1..] + t;
      WithoutConcat(s[1..], t, p);
    }
  }

  lemma {:induction false} WithoutAbsent(s: seq<string>, p: string)
    requires p !in s
    ensures Without(s, p) == s
    decreases s
  {
    if s != [] {
      WithoutAbsent(s[1..], p);
    }
  }

  lemma ConsDistinct(x: string, s: seq<string>)
    requires Distinct(s) && x !in s
    ensures Distinct([x] + s)
  {
  }

  lemma {:induction false} RecentElems(h: seq<string>)
    ensures Distinct(Recent(h)) && forall x :: x in Recent(h) <==> x in h
    decreases h
  {
    hide Distinct, Without;
    if h == [] {
      EmptyDistinct();
    } else {
      var n := |h| - 1;
      RecentElems(h[..n]);
      WithoutElems(Recent(h[..n]), h[n]);
      ConsDistinct(h[n], Without(Recent(h[..n]), h[n]));
      assert h == h[..n] + [h[n]];
    }
  }

  lemma EmptyDistinct()
    ensures Distinct([])
  {
  }

  lemma RecentStep(h: seq<string>, p: string)
    ensures Recent(h + [p]) == [p] + Without(Recent(h), p)
  {
    assert (h + [p])[..|h|] == h;
  }

  /** Using `q` brings it to the front and keeps what was in front of it together. */
  lemma {:induction false} Refront(r: seq<string>, i: nat, q: string) returns (front: seq<string>)
    requires Distinct(r) && i <= |r|
    ensures front == [q] + Without(r[..i], q)
    ensures [q] + Without(r, q) == front + Without(r[i..], q)
    ensures Elems(front) == Elems(r[..i]) + {q} && |front| == |Elems(front)|
  {
    hide Without;
    front := [q] + Without(r[..i], q);
    assert r == r[..i] + r[i..];
    WithoutConcat(r[..i], r[i..], q);
    WithoutElems(r[..i], q);
    ConsDistinct(q, Without(r[..i], q));
    DistinctCard(front);
  }

  /** The front of the recency order is made of exactly the latest uses: however far back
      one looks, the distinct patterns seen are a prefix of it. */
  lemma {:induction false} RecentIsLatest(h: seq<string>, k: nat)
    requires k <= |h|
    ensures var i := |Elems(h[k..])|; i <= |Recent(h)| && Elems(Recent(h)[..i]) == Elems(h[k..])
    decreases h
  {
    hide Distinct, Without;
    if k < |h| {
      var n := |h| - 1;
      RecentIsLatest(h[..n], k);
      RecentElems(h[..n]);
      var front := Refront(Recent(h[..n]), |Elems(h[..n][k..])|, h[n]);
      assert h[k..] == h[..n][k..] + [h[n]];
      assert Elems(h[k..]) == Elems(h[..n][k..]) + {h[n]};
      assert Recent(h)[..|front|] == front;
    } else {
      assert h[k..] == [];
    }
  }

  lemma {:induction false} DistinctCard(s: seq<string>)
    requires Distinct(s)
    ensures |Elems(s)| == |s|
    decreases s
  {
    if s != [] {
      assert forall i, j :: 0 <= i < j < |s[1..]| ==> s[1..][i] == s[i + 1] && s[1..][j] == s[j + 1];
      DistinctCard(s[1..]);
      assert s == [s[0]] + s[1..];
      assert Elems(s) == {s[0]} + Elems(s[1..]);
    }
  }

  /** A pattern is among the `n` latest exactly when some use of it is followed, itself
      included, by at most `n` different patterns. */
  lemma {:induction false} LatestIff(h: seq<string>, p: string, n: nat)
    ensures p in Take(Recent(h), n) <==> exists k :: 0 <= k < |h| && h[k] == p && |Elems(h[k..])| <= n
  {
    if k :| 0 <= k < |h| && h[k] == p && |Elems(h[k..])| <= n {
      UsedIsFront(h, k);
    }
    if p in Take(Recent(h), n) {
      var k := FrontWasUsed(h, p, n);
    }
  }

  lemma {:induction false} UsedIsFront(h: seq<string>, k: nat)
    requires k < |h|
    ensures |Elems(h[k..])| <= |Recent(h)| && h[k] in Recent(h)[..|Elems(h[k..])|]
  {
    hide Recent;
    RecentIsLatest(h, k);
    assert h[k..][0] == h[k];
    assert h[k] in Elems(Recent(h)[..|Elems(h[k..])|]);
  }

  lemma {:induction false} FrontWasUsed(h: seq<string>, p: string, n: nat) returns (k: nat)
    requires p in Take(Recent(h), n)
    ensures k < |h| && h[k] == p && |Elems(h[k..])| <= n
  {
    RecentElems(h);
    k := LastUse(h, p) by { TakeIn(Recent(h), n, p); }
    UseElems(h, k);
    RecentIsLatest(h, k);
    RecentIsLatest(h, k + 1);
    hide *;
    var r, e, f := Recent(h), Elems(h[k..]), Elems(h[k + 1..]);
    FrontGrows(r, |f|, e, f, p);
    TakeIndex(r, n, |f|, p);
  }

  lemma TakeIn(r: seq<string>, n: nat, p: string)
    requires p in Take(r, n)
    ensures p in r
  {
  }

  lemma UseElems(h: seq<string>, k: nat)
    requires k < |h| && h[k] !in h[k + 1..]
    ensures Elems(h[k..]) == Elems(h[k + 1..]) + {h[k]} && |Elems(h[k..])| == |Elems(h[k + 1..])| + 1
    ensures h[k] !in Elems(h[k + 1..])
  {
    assert h[k..] == [h[k]] + h[k + 1..];
  }

  lemma TakeIndex(r: seq<string>, n: nat, i: nat, p: string)
    requires Distinct(r) && p in Take(r, n) && i < |r| && r[i] == p
    ensures i < n
  {
    var j :| 0 <= j < |Take(r, n)| && Take(r, n)[j] == p;
    assert r[j] == p;
  }

  lemma FrontGrows(r: seq<string>, i: nat, e: set<string>, f: set<string>, p: string)
    requires Distinct(r) && i < |r| && Elems(r[..i + 1]) == e && Elems(r[..i]) == f && e == f + {p} && p !in f
    ensures r[i] == p
  {
    assert r[..i + 1] == r[..i] + [r[i]];
    assert r[i] in Elems(r[..i + 1]);
    assert r[i] !in r[..i];
  }

  lemma {:induction false} LastUse(h: seq<string>, p: string) returns (k: nat)
    requires p in h
    ensures k < |h| && h[k] == p && p !in h[k + 1..]
    decreases h
  {
    var n := |h| - 1;
    if h[n] == p {
      k := n;
    } else {
      k := LastUse(h[..n], p);
      assert h[k + 1..] == h[..n][k + 1..] + [h[n]];
    }
  }

  lemma TakeFront(a: seq<string>, b: seq<string>, n: nat)
    requires |a| >= n
    ensures Take(a + b, n) == Take(a, n)
  {
    assert (a + b)[..n] == a[..n];
  }

  /** One more use of a pattern that the cache holds. */
  lemma {:induction false} Hit(r: seq<string>, p: string, n: nat)
    requires Distinct(r) && p in Take(r, n)
    ensures Take([p] + Without(r, p), n) == [p] + Without(Take(r, n), p)
  {
    hide Without;
    var front := Take(r, n);
    var back := r[|front|..];
    assert r == front + back;
    SplitDistinct(front, back);
    var i :| 0 <= i < |front| && front[i] == p;
    WithoutConcat(front, back, p);
    WithoutAbsent(back, p);
    RemoveOne(front, p, i);
    var kept := [p] + Without(front, p);
    assert [p] + Without(r, p) == kept + back;
    if |r| > n {
      TakeFront(kept, back, n);
    }
  }

  /** And of one that it does not hold, wherever it is in the order. */
  lemma {:induction false} Miss(r: seq<string>, p: string, n: nat)
    requires Distinct(r) && p !in Take(r, n) && n > 0
    ensures Take([p] + Without(r, p), n) == Take([p] + Take(r, n), n)
  {
    hide Without;
    var front := Take(r, n);
    var back := r[|front|..];
    assert r == front + back;
    WithoutConcat(front, back, p);
    WithoutAbsent(front, p);
    assert [p] + Without(r, p) == ([p] + front) + Without(back, p);
    if |r| > n {
      TakeFront([p] + front, Without(back, p), n);
    } else {
      WithoutAbsent(back, p);
    }
  }

  lemma TakeDistinct(r: seq<string>, n: nat)
    requires Distinct(r)
    ensures Distinct(Take(r, n))
  {
  }

  lemma SplitDistinct(a: seq<string>, b: seq<string>)
    requires Distinct(a + b)
    ensures Distinct(a) && forall x :: x in a ==> x !in b
  {
    var s := a + b;
    assert forall i :: 0 <= i < |a| ==> a[i] == s[i];
    forall i, j | 0 <= i < |a| && 0 <= j < |b| ensures a[i] != b[j] {
      assert s[i] == a[i] && s[|a| + j] == b[j];
    }
  }

  lemma {:induction false} RemoveOne(s: seq<string>, p: string, i: nat)
    requires Distinct(s) && i < |s| && s[i] == p
    ensures Without(s, p) == s[..i] + s[i + 1..] && |Without(s, p)| == |s| - 1
  {
    var a, b := s[..i], s[i + 1..];
    assert s == a + ([p] + b);
    SplitDistinct(a, [p] + b);
    SplitDistinct(a + [p], b) by { assert s == a + [p] + b; }
    assert p in a + [p] && p in [p] + b;
    WithoutFirst(p, b);
    WithoutConcat(a, [p] + b, p);
    WithoutAbsent(a, p);
    WithoutAbsent(b, p);
  }

  lemma WithoutFirst(p: string, b: seq<string>)
    ensures Without([p] + b, p) == Without(b, p)
  {
    assert ([p] + b)[1..] == b;
  }

  // ----- the cache -----

  datatype CacheEntry<R> = CacheEntry(pattern: string, result: R)

  function Patterns<R>(order: seq<CacheEntry<R>>): seq<string> {
    seq(|order|, i requires 0 <= i < |order| => order[i].pattern)
  }

  /** An LRU cache over compile results; a failure to compile is a result like any other. */
  class RegexCache<R(==)> {
    const compile: string -> R
    var entries: map<string, CacheEntry<R>>
    var order: seq<CacheEntry<R>>  // front is most recently used
    ghost var history: seq<string>

    ghost predicate Valid()
      reads this
    {
      && Patterns(order) == Take(Recent(history), PATTERN_CACHE_SIZE)
      && (forall e :: e in order ==> e.pattern in entries && entries[e.pattern] == e && e.result == compile(e.pattern))
      && (forall p :: p in entries ==> entries[p] in order && entries[p].pattern == p)
    }

    constructor (compile: string -> R)
      ensures Valid() && history == [] && this.compile == compile
    {
      this.compile := compile;
      entries, order, history := map[], [], [];
    }

    /** Answers as a fresh compile would, and leaves the most recently used patterns. */
    method CompilePattern(pattern: string) returns (r: R)
      requires Valid()
      modifies this
      ensures Valid() && history == old(history) + [pattern]
      ensures r == compile(pattern)
    {
      hide Recent, Without, Distinct;
      IndexMatches(pattern);
      if pattern in entries {
        var el := entries[pattern];
        RecentElems(history);
        RecentStep(history, pattern);
        TakeDistinct(Recent(history), PATTERN_CACHE_SIZE);
        Hit(Recent(history), pattern, PATTERN_CACHE_SIZE);
        MoveToFront(el);
        history := history + [pattern];
        return el.result;
      }
      r := compile(pattern);
      PushFront(CacheEntry(pattern, r));
    }

    /** Adds an entry at the front and evicts the oldest one when there are too many. */
    method PushFront(el: CacheEntry<R>)
      requires Valid() && el.pattern !in entries && el.result == compile(el.pattern)
      modifies this
      ensures Valid() && history == old(history) + [el.pattern]
    {
      hide Recent, Without, Distinct;
      RecentElems(history);
      RecentStep(history, el.pattern);
      TakeDistinct(Recent(history), PATTERN_CACHE_SIZE);
      IndexMatches(el.pattern);
      Miss(Recent(history), el.pattern, PATTERN_CACHE_SIZE);
      order := [el] + order;
      entries := entries[el.pattern := el];
      assert Patterns(order) == [el.pattern] + Patterns(old(order));
      ConsDistinct(el.pattern, Patterns(old(order)));
      if |order| > PATTERN_CACHE_SIZE {
        EvictOldest();
      }
      history := history + [el.pattern];
    }

    /** Moves an element that is in the list to its front. */
    method MoveToFront(el: CacheEntry<R>)
      requires el in order && Distinct(Patterns(order))
      modifies this`order
      ensures Patterns(order) == [el.pattern] + Without(old(Patterns(order)), el.pattern)
      ensures forall x :: x in order <==> x in old(order)
    {
      var i := 0;
      while order[i] != el
        invariant 0 <= i < |order| && el in order[i..]
        decreases |order| - i
      {
        i := i + 1;
      }
      RemoveOne(Patterns(order), el.pattern, i);
      order := [el] + order[..i] + order[i + 1..];
      assert Patterns(order) == [el.pattern] + (old(Patterns(order))[..i] + old(Patterns(order))[i + 1..]);
      assert old(order) == old(order)[..i] + [el] + old(order)[i + 1..];
    }

    /** Drops the back of the list and its index entry. */
    method EvictOldest()
      requires order != [] && Distinct(Patterns(order))
      modifies this
      ensures order == old(order)[..|old(order)| - 1] && history == old(history)
      ensures var gone := old(order)[|old(order)| - 1].pattern;
        && entries == old(entries) - {gone}
        && forall e :: e in order <==> e in old(order) && e.pattern != gone
    {
      var n := |order| - 1;
      forall e | e in order && e.pattern != order[n].pattern ensures e in order[..n] {
        var i :| 0 <= i < |order| && order[i] == e;
      }
      forall e | e in order[..n] ensures e.pattern != order[n].pattern {
        var i :| 0 <= i < n && order[i] == e;
        assert Patterns(order)[i] != Patterns(order)[n];
      }
      var oldest := order[|order| - 1];
      order := order[..|order| - 1];
      entries := entries - {oldest.pattern};
    }

    lemma IndexMatches(p: string)
      requires Valid()
      ensures p in entries <==> p in Patterns(order)
    {
      if p in Patterns(order) {
        var i :| 0 <= i < |order| && Patterns(order)[i] == p;
        assert order[i] in order;
      }
      if p in entries {
        var i :| 0 <= i < |order| && order[i] == entries[p];
        assert Patterns(order)[i] == p;
      }
    }

    /** What is cached, in terms of the calls alone: the patterns some use of which is
        followed by at most as many different patterns as the cache has room for. */
    lemma HoldsTheLatest(p: string)
      requires Valid()
      ensures p in entries <==>
        exists k :: 0 <= k < |history| && history[k] == p && |Elems(history[k..])| <= 256
      ensures |order| <= 256 && Distinct(Patterns(order))
    {
      LatestIff(history, p, PATTERN_CACHE_SIZE);
      RecentElems(history);
      IndexMatches(p);
      TakeDistinct(Recent(history), PATTERN_CACHE_SIZE);
    }
  }
}
