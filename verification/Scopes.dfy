/** The scope object itself: four inline slots, spill storage, and a parent. */
module Scopes {
  import opened Wrappers
  import opened Syntax
  import Lexical

  const ENV_INLINE: nat := 4

  predicate NoRepeats(ks: seq<string>) {
    forall i, j :: 0 <= i < j < |ks| ==> ks[i] != ks[j]
  }

  /** The bindings two parallel lists stand for. */
  function FromLists(ks: seq<string>, vs: seq<Value>): Frame
    requires |ks| == |vs|
  {
    if ks == [] then map[]
    else FromLists(ks[..|ks| - 1], vs[..|vs| - 1])[ks[|ks| - 1] := vs[|vs| - 1]]
  }

  lemma {:induction false} ListsAt(ks: seq<string>, vs: seq<Value>)
    requires |ks| == |vs| && NoRepeats(ks)
    ensures forall x :: x in FromLists(ks, vs) <==> x in ks
    ensures forall i :: 0 <= i < |ks| ==> ks[i] in FromLists(ks, vs) && FromLists(ks, vs)[ks[i]] == vs[i]
    decreases |ks|
  {
    if ks != [] {
      var m := |ks| - 1;
      var f := FromLists(ks[..m], vs[..m]);
      ListsAt(ks[..m], vs[..m]);
      assert ks == ks[..m] + [ks[m]];
      forall i | 0 <= i < |ks| ensures ks[i] in FromLists(ks, vs) && FromLists(ks, vs)[ks[i]] == vs[i] {
        if i < m {
          assert ks[..m][i] == ks[i] && vs[..m][i] == vs[i];
        }
      }
    }
  }

  lemma ListsSet(ks: seq<string>, vs: seq<Value>, i: nat, v: Value)
    requires |ks| == |vs| && NoRepeats(ks) && i < |ks|
    ensures FromLists(ks, vs[i := v]) == FromLists(ks, vs)[ks[i] := v]
  {
    ListsAt(ks, vs);
    ListsAt(ks, vs[i := v]);
    var a, b := FromLists(ks, vs[i := v]), FromLists(ks, vs)[ks[i] := v];
    forall x | x in a ensures x in b && a[x] == b[x] {
      var j :| 0 <= j < |ks| && ks[j] == x;
    }
  }

  lemma ListsPush(ks: seq<string>, vs: seq<Value>, x: string, v: Value)
    requires |ks| == |vs|
    ensures FromLists(ks + [x], vs + [v]) == FromLists(ks, vs)[x := v]
  {
    assert (ks + [x])[..|ks|] == ks && (vs + [v])[..|vs|] == vs;
  }

  class Env {
    var parent: Env?
    // Inline slots, held in the object itself; only the first n are in use.
    var n: nat
    var names: seq<string>
    var vals: seq<Value>
    // Spill storage: backing arrays, of which the first m elements are in use.
    var m: nat
    var moreNames: array<string>
    var moreVals: array<Value>
    var reusable: bool

    /** Slots hold different names, and nothing spills while a slot is free. */
    ghost predicate Local()
      reads this, moreNames, moreVals
    {
      && |names| == |vals| == ENV_INLINE && n <= ENV_INLINE
      && m <= moreNames.Length && m <= moreVals.Length && (m > 0 ==> n == ENV_INLINE)
      && NoRepeats(names[..n] + moreNames[..m])
    }

    /** The finite map this scope stands for. */
    ghost function Vars(): Frame
      requires Local()
      reads this, moreNames, moreVals
    {
      FromLists(names[..n] + moreNames[..m], vals[..n] + moreVals[..m])
    }

    constructor (parent: Env?)
      ensures Local() && Vars() == map[] && this.parent == parent && !reusable
      ensures fresh(moreNames) && fresh(moreVals)
    {
      this.parent := parent;
      n, m, reusable := 0, 0, false;
      names := ["", "", "", ""];
      vals := [Null, Null, Null, Null];
      moreNames := new string[0];
      moreVals := new Value[0];
    }

    /** A scope whose spill lists fill their arrays. */
    constructor Filled(parent: Env?, n: nat, names: seq<string>, vals: seq<Value>,
                       moreNames: array<string>, moreVals: array<Value>)
      ensures this.parent == parent && this.n == n && this.names == names && this.vals == vals && !reusable
      ensures this.moreNames == moreNames && this.moreVals == moreVals && m == moreNames.Length
    {
      this.parent, this.n, this.names, this.vals, reusable := parent, n, names, vals, false;
      this.moreNames, this.moreVals, m := moreNames, moreVals, moreNames.Length;
    }

    /** Drops every binding and moves the scope under another parent.  The spill arrays stay,
        cleared, to be filled again. */
    method Reset(parent: Env?)
      requires Local()
      modifies this, moreNames, moreVals
      ensures Local() && Vars() == map[] && this.parent == parent && reusable == old(reusable)
      ensures moreNames == old(moreNames) && moreVals == old(moreVals)
    {
      this.parent := parent;
      var i := 0;
      while i < n
        invariant 0 <= i <= n <= ENV_INLINE == |names| == |vals| && m <= moreNames.Length && m <= moreVals.Length
        invariant this.parent == parent && reusable == old(reusable)
        invariant moreNames == old(moreNames) && moreVals == old(moreVals)
      {
        names, vals := names[i := ""], vals[i := Null];
        i := i + 1;
      }
      n := 0;
      i := 0;
      while i < m
        invariant 0 <= i <= m <= moreNames.Length && m <= moreVals.Length && n == 0 && |names| == |vals| == ENV_INLINE
        invariant this.parent == parent && reusable == old(reusable)
        invariant moreNames == old(moreNames) && moreVals == old(moreVals)
      {
        moreNames[i], moreVals[i] := "", Null;
        i := i + 1;
      }
      m := 0;
    }

    /** Finds a binding of this scope only: the slots first, then the spill. */
    method LookupLocal(name: string) returns (v: Option<Value>)
      requires Local()
      ensures v == if name in Vars() then Some(Vars()[name]) else None
    {
      ghost var ks := names[..n] + moreNames[..m];
      ghost var vs := vals[..n] + moreVals[..m];
      ListsAt(ks, vs);
      var i := 0;
      while i < n
        invariant 0 <= i <= n
        invariant forall j :: 0 <= j < i ==> names[j] != name
      {
        if names[i] == name {
          assert ks[i] == name && vs[i] == vals[i];
          return Some(vals[i]);
        }
        i := i + 1;
      }
      i := 0;
      while i < m
        invariant 0 <= i <= m
        invariant forall j :: 0 <= j < i ==> moreNames[j] != name
      {
        if moreNames[i] == name {
          assert ks[n + i] == name && vs[n + i] == moreVals[i];
          return Some(moreVals[i]);
        }
        i := i + 1;
      }
      assert name !in ks;
      v := None;
    }

    /** Binds a name here, overwriting in place if it is already bound. */
    method Set(name: string, v: Value)
      requires Local()
      modifies this, moreNames, moreVals
      ensures Local() && Vars() == old(Vars())[name := v]
      ensures parent == old(parent) && reusable == old(reusable)
      ensures moreNames == old(moreNames) || fresh(moreNames)
      ensures moreVals == old(moreVals) || fresh(moreVals)
    {
      hide FromLists;
      ghost var ks := names[..n] + moreNames[..m];
      ghost var vs := vals[..n] + moreVals[..m];
      var i := 0;
      while i < n
        invariant 0 <= i <= n
        invariant forall j :: 0 <= j < i ==> names[j] != name
      {
        if names[i] == name {
          ListsSet(ks, vs, i, v);
          vals := vals[i := v];
          assert vals[..n] + moreVals[..m] == vs[i := v];
          return;
        }
        i := i + 1;
      }
      i := 0;
      while i < m
        invariant 0 <= i <= m
        invariant forall j :: 0 <= j < i ==> moreNames[j] != name
      {
        if moreNames[i] == name {
          ListsSet(ks, vs, n + i, v);
          moreVals[i] := v;
          assert names[..n] + moreNames[..m] == ks && vals[..n] + moreVals[..m] == vs[n + i := v];
          return;
        }
        i := i + 1;
      }
      assert name !in ks;
      ListsPush(ks, vs, name, v);
      if n < ENV_INLINE {
        names, vals := names[n := name], vals[n := v];
        n := n + 1;
      } else {
        Append(name, v);
      }
      assert names[..n] + moreNames[..m] == ks + [name] && vals[..n] + moreVals[..m] == vs + [v];
    }

    /** Appends to both spill lists: into their arrays while there is room behind the
        elements in use, else into larger copies. */
    method Append(name: string, v: Value)
      requires m <= moreNames.Length && m <= moreVals.Length
      modifies this, moreNames, moreVals
      ensures m == old(m) + 1 && m <= moreNames.Length && m <= moreVals.Length
      ensures moreNames[..m] == old(moreNames[..m]) + [name] && moreVals[..m] == old(moreVals[..m]) + [v]
      ensures moreNames == old(moreNames) || fresh(moreNames)
      ensures moreVals == old(moreVals) || fresh(moreVals)
      ensures n == old(n) && names == old(names) && vals == old(vals)
      ensures parent == old(parent) && reusable == old(reusable)
    {
      if m == moreNames.Length {
        moreNames := Regrow(moreNames, "");
      }
      if m == moreVals.Length {
        moreVals := Regrow(moreVals, Null);
      }
      moreNames[m], moreVals[m] := name, v;
      m := m + 1;
    }

    /** Walks the chain outwards, one scope at a time. */
    method Get(name: string, ghost c: Links) returns (v: Option<Value>)
      requires c.envs != [] && c.envs[0] == this && Chain(c)
      ensures v == Lexical.LookupFrames(Frames(c), name)
    {
      hide FromLists, NoRepeats, Env.Local, Env.Vars;
      ghost var fs := Frames(c);
      var s: Env? := this;
      ghost var i := 0;
      assert fs[0..] == fs;
      while s != null
        invariant 0 <= i <= |c.envs| && (s == if i < |c.envs| then c.envs[i] else null)
        invariant Lexical.LookupFrames(fs, name) == Lexical.LookupFrames(fs[i..], name)
        decreases |c.envs| - i
      {
        LinkAt(c, i);
        assert fs[i..][0] == s.Vars() && fs[i..][1..] == fs[i + 1..];
        v := s.LookupLocal(name);
        if v.Some? {
          return;
        }
        s := s.parent;
        i := i + 1;
      }
      v := None;
    }

    /** Copies the chain for as long as its scopes are reusable and shares the rest: the
        copies are new objects, with spill storage of their own, and the same bindings. */
    method Snapshot(ghost c: Links) returns (cp: Env, ghost d: Links)
      requires c.envs != [] && c.envs[0] == this && Chain(c)
      ensures d.envs != [] && d.envs[0] == cp && Chain(d) && Frames(d) == Frames(c)
      ensures reusable ==> Unshared(this, d)
      ensures !reusable ==> d == c
      ensures forall e :: e in d.envs ==> e in c.envs || fresh(e)
      ensures forall a :: a in d.names ==> a in c.names || fresh(a)
      ensures forall a :: a in d.vals ==> a in c.vals || fresh(a)
      ensures NoneReusable(d.envs) <==> Layered(c.envs)
      decreases |c.envs|
    {
      hide FromLists, NoRepeats, Env.Local, Env.Vars, Linked, Layered, NoneReusable, Frames;
      FirstLocal(c);
      if !reusable {
        LayeredFirst(c.envs);
        return this, c;
      }
      ghost var rest := Tail(c);
      TailChain(c);
      var p: Env? := null;
      if parent != null {
        p, rest := parent.Snapshot(rest);
      } else {
        NoLinks(rest.envs);
      }
      cp, d := CopyOnto(p, rest);
      LayeredCons(cp, rest.envs);
      LayeredCons(this, c.envs[1..]);
      assert c.envs == [this] + c.envs[1..];
      TailChain(c);
    }

    /** A copy of this scope in front of a chain. */
    method CopyOnto(p: Env?, ghost rest: Links) returns (cp: Env, ghost d: Links)
      requires Local() && Chain(rest) && p == if rest.envs == [] then null else rest.envs[0]
      ensures fresh(cp) && fresh(cp.moreNames) && fresh(cp.moreVals) && !cp.reusable
      ensures d == Links([cp] + rest.envs, [cp.moreNames] + rest.names, [cp.moreVals] + rest.vals)
      ensures Chain(rest) && Chain(d) && Frames(d) == [Vars()] + Frames(rest)
    {
      hide FromLists, NoRepeats, Env.Local, Env.Vars, Linked;
      ghost var fs := Frames(rest);
      cp := CopyTo(p);
      assert Chain(rest) && Frames(rest) == fs;
      LinkCons(cp, rest);
      d := Links([cp] + rest.envs, [cp.moreNames] + rest.names, [cp.moreVals] + rest.vals);
    }

    /** A new scope with the same bindings in storage of its own. */
    method CopyTo(p: Env?) returns (cp: Env)
      requires Local()
      ensures fresh(cp) && fresh(cp.moreNames) && fresh(cp.moreVals)
      ensures cp.Local() && cp.Vars() == Vars() && cp.parent == p && !cp.reusable
    {
      var ns := Prefix(moreNames, m, "");
      var vs := Prefix(moreVals, m, Null);
      cp := new Env.Filled(p, n, names, vals, ns, vs);
      SameLists(this, cp);
    }
  }

  /** Scopes with the same lists stand for the same map. */
  lemma SameLists(e: Env, f: Env)
    requires e.Local() && f.n == e.n && f.names == e.names && f.vals == e.vals && f.m == e.m
    requires f.moreNames.Length == f.moreVals.Length == f.m
    requires f.moreNames[..] == e.moreNames[..e.m] && f.moreVals[..] == e.moreVals[..e.m]
    ensures f.Local() && f.Vars() == e.Vars()
  {
    hide FromLists, NoRepeats;
    assert f.moreNames[..f.m] == f.moreNames[..] && f.moreVals[..f.m] == f.moreVals[..];
  }

  /** A larger array with the same elements in front. */
  method Regrow<T>(a: array<T>, zero: T) returns (b: array<T>)
    ensures fresh(b) && b.Length > a.Length && b[..a.Length] == a[..]
  {
    b := new T[2 * a.Length + 1](_ => zero);
    var i := 0;
    while i < a.Length
      invariant 0 <= i <= a.Length && b[..i] == a[..i]
    {
      b[i] := a[i];
      i := i + 1;
    }
  }

  /** A new array of the first `n` elements. */
  method Prefix<T>(a: array<T>, n: nat, zero: T) returns (b: array<T>)
    requires n <= a.Length
    ensures fresh(b) && b[..] == a[..n]
  {
    b := new T[n](_ => zero);
    var i := 0;
    while i < n
      invariant 0 <= i <= n && b[..i] == a[..i]
    {
      b[i] := a[i];
      i := i + 1;
    }
  }

  /** A chain of scopes, with the spill storage of each. */
  datatype Links = Links(envs: seq<Env>, names: seq<array<string>>, vals: seq<array<Value>>)

  function Next(envs: seq<Env>, i: nat): Env? {
    if i + 1 < |envs| then envs[i + 1] else null
  }

  ghost predicate Linked(c: Links, i: nat)
    requires i < |c.envs| == |c.names| == |c.vals|
    reads c.envs, c.names, c.vals
  {
    && c.envs[i].moreNames == c.names[i] && c.envs[i].moreVals == c.vals[i]
    && c.envs[i].Local() && c.envs[i].parent == Next(c.envs, i)
  }

  /** The chain runs from a scope to its outermost ancestor, and no two scopes share storage. */
  ghost predicate Chain(c: Links)
    reads c.envs, c.names, c.vals
  {
    && |c.envs| == |c.names| == |c.vals|
    && (forall i :: 0 <= i < |c.envs| ==> Linked(c, i))
    && (forall i, j :: 0 <= i < j < |c.envs| ==>
         c.envs[i] != c.envs[j] && c.names[i] != c.names[j] && c.vals[i] != c.vals[j])
  }

  ghost function Frames(c: Links): (fs: seq<Frame>)
    requires Chain(c)
    reads c.envs, c.names, c.vals
    ensures |fs| == |c.envs|
  {
    seq(|c.envs|, i requires 0 <= i < |c.envs| requires Linked(c, i) reads c.envs, c.names, c.vals => c.envs[i].Vars())
  }

  /** The scope is not on the chain and shares no storage with it. */
  ghost predicate Unshared(e: Env, c: Links)
    reads e
  {
    e !in c.envs && e.moreNames !in c.names && e.moreVals !in c.vals
  }

  function Tail(c: Links): Links
    requires |c.envs| == |c.names| == |c.vals| > 0
  {
    Links(c.envs[1..], c.names[1..], c.vals[1..])
  }

  lemma LinkAt(c: Links, i: nat)
    requires Chain(c) && i < |c.envs|
    ensures c.envs[i].Local() && c.envs[i].parent == Next(c.envs, i) && Frames(c)[i] == c.envs[i].Vars()
  {
    assert Linked(c, i);
  }

  lemma FirstLocal(c: Links)
    requires Chain(c) && c.envs != []
    ensures c.envs[0].Local() && c.envs[0].moreNames == c.names[0] && c.envs[0].moreVals == c.vals[0]
  {
    assert Linked(c, 0);
  }

  lemma TailChain(c: Links)
    requires Chain(c) && c.envs != []
    ensures Chain(Tail(c)) && c.envs[0].Local() && Frames(c) == [c.envs[0].Vars()] + Frames(Tail(c))
    ensures Unshared(c.envs[0], Tail(c))
    ensures c.envs[0].parent == if |c.envs| > 1 then Tail(c).envs[0] else null
  {
    hide Env.Local, Env.Vars;
    var t := Tail(c);
    assert Linked(c, 0);
    forall i | 0 <= i < |t.envs| ensures Linked(t, i) {
      assert Linked(c, i + 1);
    }
  }

  lemma LinkCons(e: Env, t: Links)
    requires Chain(t) && Unshared(e, t) && e.Local() && e.parent == if t.envs == [] then null else t.envs[0]
    ensures var c := Links([e] + t.envs, [e.moreNames] + t.names, [e.moreVals] + t.vals);
      Chain(c) && Frames(c) == [e.Vars()] + Frames(t)
  {
    hide Env.Local, Env.Vars;
    var c := Links([e] + t.envs, [e.moreNames] + t.names, [e.moreVals] + t.vals);
    forall i | 0 <= i < |c.envs| ensures Linked(c, i) {
      if i > 0 {
        assert Linked(t, i - 1) && Next(c.envs, i) == Next(t.envs, i - 1);
      }
    }
    forall i, j | 0 <= i < j < |c.envs|
      ensures c.envs[i] != c.envs[j] && c.names[i] != c.names[j] && c.vals[i] != c.vals[j]
    {
      assert c.envs[j] == t.envs[j - 1] && c.names[j] == t.names[j - 1] && c.vals[j] == t.vals[j - 1];
      if i > 0 {
        assert c.envs[i] == t.envs[i - 1] && c.names[i] == t.names[i - 1] && c.vals[i] == t.vals[i - 1];
      }
    }
  }

  ghost predicate NoneReusable(envs: seq<Env>)
    reads envs
  {
    envs == [] || (!envs[0].reusable && NoneReusable(envs[1..]))
  }

  /** Reusable scopes, if any, come before all others. */
  ghost predicate Layered(envs: seq<Env>)
    reads envs
  {
    envs == [] || if envs[0].reusable then Layered(envs[1..]) else NoneReusable(envs)
  }

  lemma NoLinks(envs: seq<Env>)
    requires envs == []
    ensures NoneReusable(envs) && Layered(envs)
  {
  }

  lemma LayeredFirst(envs: seq<Env>)
    requires envs != [] && !envs[0].reusable
    ensures Layered(envs) <==> NoneReusable(envs)
  {
  }

  lemma LayeredCons(e: Env, t: seq<Env>)
    ensures e.reusable ==> (Layered([e] + t) <==> Layered(t))
    ensures !e.reusable ==> (NoneReusable([e] + t) <==> NoneReusable(t))
  {
    assert ([e] + t)[1..] == t;
  }

  /** One round of a loop over a scope: the bindings it makes, in order. */
  function Bindings(round: seq<(string, Value)>): Frame {
    if round == [] then map[]
    else Bindings(round[..|round| - 1])[round[|round| - 1].0 := round[|round| - 1].1]
  }

  /** Rebinds a scope for one round. */
  method Rebind(e: Env, parent: Env?, round: seq<(string, Value)>)
    requires e.Local()
    modifies e, e.moreNames, e.moreVals
    ensures e.Local() && e.Vars() == Bindings(round)
    ensures e.moreNames == old(e.moreNames) || fresh(e.moreNames)
    ensures e.moreVals == old(e.moreVals) || fresh(e.moreVals)
  {
    e.Reset(parent);
    var i := 0;
    while i < |round|
      invariant 0 <= i <= |round| && e.Local() && e.Vars() == Bindings(round[..i])
      invariant e.moreNames == old(e.moreNames) || fresh(e.moreNames)
      invariant e.moreVals == old(e.moreVals) || fresh(e.moreVals)
    {
      assert round[..i + 1][..i] == round[..i];
      e.Set(round[i].0, round[i].1);
      i := i + 1;
    }
    assert round[..|round|] == round;
  }

  /** A capture taken in the middle of a loop still shows its own round's bindings, spilled
      ones too, after the loop's scope has been rebound for any number of rounds. */
  method CaptureSurvivesRebinding(e: Env, ghost c: Links, outer: Env?, rounds: seq<seq<(string, Value)>>)
    returns (captured: Env, ghost d: Links)
    requires c.envs != [] && c.envs[0] == e && Chain(c) && e.reusable
    modifies e, e.moreNames, e.moreVals
    ensures d.envs != [] && d.envs[0] == captured && Chain(d)
    ensures Frames(d) == old(Frames(c))
    ensures rounds != [] ==> e.Local() && e.Vars() == Bindings(rounds[|rounds| - 1])
  {
    hide FromLists, NoRepeats, Env.Local, Env.Vars, Bindings, Linked;
    FirstLocal(c);
    captured, d := e.Snapshot(c);
    ghost var fs := Frames(d);
    var i := 0;
    while i < |rounds|
      invariant 0 <= i <= |rounds| && e.Local() && Chain(d) && Frames(d) == fs && Unshared(e, d)
      invariant e.moreNames == old(e.moreNames) || fresh(e.moreNames)
      invariant e.moreVals == old(e.moreVals) || fresh(e.moreVals)
      invariant i > 0 ==> e.Vars() == Bindings(rounds[i - 1])
    {
      Rebind(e, outer, rounds[i]);
      i := i + 1;
    }
  }

  /** A scope that is not reusable hides a reusable one from the copy, so a capture taken
      through it shows whatever the hidden scope is bound to next. */
  method CaptureThroughForIsRebound(ghost c: Links, e: Env, f: Env, name: string, v: Value)
    returns (captured: Env, ghost d: Links)
    requires |c.envs| > 2 && c.envs[0] == e && c.envs[1] == f && Chain(c) && e.Local()
    requires !e.reusable && f.reusable && name !in e.Vars()
    modifies f, f.moreNames, f.moreVals
    ensures captured == e && d.envs == [e, f] + c.envs[2..] && Chain(d)
    ensures Lexical.LookupFrames(Frames(d), name) == Some(v)
  {
    hide FromLists, NoRepeats, Env.Local, Env.Vars, Linked, Frames, Chain;
    captured, d := e.Snapshot(c);
    TwoLinks(c);
    ghost var rest := Tail(Tail(c));
    ghost var vars := e.Vars();
    f.Reset(f.parent);
    f.Set(name, v);
    assert e.Local() && e.Vars() == vars && Chain(rest);
    d := Relink(e, f, rest, name);
  }

  /** The first two scopes of a chain, and what is behind them. */
  lemma TwoLinks(c: Links)
    requires Chain(c) && |c.envs| > 2
    ensures |c.envs| == |c.names| == |c.vals|
    ensures var e, f, rest := c.envs[0], c.envs[1], Tail(Tail(c));
      && e.Local() && f.Local() && e.parent == f && f.parent == rest.envs[0] && Chain(rest) && rest.envs != []
      && e != f && e.moreNames != f.moreNames && e.moreVals != f.moreVals && Unshared(e, rest) && Unshared(f, rest)
  {
    hide FromLists, NoRepeats, Env.Local, Env.Vars, Linked, Frames;
    TailChain(c);
    TailChain(Tail(c));
    FirstLocal(c);
    FirstLocal(Tail(c));
    assert c.envs[1].moreNames in Tail(c).names && c.envs[1].moreVals in Tail(c).vals && c.envs[1] in Tail(c).envs;
  }

  /** A chain put together again after its second scope was rebound. */
  lemma Relink(e: Env, f: Env, rest: Links, name: string) returns (d: Links)
    requires Chain(rest) && rest.envs != [] && e.Local() && f.Local() && e.parent == f && f.parent == rest.envs[0]
    requires e != f && e.moreNames != f.moreNames && e.moreVals != f.moreVals && Unshared(e, rest) && Unshared(f, rest)
    ensures d.envs == [e, f] + rest.envs && Chain(d)
    ensures name !in e.Vars() && name in f.Vars() ==> Lexical.LookupFrames(Frames(d), name) == Some(f.Vars()[name])
  {
    hide FromLists, NoRepeats, Env.Local, Env.Vars, Linked, Frames, Chain;
    var tail := Links([f] + rest.envs, [f.moreNames] + rest.names, [f.moreVals] + rest.vals);
    LinkCons(f, rest);
    LinkCons(e, tail);
    d := Links([e] + tail.envs, [e.moreNames] + tail.names, [e.moreVals] + tail.vals);
    assert Frames(d)[1..] == Frames(tail);
  }
}
