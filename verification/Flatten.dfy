/** Flattening nested objects to dotted keys, and rebuilding them from those keys. */
module Flatten {
  import opened Wrappers
  import opened Path

  type Fields = map<string, Json>

  /** What flattening stops at: anything but an object with something in it. */
  predicate Leaf(v: Json) {
    !v.Obj? || v.fields == map[]
  }

  /** `p` leads through nested objects to a leaf. */
  predicate LeafPath(m: Fields, p: seq<string>)
    decreases p
  {
    && p != [] && p[0] in m
    && if |p| == 1 then Leaf(m[p[0]]) else !Leaf(m[p[0]]) && LeafPath(m[p[0]].fields, p[1..])
  }

  function At(m: Fields, p: seq<string>): Json
    requires LeafPath(m, p)
    decreases p
  {
    if |p| == 1 then m[p[0]] else At(m[p[0]].fields, p[1..])
  }

  /** The flat key of a path below a prefix, the way the walk spells it. */
  function Name(prefix: string, p: seq<string>): string
    requires p != []
    decreases p
  {
    var full := if prefix == "" then p[0] else prefix + "." + p[0];
    if |p| == 1 then full else Name(full, p[1..])
  }

  /** `out` has the flat keys of `m` below `prefix`, each with a leaf it stands for. */
  ghost predicate Covers(out: Fields, m: Fields, prefix: string) {
    && (forall p :: LeafPath(m, p) ==> Name(prefix, p) in out)
    && (forall s :: s in out ==> StandsFor(m, prefix, s, out[s]))
  }

  ghost predicate StandsFor(m: Fields, prefix: string, s: string, v: Json) {
    exists p :: LeafPath(m, p) && Name(prefix, p) == s && At(m, p) == v
  }

  /** Walks nested objects in any order, writing every leaf under its dotted name; later
      writes win where two names collide. */
  method FlattenInto(m: Fields, prefix: string, out0: Fields) returns (out: Fields)
    ensures out.Keys >= out0.Keys
    ensures forall p :: LeafPath(m, p) ==> Name(prefix, p) in out
    ensures forall s :: s in out ==> StandsFor(m, prefix, s, out[s]) || (s in out0 && out[s] == out0[s])
    decreases Obj(m)
  {
    out := out0;
    var keys := m.Keys;
    while keys != {}
      invariant keys <= m.Keys && out.Keys >= out0.Keys
      invariant forall p :: LeafPath(m, p) && p[0] !in keys ==> Name(prefix, p) in out
      invariant forall s :: s in out ==> StandsFor(m, prefix, s, out[s]) || (s in out0 && out[s] == out0[s])
      decreases |keys|
    {
      var k :| k in keys;
      keys := keys - {k};
      var full := if prefix == "" then k else prefix + "." + k;
      ghost var before := out;
      if !Leaf(m[k]) {
        out := FlattenInto(m[k].fields, full, out);
        forall p | LeafPath(m, p) && p[0] == k ensures Name(prefix, p) in out {
          assert Name(prefix, p) == Name(full, p[1..]);
        }
        forall s | s in out && StandsFor(m[k].fields, full, s, out[s]) ensures StandsFor(m, prefix, s, out[s]) {
          var p :| LeafPath(m[k].fields, p) && Name(full, p) == s && At(m[k].fields, p) == out[s];
          NameBelow(m, prefix, k, p);
        }
      } else {
        out := out[full := m[k]];
        assert LeafPath(m, [k]) && Name(prefix, [k]) == full && At(m, [k]) == m[k];
        forall p | LeafPath(m, p) && p[0] == k ensures Name(prefix, p) in out {
          assert p == [k];
        }
      }
    }
  }

  lemma NameBelow(m: Fields, prefix: string, k: string, p: seq<string>)
    requires k in m && !Leaf(m[k]) && LeafPath(m[k].fields, p)
    ensures LeafPath(m, [k] + p) && At(m, [k] + p) == At(m[k].fields, p)
    ensures Name(prefix, [k] + p) == Name(if prefix == "" then k else prefix + "." + k, p)
  {
    assert ([k] + p)[1..] == p;
  }

  method FlattenObject(v: Json) returns (out: Fields)
    ensures v.Obj? ==> Covers(out, v.fields, "")
    ensures !v.Obj? ==> out == map[]
  {
    if !v.Obj? {
      return map[];
    }
    out := FlattenInto(v.fields, "", map[]);
  }

  // ----- which objects survive the round trip -----

  /** No key on the way to a leaf contains a dot. */
  predicate PlainKeys(m: Fields)
    decreases Obj(m)
  {
    forall k :: k in m ==> Path.Plain(k) && (m[k].Obj? ==> PlainKeys(m[k].fields))
  }

  /** And none at the top is empty. */
  predicate Flattenable(m: Fields) {
    PlainKeys(m) && "" !in m
  }

  lemma {:induction false} LeafSegments(m: Fields, p: seq<string>)
    requires PlainKeys(m) && LeafPath(m, p)
    ensures forall i :: 0 <= i < |p| ==> Path.Plain(p[i])
    decreases p
  {
    if |p| > 1 {
      LeafSegments(m[p[0]].fields, p[1..]);
      assert forall i :: 0 < i < |p| ==> p[i] == p[1..][i - 1];
    }
  }

  lemma {:induction false} NameIsJoin(prefix: string, p: seq<string>)
    requires p != [] && (prefix == "" ==> p[0] != "")
    ensures Name(prefix, p) == if prefix == "" then Join(p) else prefix + "." + Join(p)
    decreases p
  {
    if |p| > 1 {
      var full := if prefix == "" then p[0] else prefix + "." + p[0];
      NameIsJoin(full, p[1..]);
      assert full + "." + Join(p[1..]) == if prefix == "" then Join(p) else prefix + "." + Join(p);
    }
  }

  /** A flat key splits back into the very path it was made from. */
  lemma {:induction false} NameSplits(m: Fields, p: seq<string>)
    requires Flattenable(m) && LeafPath(m, p)
    ensures SplitPath(Name("", p)) == p
  {
    NameIsJoin("", p);
    LeafSegments(m, p);
    SplitJoin(p);
    assert Join(p) != "";
  }

  /** So flat keys are distinct, one for each leaf, and hold that leaf. */
  lemma {:induction false} OneKeyPerLeaf(out: Fields, m: Fields)
    requires Flattenable(m) && Covers(out, m, "")
    ensures forall p, q :: LeafPath(m, p) && LeafPath(m, q) && Name("", p) == Name("", q) ==> p == q
    ensures forall s :: s in out ==> LeafPath(m, SplitPath(s)) && out[s] == At(m, SplitPath(s)) && Name("", SplitPath(s)) == s
    ensures forall p :: LeafPath(m, p) ==> Name("", p) in out && out[Name("", p)] == At(m, p)
  {
    forall p | LeafPath(m, p) ensures SplitPath(Name("", p)) == p {
      NameSplits(m, p);
    }
    forall s | s in out
      ensures LeafPath(m, SplitPath(s)) && out[s] == At(m, SplitPath(s)) && Name("", SplitPath(s)) == s
    {
      assert StandsFor(m, "", s, out[s]);
    }
  }

  /** Each flat key reads its value back from the original. */
  lemma {:induction false} FlatKeysReadBack(atoi: Atoi, out: Fields, m: Fields, s: string)
    requires Flattenable(m) && Covers(out, m, "") && s in out
    ensures Resolve(atoi, Obj(m), SplitPath(s)) == Some(out[s])
  {
    OneKeyPerLeaf(out, m);
    ResolveLeaf(atoi, m, SplitPath(s));
  }

  lemma {:induction false} ResolveLeaf(atoi: Atoi, m: Fields, p: seq<string>)
    requires LeafPath(m, p)
    ensures Resolve(atoi, Obj(m), p) == Some(At(m, p))
    decreases p
  {
    if |p| > 1 {
      ResolveLeaf(atoi, m[p[0]].fields, p[1..]);
      assert m[p[0]] == Obj(m[p[0]].fields);
    }
  }

  // ----- rebuilding -----

  /** Writes the entries one after another. */
  function Rebuild(atoi: Atoi, out: Fields, order: seq<string>, v: Json): Json
    requires forall i :: 0 <= i < |order| ==> order[i] in out
    decreases order
  {
    if order == [] then v
    else Rebuild(atoi, out, order[1..], Set(atoi, v, order[0], out[order[0]]))
  }

  /** `order` lists every key of `out` once. */
  ghost predicate Lists(order: seq<string>, out: Fields) {
    && (forall s :: s in order <==> s in out)
    && (forall i, j :: 0 <= i < j < |order| ==> order[i] != order[j])
  }

  /** `r` is the part of `m` that leads to the leaves in `done`. */
  ghost predicate Carried(m: Fields, done: set<seq<string>>, r: Fields)
    decreases Obj(m), 0
  {
    && (forall k :: k in r <==> k in m && Reaches(done, k))
    && (forall k :: k in r && k in m ==> CarriedAt(m[k], Below(done, k), r[k]))
  }

  ghost predicate CarriedAt(v: Json, below: set<seq<string>>, w: Json)
    decreases v, 1
  {
    if Leaf(v) then w == v else w.Obj? && (assert Obj(v.fields) == v; Carried(v.fields, below, w.fields))
  }

  ghost predicate Reaches(done: set<seq<string>>, k: string) {
    exists p :: p in done && p != [] && p[0] == k
  }

  ghost function Below(done: set<seq<string>>, k: string): set<seq<string>> {
    set p | p in done && p != [] && p[0] == k :: p[1..]
  }

  lemma BelowMore(done: set<seq<string>>, p: seq<string>, k: string)
    requires p != []
    ensures Below(done + {p}, k) == if p[0] == k then Below(done, k) + {p[1..]} else Below(done, k)
    ensures Reaches(done + {p}, k) <==> Reaches(done, k) || p[0] == k
  {
    forall q | q in Below(done + {p}, k) ensures q in Below(done, k) || (p[0] == k && q == p[1..]) {
    }
    if Reaches(done, k) {
      var q :| q in done && q != [] && q[0] == k;
      assert q in done + {p};
    }
    if p[0] == k {
      assert p in done + {p};
    }
  }

  lemma NotReached(done: set<seq<string>>, k: string)
    requires !Reaches(done, k)
    ensures Below(done, k) == {}
  {
  }

  /** A new entry for the key that `p` begins with; the others stay. */
  lemma KeepPut(m: Fields, done: set<seq<string>>, p: seq<string>, r: Fields, x: Json)
    requires Carried(m, done, r) && p != [] && p[0] in m && CarriedAt(m[p[0]], Below(done + {p}, p[0]), x)
    ensures Carried(m, done + {p}, r[p[0] := x])
  {
    hide Below, CarriedAt, Reaches;
    var k, w := p[0], r[p[0] := x];
    forall j ensures j in w <==> j in m && Reaches(done + {p}, j) {
      BelowMore(done, p, j);
    }
    forall j | j in w && j in m ensures CarriedAt(m[j], Below(done + {p}, j), w[j]) {
      BelowMore(done, p, j);
    }
  }

  /** What has been kept below a key so far. */
  lemma KeptBelow(m: Fields, done: set<seq<string>>, k: string, r: Fields) returns (before: Fields)
    requires Carried(m, done, r) && k in m && !Leaf(m[k])
    ensures Carried(m[k].fields, Below(done, k), before)
    ensures if k in r then r[k] == Obj(before) else before == map[]
  {
    if k in r {
      before := r[k].fields;
    } else {
      before := map[];
      NotReached(done, k);
      NothingKept(m[k].fields);
    }
  }

  /** Setting one more leaf in what has been kept so far keeps one more leaf. */
  lemma {:induction false} KeepOneMore(atoi: Atoi, m: Fields, done: set<seq<string>>, p: seq<string>, r: Fields)
    requires LeafPath(m, p) && Carried(m, done, r)
    ensures var w := SetPath(atoi, Obj(r), p, At(m, p)); w.Obj? && Carried(m, done + {p}, w.fields)
    decreases p
  {
    hide Carried, Below, Reaches;
    var k, x := p[0], At(m, p);
    if |p| == 1 {
      KeepPut(m, done, p, r, x);
    } else {
      var sub := m[k].fields;
      var before := KeptBelow(m, done, k, r);
      KeepOneMore(atoi, sub, Below(done, k), p[1..], before);
      BelowMore(done, p, k);
      SetNil(atoi, p[1..], x);
      KeepPut(m, done, p, r, SetPath(atoi, Obj(before), p[1..], x));
    }
  }

  lemma NothingKept(m: Fields)
    ensures Carried(m, {}, map[])
  {
  }

  lemma SetNil(atoi: Atoi, segs: seq<string>, x: Json)
    requires segs != []
    ensures SetPath(atoi, Nil, segs, x) == SetPath(atoi, Obj(map[]), segs, x)
  {
  }

  /** Every entry of an object leads to a leaf. */
  lemma {:induction false} SomeLeaf(m: Fields, k: string) returns (p: seq<string>)
    requires k in m
    ensures LeafPath(m, p) && p[0] == k
    decreases Obj(m)
  {
    if Leaf(m[k]) {
      p := [k];
    } else {
      var j :| j in m[k].fields;
      var q := SomeLeaf(m[k].fields, j);
      p := [k] + q;
      assert p[1..] == q;
    }
  }

  /** With all leaves done the whole object is there again. */
  lemma {:induction false} AllKept(m: Fields, done: set<seq<string>>, r: Fields)
    requires (forall p :: p in done <==> LeafPath(m, p)) && Carried(m, done, r)
    ensures r == m
    decreases Obj(m)
  {
    forall k | k in m ensures k in r && r[k] == m[k] {
      var p := SomeLeaf(m, k);
      assert p in done;
      if !Leaf(m[k]) {
        var sub, below := m[k].fields, Below(done, k);
        forall q ensures q in below <==> LeafPath(sub, q) {
          if q in below {
            var s :| s in done && s != [] && s[0] == k && q == s[1..];
          }
          if LeafPath(sub, q) {
            NameBelow(m, "", k, q);
            assert [k] + q in done && ([k] + q)[1..] == q;
          }
        }
        AllKept(sub, below, r[k].fields);
        assert m[k] == Obj(m[k].fields);
      }
    }
  }

  ghost function Done(order: seq<string>): set<seq<string>> {
    set i | 0 <= i < |order| :: SplitPath(order[i])
  }

  lemma {:induction false} RebuildKeeps(atoi: Atoi, out: Fields, m: Fields, order: seq<string>, n: nat, r: Fields)
    requires Flattenable(m) && Covers(out, m, "") && n <= |order| && forall s :: s in order ==> s in out
    requires Carried(m, Done(order[..n]), r)
    ensures var w := Rebuild(atoi, out, order[n..], Obj(r)); w.Obj? && Carried(m, Done(order), w.fields)
    decreases |order| - n
  {
    if n == |order| {
      assert order[..n] == order && order[n..] == [];
    } else {
      var s := order[n];
      OneKeyPerLeaf(out, m);
      assert s in order;
      KeepOneMore(atoi, m, Done(order[..n]), SplitPath(s), r);
      DoneMore(order, n);
      assert order[n..][1..] == order[n + 1..];
      RebuildKeeps(atoi, out, m, order, n + 1, SetPath(atoi, Obj(r), SplitPath(s), out[s]).fields);
    }
  }

  lemma DoneMore(order: seq<string>, n: nat)
    requires n < |order|
    ensures Done(order[..n + 1]) == Done(order[..n]) + {SplitPath(order[n])}
  {
    var a, b := order[..n], order[..n + 1];
    forall q | q in Done(b) ensures q in Done(a) + {SplitPath(order[n])} {
      var i :| 0 <= i < |b| && SplitPath(b[i]) == q;
      assert i < n ==> a[i] == b[i];
    }
    forall q | q in Done(a) ensures q in Done(b) {
      var i :| 0 <= i < |a| && SplitPath(a[i]) == q;
      assert b[i] == a[i];
    }
    assert SplitPath(b[n]) in Done(b);
  }

  lemma {:induction false} DoneAll(out: Fields, m: Fields, order: seq<string>)
    requires Flattenable(m) && Covers(out, m, "") && Lists(order, out)
    ensures forall p :: p in Done(order) <==> LeafPath(m, p)
  {
    OneKeyPerLeaf(out, m);
    forall p ensures p in Done(order) <==> LeafPath(m, p) {
      if p in Done(order) {
        var i :| 0 <= i < |order| && SplitPath(order[i]) == p;
        assert order[i] in order;
      }
      if LeafPath(m, p) {
        NameSplits(m, p);
        var i :| 0 <= i < |order| && order[i] == Name("", p);
        assert SplitPath(order[i]) == p;
      }
    }
  }

  /** Folding the flat entries back, in any order, gives the original. */
  lemma {:induction false} RebuildsOriginal(atoi: Atoi, out: Fields, m: Fields, order: seq<string>)
    requires Flattenable(m) && Covers(out, m, "") && Lists(order, out)
    ensures Rebuild(atoi, out, order, Obj(map[])) == Obj(m)
  {
    hide *;
    DoneNothing(order);
    ListsOnly(order, out);
    NothingKept(m);
    RebuildKeeps(atoi, out, m, order, 0, map[]);
    assert order[0..] == order;
    DoneAll(out, m, order);
    AllKept(m, Done(order), Rebuild(atoi, out, order, Obj(map[])).fields);
  }

  lemma DoneNothing(order: seq<string>)
    ensures Done(order[..0]) == {}
  {
  }

  lemma ListsOnly(order: seq<string>, out: Fields)
    requires Lists(order, out)
    ensures forall s :: s in order ==> s in out
  {
  }

  // ----- and only those -----

  /** Nothing a rebuild makes has a dotted key, or an empty one at the top. */
  predicate Clean(v: Json) {
    v.Obj? ==> PlainKeys(v.fields)
  }

  lemma {:induction false} SetClean(atoi: Atoi, v: Json, segs: seq<string>, x: Json)
    requires segs != [] && Clean(v) && Leaf(x) && forall i :: 0 <= i < |segs| ==> Path.Plain(segs[i])
    ensures Clean(SetPath(atoi, v, segs, x))
    ensures segs[0] != "" && (v.Obj? ==> "" !in v.fields) ==>
      var w := SetPath(atoi, v, segs, x); w.Obj? ==> "" !in w.fields
    decreases segs
  {
    if |segs| > 1 && !(v.Arr? && Points(atoi, v.elems, segs[0])) {
      var m := if v.Obj? then v.fields else map[];
      SetClean(atoi, Field(m, segs[0]), segs[1..], x);
    }
  }

  lemma {:induction false} RebuildClean(atoi: Atoi, out: Fields, order: seq<string>, v: Json)
    requires Clean(v) && forall i :: 0 <= i < |order| ==> order[i] in out && Leaf(out[order[i]])
    ensures Clean(Rebuild(atoi, out, order, v))
    ensures (forall i :: 0 <= i < |order| ==> order[i] == "" || order[i][0] != '.') && (v.Obj? ==> "" !in v.fields) ==>
      var w := Rebuild(atoi, out, order, v); w.Obj? ==> "" !in w.fields
    decreases order
  {
    if order != [] {
      var s := order[0];
      if s != "" {
        SplitIsPlain(s);
        SetClean(atoi, v, SplitPath(s), out[s]);
        if s[0] != '.' {
          FirstSegment(s);
        }
      }
      RebuildClean(atoi, out, order[1..], Set(atoi, v, s, out[s]));
    }
  }

  lemma FirstSegment(s: string)
    requires s != "" && s[0] != '.'
    ensures Split(s)[0] != ""
  {
  }

  lemma {:induction false} NameStart(prefix: string, p: seq<string>)
    requires p != [] && (prefix == "" || prefix[0] != '.') && forall i :: 0 <= i < |p| ==> Path.Plain(p[i])
    ensures Name(prefix, p) == "" || Name(prefix, p)[0] != '.'
    decreases p
  {
    var full := if prefix == "" then p[0] else prefix + "." + p[0];
    if |p| > 1 {
      NameStart(full, p[1..]);
    }
  }

  lemma {:induction false} AtIsLeaf(m: Fields, p: seq<string>)
    requires LeafPath(m, p)
    ensures Leaf(At(m, p))
    decreases p
  {
    if |p| > 1 {
      AtIsLeaf(m[p[0]].fields, p[1..]);
    }
  }

  /** The round trip works for exactly the objects whose keys are free of dots, with no
      empty key at the top. */
  lemma {:induction false} RebuildsIff(atoi: Atoi, out: Fields, m: Fields, order: seq<string>)
    requires Covers(out, m, "") && Lists(order, out)
    ensures Rebuild(atoi, out, order, Obj(map[])) == Obj(m) <==> Flattenable(m)
  {
    if Flattenable(m) {
      RebuildsOriginal(atoi, out, m, order);
    } else {
      forall i | 0 <= i < |order| ensures order[i] in out && Leaf(out[order[i]]) {
        assert order[i] in order && StandsFor(m, "", order[i], out[order[i]]);
        var p :| LeafPath(m, p) && Name("", p) == order[i] && At(m, p) == out[order[i]];
        AtIsLeaf(m, p);
      }
      if PlainKeys(m) {
        forall i | 0 <= i < |order| ensures order[i] == "" || order[i][0] != '.' {
          assert StandsFor(m, "", order[i], out[order[i]]);
          var p :| LeafPath(m, p) && Name("", p) == order[i] && At(m, p) == out[order[i]];
          LeafSegments(m, p);
          NameStart("", p);
        }
      }
      RebuildClean(atoi, out, order, Obj(map[]));
    }
  }
}
