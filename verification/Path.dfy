/** Nested values addressed by dotted paths. */
module Path {
  import opened Wrappers

  datatype Json =
    | Nil
    | Scalar(n: int)
    | Arr(elems: seq<Json>)
    | Obj(fields: map<string, Json>)

  /** How a segment reads as a number, as an arbitrary function. */
  type Atoi = string -> Option<int>

  // ----- segments -----

  function Split(p: string): (segs: seq<string>)
    ensures segs != []
  {
    if p == "" then [""]
    else if p[0] == '.' then [""] + Split(p[1..])
    else
      var rest := Split(p[1..]);
      [[p[0]] + rest[0]] + rest[1..]
  }

  /** An empty path has no segments and addresses the value itself. */
  function SplitPath(p: string): seq<string> {
    if p == "" then [] else Split(p)
  }

  predicate Plain(k: string) {
    forall i :: 0 <= i < |k| ==> k[i] != '.'
  }

  function Join(segs: seq<string>): string
    requires segs != []
  {
    if |segs| == 1 then segs[0] else segs[0] + "." + Join(segs[1..])
  }

  lemma {:induction false} SplitPlain(k: string, rest: string)
    requires Plain(k)
    ensures Split(k) == [k]
    ensures Split(k + "." + rest) == [k] + Split(rest)
    decreases k
  {
    if k == "" {
      assert k + "." + rest == "." + rest;
      assert ("." + rest)[1..] == rest;
    } else {
      var s := k + "." + rest;
      assert s[1..] == k[1..] + "." + rest;
      SplitPlain(k[1..], rest);
      assert ([k[1..]] + Split(rest))[1..] == Split(rest);
      assert [k[0]] + k[1..] == k;
    }
  }

  lemma {:induction false} SplitJoin(segs: seq<string>)
    requires segs != [] && forall i :: 0 <= i < |segs| ==> Plain(segs[i])
    ensures Split(Join(segs)) == segs
    decreases segs
  {
    if |segs| == 1 {
      SplitPlain(segs[0], "");
    } else {
      SplitJoin(segs[1..]);
      SplitPlain(segs[0], Join(segs[1..]));
    }
  }

  lemma {:induction false} SplitIsPlain(p: string)
    ensures forall i :: 0 <= i < |Split(p)| ==> Plain(Split(p)[i])
    decreases p
  {
    if p != "" {
      SplitIsPlain(p[1..]);
    }
  }

  lemma {:induction false} JoinSplit(p: string)
    ensures Join(Split(p)) == p
    decreases p
  {
    if p != "" {
      JoinSplit(p[1..]);
      var rest := Split(p[1..]);
      if p[0] == '.' {
        assert ([""] + rest)[1..] == rest && "" + "." + p[1..] == p;
      } else {
        var segs := [[p[0]] + rest[0]] + rest[1..];
        assert segs == Split(p);
        if |rest| > 1 {
          assert segs[1..] == rest[1..];
          assert ([p[0]] + rest[0]) + "." + Join(rest[1..]) == [p[0]] + (rest[0] + "." + Join(rest[1..]));
        }
        assert [p[0]] + p[1..] == p;
      }
    }
  }

  /** A path is cut at each of its dots and nowhere else; the empty one has no segments. */
  lemma CutAtDots(p: string)
    ensures if p == "" then SplitPath(p) == [] else SplitPath(p) != [] && Join(SplitPath(p)) == p
    ensures forall i, j :: 0 <= i < |SplitPath(p)| && 0 <= j < |SplitPath(p)[i]| ==> SplitPath(p)[i][j] != '.'
  {
    SplitIsPlain(p);
    JoinSplit(p);
    forall i, j | 0 <= i < |SplitPath(p)| && 0 <= j < |SplitPath(p)[i]| ensures SplitPath(p)[i][j] != '.' {
      assert Plain(Split(p)[i]);
    }
  }

  // ----- reading -----

  /** The segment reads as a position of the array. */
  predicate Points(atoi: Atoi, elems: seq<Json>, seg: string) {
    var i := atoi(seg);
    i.Some? && 0 <= i.value < |elems|
  }

  function Descend(atoi: Atoi, v: Json, seg: string): Option<Json> {
    match v
    case Obj(m) => if seg in m then Some(m[seg]) else None
    case Arr(es) => if Points(atoi, es, seg) then Some(es[atoi(seg).value]) else None
    case _ => None
  }

  function Resolve(atoi: Atoi, v: Json, segs: seq<string>): Option<Json> {
    if segs == [] then Some(v)
    else
      var u := Descend(atoi, v, segs[0]);
      if u.Some? then Resolve(atoi, u.value, segs[1..]) else None
  }

  /** One step of a path: a key of an object, or the number of a place in an array. */
  predicate StepsTo(atoi: Atoi, v: Json, seg: string, u: Json) {
    || (v.Obj? && seg in v.fields && u == v.fields[seg])
    || (v.Arr? && atoi(seg).Some? && 0 <= atoi(seg).value < |v.elems| && u == v.elems[atoi(seg).value])
  }

  /** The values met on the way, from `v` to what the path addresses. */
  predicate Trail(atoi: Atoi, v: Json, segs: seq<string>, met: seq<Json>) {
    && |met| == |segs| + 1 && met[0] == v
    && forall i :: 0 <= i < |segs| ==> StepsTo(atoi, met[i], segs[i], met[i + 1])
  }

  lemma {:induction false} TrailEnds(atoi: Atoi, v: Json, segs: seq<string>, met: seq<Json>)
    requires Trail(atoi, v, segs, met)
    ensures Resolve(atoi, v, segs) == Some(met[|segs|])
    decreases segs
  {
    if segs != [] {
      assert StepsTo(atoi, met[0], segs[0], met[1]);
      TrailEnds(atoi, met[1], segs[1..], met[1..]);
    }
  }

  lemma {:induction false} TrailOf(atoi: Atoi, v: Json, segs: seq<string>) returns (met: seq<Json>)
    requires Resolve(atoi, v, segs).Some?
    ensures Trail(atoi, v, segs, met)
    decreases segs
  {
    met := [v];
    if segs != [] {
      var rest := TrailOf(atoi, Descend(atoi, v, segs[0]).value, segs[1..]);
      met := [v] + rest;
      forall i | 0 <= i < |segs| ensures StepsTo(atoi, met[i], segs[i], met[i + 1]) {
        if i > 0 {
          assert StepsTo(atoi, rest[i - 1], segs[1..][i - 1], rest[i]);
        }
      }
    }
  }

  /** A path resolves exactly if there is a trail, and to the end of it. */
  lemma ResolvesIff(atoi: Atoi, v: Json, segs: seq<string>)
    ensures Resolve(atoi, v, segs).Some? <==> exists met :: Trail(atoi, v, segs, met)
    ensures forall met :: Trail(atoi, v, segs, met) ==> Resolve(atoi, v, segs) == Some(met[|segs|])
  {
    if Resolve(atoi, v, segs).Some? {
      var _ := TrailOf(atoi, v, segs);
    }
    forall met | Trail(atoi, v, segs, met) ensures Resolve(atoi, v, segs) == Some(met[|segs|]) {
      TrailEnds(atoi, v, segs, met);
    }
  }

  method Get(atoi: Atoi, v: Json, path: string, fallback: Json) returns (r: Json)
    ensures var u := Resolve(atoi, v, SplitPath(path)); r == if u.Some? then u.value else fallback
    ensures forall met :: Trail(atoi, v, SplitPath(path), met) ==> r == met[|SplitPath(path)|]
    ensures (forall met :: !Trail(atoi, v, SplitPath(path), met)) ==> r == fallback
  {
    hide Trail;
    ResolvesIff(atoi, v, SplitPath(path));
    var segs := SplitPath(path);
    var current := v;
    var i := 0;
    assert segs[0..] == segs;
    while i < |segs|
      invariant 0 <= i <= |segs| && Resolve(atoi, v, segs) == Resolve(atoi, current, segs[i..])
    {
      assert segs[i..][0] == segs[i] && segs[i..][1..] == segs[i + 1..];
      var u := Descend(atoi, current, segs[i]);
      if u.None? {
        return fallback;
      }
      current := u.value;
      i := i + 1;
    }
    r := current;
  }

  method Has(atoi: Atoi, v: Json, path: string) returns (b: bool)
    ensures b <==> Resolve(atoi, v, SplitPath(path)).Some?
    ensures b <==> exists met :: Trail(atoi, v, SplitPath(path), met)
  {
    hide Trail;
    ResolvesIff(atoi, v, SplitPath(path));
    var segs := SplitPath(path);
    var current := v;
    var i := 0;
    assert segs[0..] == segs;
    while i < |segs|
      invariant 0 <= i <= |segs| && Resolve(atoi, v, segs) == Resolve(atoi, current, segs[i..])
    {
      assert segs[i..][0] == segs[i] && segs[i..][1..] == segs[i + 1..];
      var u := Descend(atoi, current, segs[i]);
      if u.None? {
        return false;
      }
      current := u.value;
      i := i + 1;
    }
    b := true;
  }

  // ----- writing -----

  function Field(m: map<string, Json>, k: string): Json {
    if k in m then m[k] else Nil
  }

  /** Rebuilds the containers along the path; what cannot be addressed becomes an object. */
  function SetPath(atoi: Atoi, v: Json, segs: seq<string>, x: Json): Json
    requires segs != []
    decreases segs
  {
    var seg := segs[0];
    if v.Arr? && Points(atoi, v.elems, seg) then
      var i := atoi(seg).value;
      Arr(v.elems[i := if |segs| == 1 then x else SetPath(atoi, v.elems[i], segs[1..], x)])
    else
      var m := if v.Obj? then v.fields else map[];
      Obj(m[seg := if |segs| == 1 then x else SetPath(atoi, Field(m, seg), segs[1..], x)])
  }

  function Write(atoi: Atoi, v: Json, segs: seq<string>, x: Json): Json {
    if segs == [] then x else SetPath(atoi, v, segs, x)
  }

  function Set(atoi: Atoi, v: Json, path: string, x: Json): Json {
    Write(atoi, v, SplitPath(path), x)
  }

  function DeletePath(atoi: Atoi, v: Json, segs: seq<string>): Json
    requires segs != []
    decreases segs
  {
    var seg := segs[0];
    match v
    case Obj(m) =>
      if seg !in m then v
      else if |segs| == 1 then Obj(m - {seg})
      else Obj(m[seg := DeletePath(atoi, m[seg], segs[1..])])
    case Arr(es) =>
      if !Points(atoi, es, seg) then v
      else
        var i := atoi(seg).value;
        Arr(if |segs| == 1 then es[..i] + es[i + 1..] else es[i := DeletePath(atoi, es[i], segs[1..])])
    case _ => v
  }

  function Erase(atoi: Atoi, v: Json, segs: seq<string>): Json {
    if segs == [] then v else DeletePath(atoi, v, segs)
  }

  function Delete(atoi: Atoi, v: Json, path: string): Json {
    Erase(atoi, v, SplitPath(path))
  }

  // ----- what a path does at each container -----

  /** Whatever stands at the front of a path, the rest of it works on what the front leads
      to, and the containers around are rebuilt. */
  lemma {:induction false} Composes(atoi: Atoi, v: Json, common: seq<string>, u: Json, rest: seq<string>, x: Json)
    requires Resolve(atoi, v, common) == Some(u) && rest != []
    ensures Resolve(atoi, v, common + rest) == Resolve(atoi, u, rest)
    ensures Write(atoi, v, common + rest, x) == Write(atoi, v, common, Write(atoi, u, rest, x))
    ensures Erase(atoi, v, common + rest) == Write(atoi, v, common, Erase(atoi, u, rest))
    decreases common
  {
    if common == [] {
      assert common + rest == rest;
    } else {
      var d := Descend(atoi, v, common[0]).value;
      assert (common + rest)[1..] == common[1..] + rest;
      Composes(atoi, d, common[1..], u, rest, x);
    }
  }

  /** Through a segment that numbers a place of an array, a path goes on with that element:
      writing changes that place alone, and deleting takes it out and closes the gap. */
  lemma ArrayPlace(atoi: Atoi, v: Json, common: seq<string>, es: seq<Json>, seg: string, i: nat, rest: seq<string>, x: Json)
    requires Resolve(atoi, v, common) == Some(Arr(es)) && atoi(seg) == Some(i) && i < |es|
    ensures var path := common + ([seg] + rest);
      && Resolve(atoi, v, path) == Resolve(atoi, es[i], rest)
      && Write(atoi, v, path, x) == Write(atoi, v, common, Arr(es[..i] + [Write(atoi, es[i], rest, x)] + es[i + 1..]))
      && Erase(atoi, v, path) == Write(atoi, v, common,
           Arr(es[..i] + (if rest == [] then [] else [Erase(atoi, es[i], rest)]) + es[i + 1..]))
  {
    var path := [seg] + rest;
    Composes(atoi, v, common, Arr(es), path, x);
    assert path[0] == seg && path[1..] == rest;
    assert forall y :: es[i := y] == es[..i] + [y] + es[i + 1..];
    assert es[..i] + [] + es[i + 1..] == es[..i] + es[i + 1..];
  }

  /** Through a key that is there, a path goes on with its value: writing changes that key
      alone, and deleting takes it out. */
  lemma ObjectKey(atoi: Atoi, v: Json, common: seq<string>, m: map<string, Json>, seg: string, rest: seq<string>, x: Json)
    requires Resolve(atoi, v, common) == Some(Obj(m)) && seg in m
    ensures var path := common + ([seg] + rest);
      && Resolve(atoi, v, path) == Resolve(atoi, m[seg], rest)
      && Write(atoi, v, path, x) == Write(atoi, v, common, Obj(m[seg := Write(atoi, m[seg], rest, x)]))
      && Erase(atoi, v, path) == Write(atoi, v, common,
           Obj(if rest == [] then m - {seg} else m[seg := Erase(atoi, m[seg], rest)]))
  {
    var path := [seg] + rest;
    Composes(atoi, v, common, Obj(m), path, x);
    assert path[0] == seg && path[1..] == rest;
  }

  /** The value has no place under this segment: an object without the key, an array for
      which the segment is no number, a negative one or one too large, or no container. */
  predicate NoPlace(atoi: Atoi, u: Json, seg: string) {
    match u
    case Obj(m) => seg !in m
    case Arr(es) => atoi(seg).None? || atoi(seg).value < 0 || atoi(seg).value >= |es|
    case _ => true
  }

  /** There a read ends with nothing and a delete changes nothing; a write adds the key to an
      object and replaces anything else, an array too, by an object with the key alone. */
  lemma WithoutPlace(atoi: Atoi, v: Json, common: seq<string>, u: Json, seg: string, rest: seq<string>, x: Json)
    requires Resolve(atoi, v, common) == Some(u) && NoPlace(atoi, u, seg)
    ensures var path := common + ([seg] + rest);
      && Resolve(atoi, v, path) == None
      && Write(atoi, v, path, x) == Write(atoi, v, common,
           Obj((if u.Obj? then u.fields else map[])[seg := Write(atoi, Nil, rest, x)]))
      && Erase(atoi, v, path) == v
  {
    var path := [seg] + rest;
    Composes(atoi, v, common, u, path, x);
    assert path[0] == seg && path[1..] == rest;
    DeleteNothing(atoi, v, common + path);
  }

  // ----- laws -----

  lemma {:induction false} GetAfterSet(atoi: Atoi, v: Json, path: string, x: Json)
    ensures Resolve(atoi, Set(atoi, v, path, x), SplitPath(path)) == Some(x)
  {
    if SplitPath(path) != [] {
      ResolveSet(atoi, v, SplitPath(path), x);
    }
  }

  lemma {:induction false} ResolveSet(atoi: Atoi, v: Json, segs: seq<string>, x: Json)
    requires segs != []
    ensures Resolve(atoi, SetPath(atoi, v, segs, x), segs) == Some(x)
    decreases segs
  {
    var seg := segs[0];
    if |segs| > 1 {
      if v.Arr? && Points(atoi, v.elems, seg) {
        ResolveSet(atoi, v.elems[atoi(seg).value], segs[1..], x);
      } else {
        ResolveSet(atoi, Field(if v.Obj? then v.fields else map[], seg), segs[1..], x);
      }
    }
  }

  lemma {:induction false} SetAfterSet(atoi: Atoi, v: Json, path: string, x: Json, y: Json)
    ensures Set(atoi, Set(atoi, v, path, x), path, y) == Set(atoi, v, path, y)
  {
    if SplitPath(path) != [] {
      SetTwice(atoi, v, SplitPath(path), x, y);
    }
  }

  lemma {:induction false} SetTwice(atoi: Atoi, v: Json, segs: seq<string>, x: Json, y: Json)
    requires segs != []
    ensures SetPath(atoi, SetPath(atoi, v, segs, x), segs, y) == SetPath(atoi, v, segs, y)
    decreases segs
  {
    var seg := segs[0];
    if v.Arr? && Points(atoi, v.elems, seg) {
      var i := atoi(seg).value;
      if |segs| > 1 {
        SetTwice(atoi, v.elems[i], segs[1..], x, y);
      }
      var a := SetPath(atoi, v, segs, x).elems[i];
      var b := SetPath(atoi, v, segs, y).elems[i];
      assert v.elems[i := a][i := b] == v.elems[i := b];
    } else {
      var m := if v.Obj? then v.fields else map[];
      if |segs| > 1 {
        SetTwice(atoi, Field(m, seg), segs[1..], x, y);
      }
      var a := SetPath(atoi, v, segs, x).fields[seg];
      var b := SetPath(atoi, v, segs, y).fields[seg];
      assert m[seg := a][seg := b] == m[seg := b];
    }
  }

  /** Writing back what a path reads changes nothing. */
  lemma {:induction false} SetWhatIsThere(atoi: Atoi, v: Json, path: string)
    requires Resolve(atoi, v, SplitPath(path)).Some?
    ensures Set(atoi, v, path, Resolve(atoi, v, SplitPath(path)).value) == v
  {
    if SplitPath(path) != [] {
      SetSame(atoi, v, SplitPath(path));
    }
  }

  lemma {:induction false} SetSame(atoi: Atoi, v: Json, segs: seq<string>)
    requires segs != [] && Resolve(atoi, v, segs).Some?
    ensures SetPath(atoi, v, segs, Resolve(atoi, v, segs).value) == v
    decreases segs
  {
    var u := Descend(atoi, v, segs[0]).value;
    if |segs| > 1 {
      SetSame(atoi, u, segs[1..]);
    }
    if v.Arr? {
      var i := atoi(segs[0]).value;
      assert v.elems[i := v.elems[i]] == v.elems;
    } else {
      assert v.fields[segs[0] := v.fields[segs[0]]] == v.fields;
    }
  }

  /** A write through `seg` keeps the container it goes into. */
  predicate Addressable(atoi: Atoi, v: Json, seg: string) {
    v.Obj? || (v.Arr? && Points(atoi, v.elems, seg))
  }

  /** Two segments mean the same place in a container. */
  predicate SamePlace(atoi: Atoi, v: Json, s: string, t: string) {
    s == t || (v.Arr? && Points(atoi, v.elems, s) && atoi(s) == atoi(t))
  }

  /** Two paths that part at some container: writing one leaves the other alone exactly
      when the write can address that container, or the other led nowhere to begin with. */
  lemma {:induction false} OtherPathsUnaffectedIff(atoi: Atoi, v: Json, common: seq<string>, u: Json,
                                                   s: string, ss: seq<string>, t: string, ts: seq<string>, x: Json)
    requires Resolve(atoi, v, common) == Some(u) && !SamePlace(atoi, u, s, t)
    ensures Resolve(atoi, SetPath(atoi, v, common + [s] + ss, x), common + [t] + ts) == Resolve(atoi, v, common + [t] + ts)
      <==> Addressable(atoi, u, s) || Resolve(atoi, v, common + [t] + ts).None?
    decreases common
  {
    var p, q := common + [s] + ss, common + [t] + ts;
    if common == [] {
      assert p[1..] == ss && q[1..] == ts;
    } else {
      var d := Descend(atoi, v, common[0]).value;
      assert p[1..] == common[1..] + [s] + ss && q[1..] == common[1..] + [t] + ts;
      OtherPathsUnaffectedIff(atoi, d, common[1..], u, s, ss, t, ts, x);
    }
  }

  lemma {:induction false} DeleteUnresolved(atoi: Atoi, v: Json, path: string)
    requires Resolve(atoi, v, SplitPath(path)).None?
    ensures Delete(atoi, v, path) == v
  {
    DeleteNothing(atoi, v, SplitPath(path));
  }

  lemma {:induction false} DeleteNothing(atoi: Atoi, v: Json, segs: seq<string>)
    requires segs != [] && Resolve(atoi, v, segs).None?
    ensures DeletePath(atoi, v, segs) == v
    decreases segs
  {
    var d := Descend(atoi, v, segs[0]);
    if d.Some? {
      DeleteNothing(atoi, d.value, segs[1..]);
      if v.Arr? {
        var i := atoi(segs[0]).value;
        assert v.elems[i := v.elems[i]] == v.elems;
      } else {
        assert v.fields[segs[0] := v.fields[segs[0]]] == v.fields;
      }
    }
  }

  /** Deleting takes out one entry of the innermost container and nothing else: an
      object loses the key, an array closes the gap. */
  lemma {:induction false} DeleteRemovesOne(atoi: Atoi, v: Json, common: seq<string>, u: Json, s: string)
    requires Resolve(atoi, v, common) == Some(u) && Descend(atoi, u, s).Some?
    ensures var w := if u.Obj? then Obj(u.fields - {s})
                     else var i := atoi(s).value; Arr(u.elems[..i] + u.elems[i + 1..]);
      DeletePath(atoi, v, common + [s]) == if common == [] then w else SetPath(atoi, v, common, w)
    decreases common
  {
    if common != [] {
      var d := Descend(atoi, v, common[0]).value;
      assert (common + [s])[1..] == common[1..] + [s];
      DeleteRemovesOne(atoi, d, common[1..], u, s);
    }
  }

  /** Deleting a key that a write has just added to an object takes the write back. */
  lemma {:induction false} DeleteUndoesSet(atoi: Atoi, v: Json, common: seq<string>, u: Json, s: string, x: Json)
    requires Resolve(atoi, v, common) == Some(u) && u.Obj? && s !in u.fields
    ensures DeletePath(atoi, SetPath(atoi, v, common + [s], x), common + [s]) == v
    decreases common
  {
    var p := common + [s];
    if common == [] {
      assert u.fields[s := x] - {s} == u.fields;
    } else {
      var d := Descend(atoi, v, common[0]).value;
      assert p[1..] == common[1..] + [s];
      DeleteUndoesSet(atoi, d, common[1..], u, s, x);
      if v.Arr? {
        var i := atoi(p[0]).value;
        assert v.elems[i := SetPath(atoi, d, p[1..], x)][i := d] == v.elems;
      } else {
        assert v.fields[p[0] := SetPath(atoi, d, p[1..], x)][p[0] := d] == v.fields;
      }
    }
  }
}
