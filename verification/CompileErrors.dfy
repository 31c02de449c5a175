/** Which errors a function gets: one for each name and each call that has no meaning where
    it stands, and no other. */
module CompileErrors {
  import opened Syntax
  import opened Compiler

  /** A part of an expression, with the names that can be used there. */
  datatype Place = Place(part: Expr, names: set<string>)

  /** All parts, each with the loops and the lambdas around it. */
  function Places(e: Expr, names: set<string>): seq<Place>
    decreases e, 1
  {
    [Place(e, names)] +
      match e
      case Lit(_) => []
      case Ident(_) => []
      case Strict(_, es) => AllPlaces(es, names)
      case ArrayLit(es) => AllPlaces(es, names)
      case And(l, r) => Places(l, names) + Places(r, names)
      case Or(l, r) => Places(l, names) + Places(r, names)
      case If(c, t, None) => Places(c, names) + Places(t, names)
      case If(c, t, Some(f)) => Places(c, names) + Places(t, names) + Places(f, names)
      case Coalesce(l, r) => Places(l, names) + Places(r, names)
      case Try(b, None) => Places(b, names)
      case Try(b, Some(d)) => Places(b, names) + Places(d, names)
      case For(x, i, it, b) => Places(it, names) + Places(b, if i == "" then names + {x} else names + {x, i})
      case Raise(m) => Places(m, names)
      case Lambda(ps, b) => Places(b, names + set x | x in ps)
      case Call(_, es) => AllPlaces(es, names)
  }

  function AllPlaces(es: seq<Expr>, names: set<string>): seq<Place>
    decreases es, 0
  {
    if es == [] then [] else Places(es[0], names) + AllPlaces(es[1..], names)
  }

  /** The registry has an answer to the call: under its own name, or through a namespace. */
  predicate Answered(k: Config, fn: string, uses: seq<string>) {
    || fn in k.builtins || fn in k.fns
    || exists i :: 0 <= i < |uses| && AnsweredBy(k, fn, uses[i])
  }

  predicate AnsweredBy(k: Config, fn: string, space: string) {
    var app, plain := "app:" + space + "::" + fn, space + "::" + fn;
    app in k.builtins || app in k.fns || plain in k.builtins || plain in k.fns
  }

  /** What is wrong with one part by itself. */
  predicate Wrong(k: Config, p: Place, uses: seq<string>, err: CompileError) {
    match err
    case UndefinedVar(x) => p.part == Ident(x) && x !in p.names && !("$" <= x)
    case UnknownFn(fn) => p.part.Call? && p.part.fn == fn && fn !in LEGACY && !Answered(k, fn, uses)
    case Deprecated(fn) => p.part.Call? && p.part.fn == fn && fn in LEGACY
    case DuplicateVar(_) => false
  }

  predicate AnyWrong(k: Config, ps: seq<Place>, uses: seq<string>, err: CompileError) {
    exists p :: p in ps && Wrong(k, p, uses, err)
  }

  lemma WrongInEither(k: Config, a: seq<Place>, b: seq<Place>, uses: seq<string>, err: CompileError)
    ensures AnyWrong(k, a + b, uses, err) <==> AnyWrong(k, a, uses, err) || AnyWrong(k, b, uses, err)
  {
    hide Wrong;
  }

  lemma WrongHere(k: Config, p: Place, uses: seq<string>, err: CompileError)
    ensures AnyWrong(k, [p], uses, err) <==> Wrong(k, p, uses, err)
  {
    hide Wrong;
    assert p in [p];
  }

  lemma AnswerIs(k: Config, fn: string, uses: seq<string>)
    ensures CallOk(k, fn, uses) <==> Answered(k, fn, uses)
  {
    assert forall i :: 0 <= i < |uses| ==> (KnownVia(k, uses[i], fn) <==> AnsweredBy(k, fn, uses[i]));
    hide KnownVia, AnsweredBy;
  }

  /** An expression gets exactly the errors of its parts. */
  lemma {:induction false} ErrorsAre(k: Config, e: Expr, names: set<string>, uses: seq<string>, err: CompileError)
    ensures err in Errors(k, e, names, uses) <==> AnyWrong(k, Places(e, names), uses, err)
    decreases e, 1
  {
    hide Wrong, AnyWrong, CallErrors;
    var here := [Place(e, names)];
    WrongHere(k, here[0], uses, err);
    match e {
      case Lit(_) => LeafErrors(k, e, names, uses, err);
      case Ident(_) => LeafErrors(k, e, names, uses, err);
      case Strict(_, es) => InnerErrors(k, e, es, names, uses, err);
      case ArrayLit(es) => InnerErrors(k, e, es, names, uses, err);
      case And(l, r) => PairErrors(k, e, l, names, r, names, uses, err);
      case Or(l, r) => PairErrors(k, e, l, names, r, names, uses, err);
      case Coalesce(l, r) => PairErrors(k, e, l, names, r, names, uses, err);
      case If(c, t, None) => PairErrors(k, e, c, names, t, names, uses, err);
      case If(c, t, Some(f)) =>
        PairErrors(k, e, c, names, t, names, uses, err);
        ErrorsAre(k, f, names, uses, err);
        WrongInEither(k, here, Places(c, names) + Places(t, names), uses, err);
        WrongInEither(k, here, Places(c, names) + Places(t, names) + Places(f, names), uses, err);
        WrongInEither(k, Places(c, names) + Places(t, names), Places(f, names), uses, err);
      case Try(b, None) => OneErrors(k, e, b, names, uses, err);
      case Try(b, Some(d)) => PairErrors(k, e, b, names, d, names, uses, err);
      case For(x, i, it, b) =>
        var inner := if i == "" then names + {x} else names + {x, i};
        assert names + ForNames(x, i) == inner;
        PairErrors(k, e, it, names, b, inner, uses, err);
      case Raise(m) => OneErrors(k, e, m, names, uses, err);
      case Lambda(ps, b) =>
        assert Names(ps) == set x | x in ps;
        OneErrors(k, e, b, names + Names(ps), uses, err);
      case Call(_, es) => CallErrorsAre(k, e, names, uses, err);
    }
  }

  predicate Harmless(e: Expr) { !e.Ident? && !e.Call? }

  lemma NotWrong(k: Config, e: Expr, names: set<string>, uses: seq<string>, err: CompileError)
    requires Harmless(e)
    ensures !Wrong(k, Place(e, names), uses, err)
  {
  }

  lemma LeafErrors(k: Config, e: Expr, names: set<string>, uses: seq<string>, err: CompileError)
    requires e.Lit? || e.Ident?
    ensures err in Errors(k, e, names, uses) <==> AnyWrong(k, Places(e, names), uses, err)
  {
    WrongHere(k, Place(e, names), uses, err);
    assert Places(e, names) == [Place(e, names)];
    hide AnyWrong;
  }

  lemma {:induction false} OneErrors(k: Config, e: Expr, a: Expr, names: set<string>, uses: seq<string>, err: CompileError)
    requires a < e && Harmless(e)
    ensures forall ns :: AnyWrong(k, [Place(e, ns)] + Places(a, names), uses, err) <==> err in Errors(k, a, names, uses)
    decreases e, 0
  {
    hide Wrong, AnyWrong, Errors, Places;
    ErrorsAre(k, a, names, uses, err);
    forall ns ensures AnyWrong(k, [Place(e, ns)] + Places(a, names), uses, err) <==> err in Errors(k, a, names, uses) {
      NotWrong(k, e, ns, uses, err);
      WrongHere(k, Place(e, ns), uses, err);
      WrongInEither(k, [Place(e, ns)], Places(a, names), uses, err);
    }
  }

  lemma {:induction false} PairErrors(k: Config, e: Expr, a: Expr, names: set<string>, b: Expr, names': set<string>, uses: seq<string>, err: CompileError)
    requires a < e && b < e && Harmless(e)
    ensures AnyWrong(k, Places(a, names) + Places(b, names'), uses, err) <==>
      err in Errors(k, a, names, uses) + Errors(k, b, names', uses)
    ensures AnyWrong(k, [Place(e, names)] + (Places(a, names) + Places(b, names')), uses, err) <==>
      err in Errors(k, a, names, uses) + Errors(k, b, names', uses)
    ensures !Wrong(k, Place(e, names), uses, err)
    decreases e, 0
  {
    hide Wrong, AnyWrong, Errors, Places;
    ErrorsAre(k, a, names, uses, err);
    ErrorsAre(k, b, names', uses, err);
    NotWrong(k, e, names, uses, err);
    WrongHere(k, Place(e, names), uses, err);
    WrongInEither(k, Places(a, names), Places(b, names'), uses, err);
    WrongInEither(k, [Place(e, names)], Places(a, names) + Places(b, names'), uses, err);
  }

  lemma {:induction false} InnerErrors(k: Config, e: Expr, es: seq<Expr>, names: set<string>, uses: seq<string>, err: CompileError)
    requires (e.Strict? && es == e.operands) || (e.ArrayLit? && es == e.elems)
    ensures AnyWrong(k, [Place(e, names)] + AllPlaces(es, names), uses, err) <==> err in ListErrors(k, es, names, uses)
    decreases e, 0
  {
    hide Wrong, AnyWrong, ListErrors, AllPlaces;
    if e.Strict? {
      ListErrorsAre(k, e.operands, names, uses, err);
    } else {
      ListErrorsAre(k, e.elems, names, uses, err);
    }
    NotWrong(k, e, names, uses, err);
    WrongHere(k, Place(e, names), uses, err);
    WrongInEither(k, [Place(e, names)], AllPlaces(es, names), uses, err);
  }

  lemma {:induction false} CallErrorsAre(k: Config, e: Expr, names: set<string>, uses: seq<string>, err: CompileError)
    requires e.Call?
    ensures AnyWrong(k, [Place(e, names)] + AllPlaces(e.args, names), uses, err) <==>
      err in CallErrors(k, e.fn, uses) + ListErrors(k, e.args, names, uses)
    decreases e, 0
  {
    hide AnyWrong, ListErrors, AllPlaces, CallOk, Answered;
    ListErrorsAre(k, e.args, names, uses, err);
    AnswerIs(k, e.fn, uses);
    WrongHere(k, Place(e, names), uses, err);
    WrongInEither(k, [Place(e, names)], AllPlaces(e.args, names), uses, err);
  }

  lemma {:induction false} ListErrorsAre(k: Config, es: seq<Expr>, names: set<string>, uses: seq<string>, err: CompileError)
    ensures err in ListErrors(k, es, names, uses) <==> AnyWrong(k, AllPlaces(es, names), uses, err)
    decreases es
  {
    hide Wrong, Errors, Places;
    if es != [] {
      ErrorsAre(k, es[0], names, uses, err);
      ListErrorsAre(k, es[1..], names, uses, err);
      hide AnyWrong;
      WrongInEither(k, Places(es[0], names), AllPlaces(es[1..], names), uses, err);
    }
  }

  // ----- whole functions -----

  /** The names that can be used in statement `j`: the parameters and every `let` before it. */
  function NamesBefore(f: FnDef, j: nat): set<string>
    requires j <= |f.body|
  {
    (set i | 0 <= i < |f.params| :: f.params[i].name) + set m | 0 <= m < j && f.body[m].Let? :: f.body[m].name
  }

  /** The namespaces of every `use` before it, in order. */
  function SpacesBefore(f: FnDef, j: nat): seq<string>
    requires j <= |f.body|
  {
    if j == 0 then []
    else SpacesBefore(f, j - 1) + if f.body[j - 1].Use? then [f.body[j - 1].ns] else []
  }

  /** What is wrong with statement `j`: a part of its expression, or its name is taken. */
  predicate StatementWrong(k: Config, f: FnDef, j: nat, err: CompileError)
    requires j < |f.body|
  {
    var st := f.body[j];
    || (!st.Use? && AnyWrong(k, Places(st.value, NamesBefore(f, j)), SpacesBefore(f, j), err))
    || (st.Let? && st.name in NamesBefore(f, j) && err == DuplicateVar(st.name))
  }

  lemma StatementErrors(k: Config, f: FnDef, j: nat, err: CompileError)
    requires j < |f.body|
    ensures err in StmtErrors(k, f.body[j], NamesBefore(f, j), SpacesBefore(f, j)) <==> StatementWrong(k, f, j, err)
  {
    hide AnyWrong, Errors, Places, NamesBefore, SpacesBefore;
    if !f.body[j].Use? {
      ErrorsAre(k, f.body[j].value, NamesBefore(f, j), SpacesBefore(f, j), err);
    }
  }

  lemma NamesAfter(f: FnDef, j: nat)
    requires j < |f.body|
    ensures VarsAfter(f.body[j], NamesBefore(f, j)) == NamesBefore(f, j + 1)
    ensures UsesAfter(f.body[j], SpacesBefore(f, j)) == SpacesBefore(f, j + 1)
  {
    assert SpacesBefore(f, j) + [] == SpacesBefore(f, j);
  }

  lemma {:induction false} RestErrors(k: Config, f: FnDef, j: nat, err: CompileError)
    requires j <= |f.body|
    ensures err in BodyErrors(k, f.body[j..], NamesBefore(f, j), SpacesBefore(f, j)) <==>
      exists i: nat :: j <= i < |f.body| && StatementWrong(k, f, i, err)
    decreases |f.body| - j
  {
    hide StatementWrong, NamesBefore, SpacesBefore, Errors, StmtErrors;
    if j < |f.body| {
      assert f.body[j..][0] == f.body[j] && f.body[j..][1..] == f.body[j + 1..];
      BodyStep(k, f.body[j..], NamesBefore(f, j), SpacesBefore(f, j));
      StatementErrors(k, f, j, err);
      NamesAfter(f, j);
      hide BodyErrors;
      RestErrors(k, f, j + 1, err);
    }
  }

  /** A function gets exactly these errors: an undefined variable for a name, without `$`, that
      is no parameter, no earlier `let` and bound by no loop or lambda around it; a deprecated
      or an unknown function for a call; a duplicate for a `let` of a name that is taken. */
  lemma FunctionErrors(k: Config, f: FnDef, err: CompileError)
    ensures err in BodyErrors(k, f.body, ParamNames(f.params), []) <==>
      exists j: nat :: j < |f.body| && StatementWrong(k, f, j, err)
  {
    assert NamesBefore(f, 0) == ParamNames(f.params) && f.body[0..] == f.body;
    hide StatementWrong, BodyErrors, NamesBefore;
    RestErrors(k, f, 0, err);
  }
}
