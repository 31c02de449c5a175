/** Function definitions on one line, written as text and read back. */
module FunctionText {
  import opened Wrappers
  import opened Tokens
  import opened Lexer
  import opened Rendering
  import opened Writing
  import opened Grammar
  import opened Reading
  import opened Functions
  import opened ReadBack

  predicate WritableType(t: TypeName)
    decreases t, 1
  {
    match t
    case Named(n, _) => Writes(Id(n))
    case Record(fs, _) => WritableFieldTypes(fs)
  }

  predicate WritableFieldTypes(fs: seq<FieldType>)
    decreases fs, 0
  {
    fs != [] ==> Writes(Id(fs[0].name)) && WritableType(fs[0].kind) && WritableFieldTypes(fs[1..])
  }

  predicate WritableParams(ps: seq<ParamDef>) {
    forall i :: 0 <= i < |ps| ==>
      Writes(Id(ps[i].name)) && WritableType(ps[i].kind) && (ps[i].default.Some? ==> Writable(ps[i].default.value))
  }

  /** No type definitions before it, and one expression as its body. */
  predicate OnOneLine(f: FnDef) {
    f.types == [] && |f.body| == 1 && f.body[0].ExprStmt?
  }

  predicate WritableFn(f: FnDef) {
    && OnOneLine(f) && Writes(Id(f.name)) && WritableParams(f.params) && WritableType(f.result)
    && Writable(f.body[0].value)
  }

  predicate PrintableFn(f: FnDef) {
    OnOneLine(f) && PrintableParams(f.params) && Printable(f.body[0].value)
  }

  function FnTokens(f: FnDef): seq<Token>
    requires OnOneLine(f)
  {
    HeaderTokens(f) + ([Op("=>")] + Print(f.body[0].value, 0))
  }

  // ----- its tokens can be written -----

  lemma HeaderSigns(o: string)
    requires o in {"->", "=", "?", "...", "{", "}", "[", "]", ":", ",", "(", ")", "=>"}
    ensures Writes(Op(o))
  {
  }

  lemma {:induction false} TypeWrites(t: TypeName)
    requires WritableType(t)
    ensures AllWrite(TypeTokens(t))
    decreases t, 1
  {
    HeaderSigns("[");
    HeaderSigns("]");
    if t.Record? {
      FieldTypesWrite(t.fields);
      WordsWrite("record");
      HeaderSigns("{");
      HeaderSigns("}");
      hide Writes, TypedTokens;
      Both(TypedTokens(t.fields), [Op("}")] + ArrayTokens(t.isArray));
      Both([Kw("record"), Op("{")], TypedTokens(t.fields) + ([Op("}")] + ArrayTokens(t.isArray)));
    } else {
      hide Writes;
      Both([Id(t.name)], ArrayTokens(t.isArray));
    }
  }

  lemma {:induction false} FieldTypesWrite(fs: seq<FieldType>)
    requires WritableFieldTypes(fs)
    ensures AllWrite(TypedTokens(fs))
    decreases fs, 0
  {
    if fs != [] {
      TypeWrites(fs[0].kind);
      FieldTypesWrite(fs[1..]);
      HeaderSigns("?");
      HeaderSigns(":");
      HeaderSigns(",");
      hide Writes, TypeTokens, WritableType, WritableFieldTypes;
      var more := if |fs| == 1 then [] else [Op(",")] + TypedTokens(fs[1..]);
      assert AllWrite(more);
      Both(TypeTokens(fs[0].kind), more);
      Both(TypedHead(fs[0]), TypeTokens(fs[0].kind) + more);
    }
  }

  lemma {:induction false} ParamDefsWrite(ps: seq<ParamDef>)
    requires WritableParams(ps)
    ensures AllWrite(ParamDefTokens(ps))
    decreases ps
  {
    if ps != [] {
      var p := ps[0];
      TypeWrites(p.kind);
      ParamDefsWrite(ps[1..]);
      DefaultWrites(p.default);
      HeaderSigns("...");
      HeaderSigns(":");
      HeaderSigns(",");
      hide Writes, TypeTokens, WritableType, DefaultTokens, Writable;
      var more := if |ps| == 1 then [] else [Op(",")] + ParamDefTokens(ps[1..]);
      assert AllWrite(more);
      Both(DefaultTokens(p.default), more);
      Both(TypeTokens(p.kind), DefaultTokens(p.default) + more);
      Both(ParamHead(p), TypeTokens(p.kind) + (DefaultTokens(p.default) + more));
    }
  }

  lemma DefaultWrites(d: Option<Expr>)
    requires d.Some? ==> Writable(d.value)
    ensures AllWrite(DefaultTokens(d))
  {
    HeaderSigns("=");
    if d.Some? {
      PrintWrites(d.value, 0);
      hide Writes, Print, Writable;
      Ahead(Op("="), Print(d.value, 0));
    }
  }

  lemma FnWrites(f: FnDef)
    requires WritableFn(f)
    ensures AllWrite(FnTokens(f))
  {
    ParamDefsWrite(f.params);
    TypeWrites(f.result);
    PrintWrites(f.body[0].value, 0);
    WordsWrite("fn");
    HeaderSigns("(");
    HeaderSigns(")");
    HeaderSigns("->");
    HeaderSigns("=>");
    hide Writes, ParamDefTokens, TypeTokens, Print, WritableParams, WritableType, Writable;
    var ps, k := ParamDefTokens(f.params), TypeTokens(f.result);
    Both([Op(")"), Op("->")], k);
    Both(ps, [Op(")"), Op("->")] + k);
    Ahead(Op("("), ps + ([Op(")"), Op("->")] + k));
    Both([Kw("fn"), Id(f.name)], [Op("(")] + (ps + ([Op(")"), Op("->")] + k)));
    Through(HeaderTokens(f), Op("=>"), Print(f.body[0].value, 0));
  }

  // ----- and read back -----

  lemma FnAt(f: FnDef, ts: seq<Token>)
    requires PrintableFn(f) && ts == FnTokens(f) + [Token(EOF, "")]
    ensures FunctionAt(ts, f, [], OneLine(0), 0)
  {
    hide HeaderTokens, Print, Printable, PrintableParams, Stops;
    var h, v := HeaderTokens(f), f.body[0].value;
    EndStops(FnTokens(f), v);
    assert Spelled(ts, 0, h);
    assert ts[|h|] == Op("=>");
    assert Spelled(ts, |h| + 1, Print(v, 0));
    StartsWithFn(f);
    assert ts[0] == h[0];
  }

  lemma StartsWithFn(f: FnDef)
    ensures HeaderTokens(f) != [] && HeaderTokens(f)[0] == Kw("fn")
  {
  }

  /** Writing a function of one line and parsing the text gives the function back: its name,
      all its parameters with types and defaults, its result type and its body. */
  method RoundTrip(f: FnDef, converts: string -> bool) returns (g: FnDef, lexical: nat, errors: seq<nat>)
    requires PrintableFn(f) && WritableFn(f) && AllConvert(FnTokens(f), converts)
    ensures g == f && lexical == 0 && errors == []
  {
    hide FnTokens, Writable, WritableFn, Renderable, RenderLine, Symbols, FunctionAt;
    var ts := FnTokens(f);
    var src := RenderLine(ts);
    assert LineAt(src, 0, ts) by { assert src[0..0 + |src|] == src; }
    FnWrites(f);
    AreSymbols(ts);
    LineReadsBack(src, 0, ts);
    NotEmpty(f);
    var tokens;
    tokens, lexical := Tokenize(src);
    SymbolsAtEnd(ts);
    FnAt(f, Symbols(tokens));
    g, errors := ParseDefinition(tokens, converts, Some(f), [], OneLine(0));
    SingleIsApart(f);
  }

  lemma NotEmpty(f: FnDef)
    requires OnOneLine(f)
    ensures FnTokens(f) != []
  {
    hide Print;
  }

  lemma SingleIsApart(f: FnDef)
    requires OnOneLine(f)
    ensures Apart(f.body)
  {
  }
}
