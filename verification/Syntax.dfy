/** The part of the DTL syntax tree that the evaluator and the compiler walk,
    and the values a run produces. */
module Syntax {
  import opened Wrappers
  import opened Chars

  datatype Literal = NullLit | BoolLit(b: bool) | NumLit(n: int) | StrLit(s: string)

  /** Expression nodes.  `Strict` stands for every node that evaluates its operands
      left to right and then computes from the values alone: arithmetic and
      comparison, negation, indexing, field access, object literals, `in` and
      string interpolation.  `Call` is a call or a pipe, whose input is its first
      argument. */
  datatype Expr =
    | Lit(lit: Literal)
    | Ident(name: string)
    | Strict(op: string, operands: seq<Expr>)
    | ArrayLit(elems: seq<Expr>)
    | And(left: Expr, right: Expr)
    | Or(left: Expr, right: Expr)
    | If(cond: Expr, thn: Expr, els: Option<Expr>)
    | Coalesce(left: Expr, right: Expr)
    | Try(body: Expr, default: Option<Expr>)
    | For(variable: string, index: string, iterable: Expr, body: Expr)
    | Raise(message: Expr)
    | Lambda(params: seq<string>, body: Expr)
    | Call(fn: string, args: seq<Expr>)

  datatype Stmt =
    | Let(name: string, value: Expr)
    | Return(value: Expr)
    | ExprStmt(value: Expr)
    | Use(ns: string)

  datatype Param = Param(name: string, default: Option<Expr>)

  datatype FnDef = FnDef(params: seq<Param>, body: seq<Stmt>)

  /** Run-time values.  A closure is the number of the lambda object it points to. */
  datatype Value =
    | Null
    | Bool(b: bool)
    | Num(n: int)
    | Str(s: string)
    | Arr(elems: seq<Value>)
    | Obj(fields: map<string, Value>)
    | Clo(id: nat)

  datatype Error =
    | Undefined(name: string)
    | NotDefined(fn: string)
    | MaxDepth
    | Raised(message: string)
    | Failed(message: string)

  /** How an evaluation ends.  `Overflow` and `Panic` are the two ways the host
      process dies: the goroutine stack is exhausted, or a builtin indexes past its
      argument slice.  Neither can be caught by `try`. */
  datatype Outcome = Val(v: Value) | Err(e: Error) | Overflow | Panic

  datatype Entry = Entry(tag: string, values: seq<Value>)

  type Frame = map<string, Value>

  /** A builtin's result: plain builtins return a value or an error of their own. */
  datatype Prim = Ok(v: Value) | Fail(message: string)

  datatype Hof = MapHof | FilterHof | ReduceHof

  datatype Kind = HigherOrder(hof: Hof) | Plain(f: seq<Value> -> Prim)

  /** `max` below zero means variadic; `min` below zero disables the lower check. */
  datatype Builtin = Builtin(min: int, max: int, kind: Kind)

  /** Everything that stays fixed during a run.  `limit` zero means unbounded.
      `prim` and `show` are the operators and Go's formatting, as arbitrary functions.
      `copies` selects how a closure captures its function's scope: by pointer, as the
      executor does, or by copying the bindings it holds at that moment. */
  datatype Config = Config(
    limit: nat,
    prim: (string, seq<Value>) -> Prim,
    show: Value -> string,
    builtins: map<string, Builtin>,
    fns: map<string, FnDef>,
    copies: bool)

  predicate TooDeep(k: Config, depth: nat) {
    k.limit > 0 && depth > k.limit
  }

  function LitValue(l: Literal): Value {
    match l
    case NullLit => Null
    case BoolLit(b) => Bool(b)
    case NumLit(n) => Num(n)
    case StrLit(s) => Str(s)
  }

  predicate ToBool(v: Value) {
    match v
    case Null => false
    case Bool(b) => b
    case Num(n) => n != 0
    case Str(s) => s != ""
    case Arr(es) => es != []
    case _ => true
  }

  function PrimOut(p: Prim): Outcome {
    match p
    case Ok(v) => Val(v)
    case Fail(m) => Err(Failed(m))
  }

  const USES: string := "__uses__"

  predicate IsDebugName(name: string) {
    Upper(name) == "DEBUG" || Upper(name) == "PRINT"
  }

  function DebugEntry(name: string, args: seq<Value>): Entry {
    if Upper(name) == "DEBUG" && |args| >= 2 && args[0].Str?
    then Entry(args[0].s, args[1..])
    else Entry("", args)
  }

  function LastOr(args: seq<Value>): Value {
    if args == [] then Null else args[|args| - 1]
  }

  // ----- call resolution -----

  datatype Target = BuiltinTarget(b: Builtin, checked: bool) | UserTarget(f: FnDef) | NoTarget

  function Find(k: Config, name: string, checked: bool): Target {
    if name in k.builtins then BuiltinTarget(k.builtins[name], checked)
    else if name in k.fns then UserTarget(k.fns[name])
    else NoTarget
  }

  /** The names a call may resolve to through one namespace, in order. */
  function Qualified(ns: string, name: string): seq<string> {
    ["app:" + ns + "::" + name, ns + "::" + name]
  }

  function FindAny(k: Config, names: seq<string>): Target {
    if names == [] then NoTarget
    else
      var t := Find(k, names[0], false);
      if t.NoTarget? then FindAny(k, names[1..]) else t
  }

  function FindVia(k: Config, uses: seq<Value>, name: string): Target {
    if uses == [] then NoTarget
    else
      var t := FindAny(k, Qualified(ToStr(k, uses[0]), name));
      if t.NoTarget? then FindVia(k, uses[1..], name) else t
  }

  function ToStr(k: Config, v: Value): string {
    match v
    case Null => ""
    case Str(s) => s
    case Bool(b) => if b then "true" else "false"
    case _ => k.show(v)
  }

  function UsesOf(v: Option<Value>): seq<Value> {
    if v.Some? && v.value.Arr? then v.value.elems else []
  }

  /** Namespaces first, then the bare name. */
  function Resolve(k: Config, uses: seq<Value>, name: string): Target {
    var t := FindVia(k, uses, name);
    if t.NoTarget? then Find(k, name, true) else t
  }

  /** Whatever a name resolves to comes from one of the two tables. */
  lemma ResolvedFrom(k: Config, uses: seq<Value>, name: string)
    ensures var t := Resolve(k, uses, name);
      && (t.BuiltinTarget? ==> exists n :: n in k.builtins && t.b == k.builtins[n])
      && (t.UserTarget? ==> exists n :: n in k.fns && t.f == k.fns[n])
  {
    if uses != [] {
      ResolvedFrom(k, uses[1..], name);
      var names := Qualified(ToStr(k, uses[0]), name);
      assert FindAny(k, names) ==
        if Find(k, names[0], false).NoTarget? then FindAny(k, names[1..]) else Find(k, names[0], false);
      assert names[1..][0] == names[1] && names[1..][1..] == [];
      assert FindAny(k, names[1..]) ==
        if Find(k, names[1], false).NoTarget? then FindAny(k, []) else Find(k, names[1], false);
    }
  }

  predicate BadArity(b: Builtin, n: nat) {
    (b.min >= 0 && n < b.min) || (b.max >= 0 && n > b.max)
  }
}
