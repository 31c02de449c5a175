/** The tokenizer: layout tokens from an indentation stack, strings with embedded
    expressions, comments, and the plain tokens of a line. */
module Lexer {
  import opened Chars
  import opened Wrappers
  import opened Tokens
  import opened Scan

  function Step(t: Token): int {
    if t.kind.Indent? then 1 else if t.kind.Dedent? then -1 else 0
  }

  /** Open blocks after these tokens. */
  function Balance(ts: seq<Token>): int {
    if ts == [] then 0 else Balance(ts[..|ts| - 1]) + Step(ts[|ts| - 1])
  }

  /** No block closes before it opens. */
  predicate Nested(ts: seq<Token>) {
    forall n :: 0 <= n <= |ts| ==> Balance(ts[..n]) >= 0
  }

  predicate NoEof(ts: seq<Token>) {
    forall i :: 0 <= i < |ts| ==> !ts[i].kind.EOF?
  }

  /** Indentation levels grow strictly from zero. */
  predicate Increasing(stack: seq<nat>) {
    stack != [] && stack[0] == 0 && forall i, j :: 0 <= i < j < |stack| ==> stack[i] < stack[j]
  }

  predicate Layout(ts: seq<Token>, stack: seq<nat>) {
    Nested(ts) && NoEof(ts) && Increasing(stack) && Balance(ts) == |stack| - 1
  }

  // ----- indentation -----

  /** The first character of a line that is no blank. */
  function InkAt(src: string, i: nat): (e: nat)
    requires i <= |src|
    ensures i <= e <= |src|
    decreases |src| - i
  {
    if i < |src| && IsBlank(src[i]) then InkAt(src, i + 1) else i
  }

  /** How far a line is indented; a tab counts for four spaces. */
  function Width(src: string, i: nat): nat
    requires i <= |src|
    decreases |src| - i
  {
    if i < |src| && IsBlank(src[i]) then (if src[i] == ' ' then 1 else 4) + Width(src, i + 1) else 0
  }

  /** Empty lines and lines with nothing but a comment. */
  predicate Ignored(src: string, i: nat) {
    i >= |src| || src[i] == '\n' || src[i] == '\r' || (src[i] == '-' && PeekAt(src, i + 1) == '-')
  }

  /** The levels that stay open on a line of width `w`. */
  function StillOpen(stack: seq<nat>, w: nat): (kept: seq<nat>)
    requires stack != []
    ensures kept != []
  {
    if |stack| > 1 && stack[|stack| - 1] > w then StillOpen(stack[..|stack| - 1], w) else stack
  }

  /** They are the levels up to the width: the first ones, none of them deeper, and the next
      one is. */
  lemma {:induction false} StillOpenAre(stack: seq<nat>, w: nat)
    requires Increasing(stack)
    ensures var kept := StillOpen(stack, w);
      && kept <= stack && Increasing(kept) && kept[|kept| - 1] <= w
      && (|kept| < |stack| ==> stack[|kept|] > w)
    decreases stack
  {
    if |stack| > 1 && stack[|stack| - 1] > w {
      StillOpenAre(stack[..|stack| - 1], w);
    }
  }

  function Dedents(n: nat): seq<Token> {
    seq(n, i => Token(Dedent, ""))
  }

  // ----- comments -----

  function LineEnd(src: string, i: nat): (e: nat)
    ensures i <= |src| ==> i <= e <= |src|
    decreases |src| - i
  {
    if i < |src| && src[i] != '\n' then LineEnd(src, i + 1) else i
  }

  /** Where `depth` open block comments end, and how many are still open there. */
  function CommentEnd(src: string, i: nat, depth: nat): (r: (nat, nat))
    requires i <= |src|
    ensures i <= r.0 <= |src| && (r.1 > 0 ==> r.0 == |src|)
    decreases |src| - i
  {
    if i == |src| || depth == 0 then (i, depth)
    else if src[i] == '{' && PeekAt(src, i + 1) == '-' then CommentEnd(src, i + 2, depth + 1)
    else if src[i] == '-' && PeekAt(src, i + 1) == '}' then CommentEnd(src, i + 2, depth - 1)
    else CommentEnd(src, i + 1, depth)
  }

  lemma LineStep(src: string, i: nat, ts: seq<Token>)
    requires i < |src| && LineTokens(src, i).Some?
    ensures IsBlank(src[i]) ==> LineTokens(src, i + 1) == LineTokens(src, i)
    ensures !IsBlank(src[i]) ==> Next(src, i).Some?
    ensures !IsBlank(src[i]) ==> (
      var (t, j) := Next(src, i).value;
      LineTokens(src, j).Some? && ts + LineTokens(src, i).value == (ts + [t]) + LineTokens(src, j).value)
  {
    if !IsBlank(src[i]) {
      var (t, j) := Next(src, i).value;
      assert ts + ([t] + LineTokens(src, j).value) == (ts + [t]) + LineTokens(src, j).value;
    }
  }

  lemma Push(ts: seq<Token>, t: Token)
    requires Nested(ts) && Balance(ts) + Step(t) >= 0
    ensures Nested(ts + [t]) && Balance(ts + [t]) == Balance(ts) + Step(t)
    ensures NoEof(ts) && !t.kind.EOF? ==> NoEof(ts + [t])
  {
    var us := ts + [t];
    assert us[..|ts|] == ts;
    forall n | 0 <= n <= |us| ensures Balance(us[..n]) >= 0 {
      if n <= |ts| {
        assert us[..n] == ts[..n];
      } else {
        assert us[..n] == us;
      }
    }
  }

  // ----- operators -----

  /** No blank, and no other kind of token begins here. */
  predicate OperatorPlace(src: string, i: nat)
    requires i < |src|
  {
    var c, d := src[i], PeekAt(src, i + 1);
    && !IsBlank(c) && c !in {'\n', '\r', '"', '$'} && !(c == '-' && d == '-') && !(c == '{' && d == '-')
    && !IsDigit(c) && !IsIdentStart(c)
  }

  lemma NextOperator(src: string, i: nat)
    requires i < |src| && OperatorPlace(src, i)
    ensures var n := LongestOperator(src, i);
      Next(src, i) == if n == 0 then None else Some((Token(OperatorKind(src[i..i + n]), src[i..i + n]), i + n))
  {
    hide LongestOperator;
  }

  /** How many characters the operator at the head of `c`, `d`, `e` takes; none for zero. */
  function OperatorWidth(c: char, d: char, e: char): nat {
    match c
    case '+' => if d == '+' then 2 else 1
    case '-' => if d == '>' then 2 else 1
    case '=' => if d == '=' || d == '>' then 2 else 1
    case '!' => if d == '=' then 2 else 1
    case '>' => if d == '=' then 2 else 1
    case '<' => if d == '=' then 2 else 1
    case '&' => if d == '&' then 2 else 0
    case '|' => if d == '|' then 2 else 1
    case '?' => if d == '?' || d == '.' then 2 else 1
    case '.' => if d == '.' then (if e == '.' then 3 else 2) else 1
    case ':' => if d == ':' then 2 else 1
    case _ => if c in {'*', '/', '%', '(', ')', '[', ']', '{', '}', ','} then 1 else 0
  }

  predicate LongestAt(src: string, i: nat, o: string) {
    o in OPERATORS && At(src, i, o) && forall p :: p in OPERATORS && At(src, i, p) ==> |p| <= |o|
  }

  predicate NoneAt(src: string, i: nat) {
    forall o :: o in OPERATORS ==> !At(src, i, o)
  }

  lemma OneChar(c: char)
    ensures [c] in OPERATORS <==> OperatorWidth(c, ' ', ' ') == 1
  {
  }

  lemma TwoChars(c: char, d: char)
    ensures [c, d] in OPERATORS <==> OperatorWidth(c, d, ' ') == 2
  {
  }

  lemma ThreeChars(c: char, d: char, e: char)
    ensures [c, d, e] in OPERATORS <==> OperatorWidth(c, d, e) == 3
  {
  }

  lemma Lengths(o: string)
    requires o in OPERATORS
    ensures 1 <= |o| <= 3
  {
  }

  /** Looking at up to three characters finds the longest operator. */
  lemma WidthIsLongest(src: string, i: nat)
    requires i < |src|
    ensures OperatorWidth(src[i], PeekAt(src, i + 1), PeekAt(src, i + 2)) == LongestOperator(src, i)
  {
    var c, d, e := src[i], PeekAt(src, i + 1), PeekAt(src, i + 2);
    OneChar(c);
    TwoChars(c, d);
    ThreeChars(c, d, e);
    hide OPERATORS;
    assert src[i..i + 1] == [c];
    assert i + 2 <= |src| ==> src[i..i + 2] == [c, d];
    assert i + 3 <= |src| ==> src[i..i + 3] == [c, d, e];
  }

  lemma NotLonger(src: string, i: nat, o: string)
    requires o in OPERATORS && At(src, i, o)
    ensures 1 <= |o| <= LongestOperator(src, i)
  {
    Lengths(o);
    hide OPERATORS;
    assert IsOperatorAt(src, i, |o|);
  }

  lemma LongestIs(src: string, i: nat)
    ensures var n := LongestOperator(src, i);
      if n > 0 then LongestAt(src, i, src[i..i + n]) else NoneAt(src, i)
  {
    hide OPERATORS, LongestOperator;
    forall o | o in OPERATORS && At(src, i, o) ensures 1 <= |o| <= LongestOperator(src, i) {
      NotLonger(src, i, o);
    }
  }

  /** What stands where no other kind of token begins, found by looking at three characters. */
  lemma OperatorHere(src: string, i: nat)
    requires i < |src| && OperatorPlace(src, i)
    ensures var n := OperatorWidth(src[i], PeekAt(src, i + 1), PeekAt(src, i + 2));
      if n == 0 then NoneAt(src, i) && Next(src, i) == None
      else i + n <= |src| && var o := src[i..i + n]; LongestAt(src, i, o) && Next(src, i) == Some((Token(OperatorKind(o), o), i + n))
  {
    hide *;
    WidthIsLongest(src, i);
    LongestIs(src, i);
    NextOperator(src, i);
  }

  lemma Deeper(stack: seq<nat>, indent: nat)
    requires Increasing(stack) && indent > stack[|stack| - 1]
    ensures Increasing(stack + [indent])
  {
  }

  class Lexer {
    const src: string
    var pos: nat
    var tokens: seq<Token>
    var errors: nat
    var indentStack: seq<nat>
    var atLineStart: bool
    var braceDepth: int

    ghost predicate Valid()
      reads this
    {
      pos <= |src| && Layout(tokens, indentStack)
    }

    constructor (src: string)
      ensures Valid() && this.src == src && pos == 0 && tokens == [] && errors == 0
      ensures indentStack == [0] && atLineStart
    {
      this.src := src;
      pos, tokens, errors, indentStack, atLineStart, braceDepth := 0, [], 0, [0], true, 0;
    }

    function Peek(): char
      reads this
    {
      PeekAt(src, pos)
    }

    method Emit(t: Token)
      requires Valid() && !t.kind.EOF? && Step(t) == 0
      modifies this`tokens
      ensures Valid() && tokens == old(tokens) + [t]
    {
      Push(tokens, t);
      tokens := tokens + [t];
    }

    /** Tokenizing ends for every input, with exactly one EOF, at the end, and with blocks
        that open and close in pairs; a line of plain tokens gives exactly those. */
    method Run()
      requires Valid() && pos == 0 && tokens == [] && errors == 0 && indentStack == [0] && atLineStart
      modifies this
      ensures tokens != [] && tokens[|tokens| - 1] == Token(EOF, "") && NoEof(tokens[..|tokens| - 1])
      ensures Nested(tokens) && Balance(tokens) == 0 && indentStack == [0]
      ensures (src == "" || !IsBlank(src[0])) && LineTokens(src, 0).Some? ==>
        tokens == LineTokens(src, 0).value + [Token(EOF, "")] && errors == 0
    {
      ghost var plain := (src == "" || !IsBlank(src[0])) && LineTokens(src, 0).Some?;
      while pos < |src|
        invariant Valid()
        invariant plain ==> PlainSoFar()
        decreases |src| - pos
      {
        ScanToken();
      }
      ghost var body := tokens;
      while |indentStack| > 1
        invariant Valid() && pos == |src|
        invariant plain ==> PlainSoFar()
        decreases |indentStack|
      {
        Push(tokens, Token(Dedent, ""));
        tokens := tokens + [Token(Dedent, "")];
        indentStack := indentStack[..|indentStack| - 1];
      }
      ghost var all := tokens;
      Push(tokens, Token(EOF, ""));
      tokens := tokens + [Token(EOF, "")];
      hide Nested, Balance, NoEof;
      assert tokens[..|all|] == all;
      assert plain ==> all + [] == all;
    }

    /** The tokens so far are the first of a line of plain tokens. */
    ghost predicate PlainSoFar()
      reads this
    {
      && pos <= |src| && errors == 0 && indentStack == [0]
      && (atLineStart ==> pos == 0 && (src == "" || !IsBlank(src[0])))
      && LineTokens(src, 0).Some? && LineTokens(src, pos).Some?
      && LineTokens(src, 0).value == tokens + LineTokens(src, pos).value
    }

    /** Reads one token, or the blank or the comment in its place; always moves on. */
    method ScanToken()
      requires Valid() && pos < |src|
      modifies this
      ensures Valid() && old(pos) < pos && Adds()
      ensures old(PlainSoFar()) ==> PlainSoFar()
      decreases |src| - pos, 2
    {
      hide LineTokens, Next, InkAt, Width, Ignored, Closed, StillOpen, Dedents, Layout;
      if atLineStart {
        HandleIndentation();
        atLineStart := false;
        if pos == |src| {
          return;
        }
      }
      ghost var i, ts := pos, tokens;
      ReadToken();
      if old(PlainSoFar()) {
        LineStep(src, i, ts);
      }
    }

    /** Tokens are only added, and so are errors. */
    twostate predicate Adds()
      reads this
    {
      old(tokens) <= tokens && old(errors) <= errors
    }

    /** One character was skipped and reported. */
    twostate predicate Rejects()
      reads this
    {
      && pos == old(pos) + 1 && tokens == old(tokens) && errors == old(errors) + 1
      && indentStack == old(indentStack) && atLineStart == old(atLineStart)
    }

    method ReadToken()
      requires Valid() && pos < |src|
      modifies this
      ensures Valid() && old(pos) < pos && ReadsNext() && Adds()
      ensures IsBlank(src[old(pos)]) ==> (
        && pos == old(pos) + 1 && tokens == old(tokens) && errors == old(errors)
        && indentStack == old(indentStack) && atLineStart == old(atLineStart))
      ensures src[old(pos)] in {'\n', '\r'} ==>
        && tokens == old(tokens) + [Token(Newline, "\n")] && atLineStart && errors == old(errors) && indentStack == old(indentStack)
        && pos == old(pos) + if src[old(pos)] == '\r' && PeekAt(src, old(pos) + 1) == '\n' then 2 else 1
      ensures src[old(pos)] == '-' && PeekAt(src, old(pos) + 1) == '-' ==>
        pos == LineEnd(src, old(pos) + 2) && tokens == old(tokens) && errors == old(errors) && indentStack == old(indentStack)
      ensures src[old(pos)] == '{' && PeekAt(src, old(pos) + 1) == '-' ==>
        && pos == CommentEnd(src, old(pos) + 2, 1).0 && tokens == old(tokens) && indentStack == old(indentStack)
        && errors == old(errors) + if CommentEnd(src, old(pos) + 2, 1).1 > 0 then 1 else 0
      decreases |src| - pos, 1
    {
      var c := Peek();
      var d := PeekAt(src, pos + 1);
      if IsBlank(c) {
        pos := pos + 1;
      } else if c == '\n' {
        Emit(Token(Newline, "\n"));
        pos := pos + 1;
        atLineStart := true;
      } else if c == '\r' {
        pos := pos + 1;
        if pos < |src| && Peek() == '\n' {
          pos := pos + 1;
        }
        Emit(Token(Newline, "\n"));
        atLineStart := true;
      } else if c == '-' && d == '-' {
        SkipLineComment();
      } else if c == '{' && d == '-' {
        SkipBlockComment();
      } else if c == '"' {
        ScanString();
      } else if IsDigit(c) {
        ScanNumber();
      } else if IsIdentStart(c) {
        ScanIdent();
      } else {
        ScanOperator();
      }
    }

    /** A plain token was read, and nothing else happened. */
    twostate predicate ReadsNext()
      requires old(pos) < |src|
      reads this
    {
      Next(src, old(pos)).Some? ==>
        && tokens == old(tokens) + [Next(src, old(pos)).value.0] && pos == Next(src, old(pos)).value.1
        && errors == old(errors) && indentStack == old(indentStack) && atLineStart == old(atLineStart)
    }

    /** Compares a line's indentation with the open levels: a deeper line opens one, a
        shallower one closes all that are deeper than it and is an error between levels. */
    method HandleIndentation()
      requires Valid()
      modifies this
      ensures Valid() && pos == InkAt(src, old(pos)) && atLineStart == old(atLineStart)
      ensures var w, stack := Width(src, old(pos)), old(indentStack);
        if Ignored(src, pos) then tokens == old(tokens) && indentStack == stack && errors == old(errors)
        else if w > stack[|stack| - 1] then
          tokens == old(tokens) + [Token(Indent, "")] && indentStack == stack + [w] && errors == old(errors)
        else Closed(w)
      ensures old(pos < |src| && !IsBlank(src[pos]) && indentStack == [0]) ==> OnlyLooked()
      ensures Adds()
    {
      hide Nested, Balance, NoEof, Dedents;
      var indent := 0;
      while pos < |src| && IsBlank(src[pos])
        invariant Valid() && atLineStart == old(atLineStart)
        invariant tokens == old(tokens) && errors == old(errors) && indentStack == old(indentStack)
        invariant InkAt(src, old(pos)) == InkAt(src, pos) && Width(src, old(pos)) == indent + Width(src, pos)
        decreases |src| - pos
      {
        indent := indent + if src[pos] == ' ' then 1 else 4;
        pos := pos + 1;
      }
      if pos == |src| || Peek() == '\n' || Peek() == '\r' || (Peek() == '-' && PeekAt(src, pos + 1) == '-') {
        return;
      }
      var current := indentStack[|indentStack| - 1];
      if indent > current {
        OpenLevel(indent);
      } else if indent < current {
        CloseLevels(indent);
      } else {
        assert Closed(indent) by { NoDedents(); }
      }
    }

    twostate predicate OnlyLooked()
      reads this
    {
      pos == old(pos) && tokens == old(tokens) && errors == old(errors) && indentStack == old(indentStack)
    }

    /** The levels deeper than `w` were closed, one DEDENT each. */
    twostate predicate Closed(w: nat)
      requires old(indentStack) != []
      reads this
    {
      && indentStack == StillOpen(old(indentStack), w) && |indentStack| <= |old(indentStack)|
      && tokens == old(tokens) + Dedents(|old(indentStack)| - |indentStack|)
      && errors == old(errors) + if indentStack[|indentStack| - 1] == w then 0 else 1
    }

    lemma NoDedents()
      ensures tokens + Dedents(0) == tokens
    {
    }

    method OpenLevel(indent: nat)
      requires Valid() && indent > indentStack[|indentStack| - 1]
      modifies this`tokens, this`indentStack
      ensures Valid() && indentStack == old(indentStack) + [indent] && tokens == old(tokens) + [Token(Indent, "")]
    {
      hide Nested, Balance, NoEof, Increasing;
      Deeper(indentStack, indent);
      indentStack := indentStack + [indent];
      Push(tokens, Token(Indent, ""));
      tokens := tokens + [Token(Indent, "")];
    }

    method CloseLevels(indent: nat)
      requires Valid()
      modifies this`tokens, this`indentStack, this`errors
      ensures Valid() && Closed(indent)
    {
      NoDedents();
      hide Nested, Balance, NoEof;
      while |indentStack| > 1 && indentStack[|indentStack| - 1] > indent
        invariant Valid() && errors == old(errors) && |indentStack| <= |old(indentStack)|
        invariant StillOpen(old(indentStack), indent) == StillOpen(indentStack, indent)
        invariant tokens == old(tokens) + Dedents(|old(indentStack)| - |indentStack|)
        decreases |indentStack|
      {
        Push(tokens, Token(Dedent, "")) by { DedentFits(); }
        indentStack := indentStack[..|indentStack| - 1];
        assert tokens + [Token(Dedent, "")] == old(tokens) + Dedents(|old(indentStack)| - |indentStack|);
        tokens := tokens + [Token(Dedent, "")];
      }
      if indentStack[|indentStack| - 1] != indent {
        errors := errors + 1;
      }
    }

    lemma DedentFits()
      requires Valid() && |indentStack| > 1
      ensures Balance(tokens) + Step(Token(Dedent, "")) >= 0
    {
    }

    /** A string literal; an unescaped brace starts an embedded expression. */
    method ScanString()
      requires Valid() && pos < |src| && src[pos] == '"'
      modifies this
      ensures Valid() && old(pos) < pos && ReadsNext() && Adds()
      ensures Unterminated(src, old(pos) + 1) ==> tokens == old(tokens) && errors == old(errors) + 1 && indentStack == old(indentStack)
      decreases |src| - pos, 0
    {
      hide Layout;
      ghost var start := pos + 1;
      pos := pos + 1;
      var buf := "";
      var hasInterp := false;
      while pos < |src| && src[pos] != '"'
        invariant Valid() && old(pos) < pos
        invariant !hasInterp ==> tokens == old(tokens) && errors == old(errors) && indentStack == old(indentStack)
        invariant !hasInterp ==> atLineStart == old(atLineStart) && StringScan(src, start, "") == StringScan(src, pos, buf)
        invariant !hasInterp ==> (Unterminated(src, start) <==> Unterminated(src, pos))
        invariant hasInterp ==> StringScan(src, start, "").None? && !Unterminated(src, start)
        invariant Adds()
        decreases |src| - pos
      {
        if src[pos] == '\n' {
          errors := errors + 1;
          return;
        }
        if src[pos] == '{' {
          hasInterp := true;
          ScanHole(buf);
          buf := "";
          continue;
        }
        if src[pos] == '\\' {
          pos := pos + 1;
          if pos == |src| {
            errors := errors + 1;
            return;
          }
          buf := buf + Unescape(src[pos]);
          pos := pos + 1;
          continue;
        }
        buf := buf + [src[pos]];
        pos := pos + 1;
      }
      if pos == |src| {
        errors := errors + 1;
        return;
      }
      pos := pos + 1;
      Emit(Token(if hasInterp then StringEnd else String, buf));
    }

    /** The text before an embedded expression, and the expression. */
    method ScanHole(buf: string)
      requires Valid() && pos < |src| && src[pos] == '{'
      modifies this
      ensures Valid() && old(pos) < pos && Adds()
      decreases |src| - pos, 4
    {
      hide Layout;
      EmitPart(buf);
      pos := pos + 1;
      Emit(Token(InterpStart, "{"));
      braceDepth := braceDepth + 1;
      ScanInterpolation();
    }

    /** The text before an embedded expression. */
    method EmitPart(buf: string)
      requires Valid()
      modifies this`tokens
      ensures Valid() && old(tokens) <= tokens
    {
      var last := if tokens == [] then EOF else tokens[|tokens| - 1].kind;
      if buf != "" && last in {StringStart, InterpEnd} {
        Emit(Token(StringPart, buf));
      } else {
        Emit(Token(StringStart, buf));
      }
    }

    /** Tokens up to the brace that closes the embedded expression. */
    method ScanInterpolation()
      requires Valid()
      modifies this
      ensures Valid() && old(pos) <= pos && Adds()
      ensures errors > old(errors) || (|tokens| > |old(tokens)| && tokens[|tokens| - 1] == Token(InterpEnd, "}"))
      decreases |src| - pos, 3
    {
      var depth := 1;
      while pos < |src| && depth > 0
        invariant Valid() && old(pos) <= pos && Adds()
        decreases |src| - pos
      {
        if src[pos] == '}' {
          depth := depth - 1;
          if depth == 0 {
            Emit(Token(InterpEnd, "}"));
            pos := pos + 1;
            braceDepth := braceDepth - 1;
            return;
          }
        }
        if src[pos] == '{' {
          depth := depth + 1;
        }
        ScanToken();
      }
      if depth > 0 {
        errors := errors + 1;
      }
    }

    method ScanDigits()
      requires Valid()
      modifies this`pos
      ensures Valid() && pos == DigitsEnd(src, old(pos))
    {
      while pos < |src| && IsDigit(src[pos])
        invariant Valid() && DigitsEnd(src, old(pos)) == DigitsEnd(src, pos)
        decreases |src| - pos
      {
        pos := pos + 1;
      }
    }

    method ScanNumber()
      requires Valid() && pos < |src| && IsDigit(src[pos])
      modifies this
      ensures Valid() && old(pos) < pos && ReadsNext()
    {
      hide Layout;
      var start := pos;
      var isFloat := false;
      ScanDigits();
      if pos < |src| && Peek() == '.' && PeekAt(src, pos + 1) != '.' {
        if IsDigit(PeekAt(src, pos + 1)) {
          isFloat := true;
          pos := pos + 1;
          ScanDigits();
        }
      }
      Emit(Token(if isFloat then Float else Int, src[start..pos]));
    }

    method ScanNamePart()
      requires Valid()
      modifies this`pos
      ensures Valid() && pos == IdentEnd(src, old(pos))
    {
      while pos < |src| && IsIdentPart(src[pos])
        invariant Valid() && IdentEnd(src, old(pos)) == IdentEnd(src, pos)
        decreases |src| - pos
      {
        pos := pos + 1;
      }
    }

    method ScanIdent()
      requires Valid() && pos < |src| && IsIdentStart(src[pos])
      modifies this
      ensures Valid() && old(pos) < pos && ReadsNext()
    {
      var start := pos;
      ScanNamePart();
      Emit(IdentToken(src[start..pos]));
    }

    /** The longest operator that stands at the position was read; where none does, one
        character was rejected. */
    twostate predicate TakesLongest()
      reads this
    {
      || (exists o :: LongestAt(src, old(pos), o) && TakesText(o))
      || (NoneAt(src, old(pos)) && Rejects())
    }

    twostate predicate TakesText(o: string)
      reads this
    {
      && tokens == old(tokens) + [Token(OperatorKind(o), o)] && pos == old(pos) + |o| && errors == old(errors)
      && indentStack == old(indentStack) && atLineStart == old(atLineStart)
    }

    /** Operators, delimiters and `$` names; anything else is one wrong character. */
    method ScanOperator()
      requires Valid() && pos < |src|
      requires var c, d := src[pos], PeekAt(src, pos + 1);
        !IsBlank(c) && c != '\n' && c != '\r' && !(c == '-' && d == '-') && !(c == '{' && d == '-') && c != '"'
        && !IsDigit(c) && !IsIdentStart(c)
      modifies this
      ensures Valid() && old(pos) < pos && ReadsNext()
      ensures Next(src, old(pos)).None? ==> Rejects()
      ensures src[old(pos)] != '$' ==> TakesLongest()
    {
      if src[pos] == '$' {
        ScanDollarName();
      } else {
        TakeOperator();
      }
    }

    method TakeOperator()
      requires Valid() && pos < |src| && OperatorPlace(src, pos)
      modifies this
      ensures Valid() && old(pos) < pos && ReadsNext() && TakesLongest()
      ensures Next(src, old(pos)).None? ==> Rejects()
    {
      hide *;
      var n := OperatorWidth(src[pos], PeekAt(src, pos + 1), PeekAt(src, pos + 2));
      OperatorHere(src, pos);
      if n == 0 {
        Reject();
      } else {
        TakeText(n);
      }
    }

    method Reject()
      requires Valid() && pos < |src| && NoneAt(src, pos) && Next(src, pos).None?
      modifies this`pos, this`errors
      ensures Valid() && old(pos) < pos && Rejects() && ReadsNext() && TakesLongest()
    {
      hide Layout, Next, LongestAt;
      pos := pos + 1;
      errors := errors + 1;
    }

    method TakeText(n: nat)
      requires Valid() && n > 0 && pos + n <= |src|
      requires var o := src[pos..pos + n]; LongestAt(src, pos, o) && Next(src, pos) == Some((Token(OperatorKind(o), o), pos + n))
      modifies this`pos, this`tokens
      ensures Valid() && old(pos) < pos && ReadsNext() && TakesLongest()
    {
      hide Layout, Next, LongestAt, NoneAt, OperatorKind;
      var o := src[pos..pos + n];
      pos := pos + n;
      Emit(Token(OperatorKind(o), o)) by { KindIsPlain(o); }
      assert LongestAt(src, old(pos), o) && TakesText(o);
    }

    lemma KindIsPlain(o: string)
      ensures !OperatorKind(o).EOF? && Step(Token(OperatorKind(o), o)) == 0
    {
    }

    /** A name behind `$`; a lone `$` is rejected. */
    method ScanDollarName()
      requires Valid() && pos < |src| && src[pos] == '$'
      modifies this
      ensures Valid() && old(pos) < pos && ReadsNext()
      ensures Next(src, old(pos)).None? ==> Rejects()
    {
      hide Layout;
      var start := pos;
      pos := pos + 1;
      if pos < |src| && IsIdentStart(src[pos]) {
        ScanNamePart();
        Emit(Token(Ident, src[start..pos]));
      } else {
        errors := errors + 1;
      }
    }

    method SkipLineComment()
      requires Valid() && pos + 1 < |src|
      modifies this`pos
      ensures Valid() && old(pos) < pos == LineEnd(src, old(pos) + 2)
    {
      pos := pos + 2;
      while pos < |src| && src[pos] != '\n'
        invariant Valid() && old(pos) < pos && LineEnd(src, old(pos) + 2) == LineEnd(src, pos)
        decreases |src| - pos
      {
        pos := pos + 1;
      }
    }

    /** Block comments nest. */
    method SkipBlockComment()
      requires Valid() && pos + 1 < |src|
      modifies this`pos, this`errors
      ensures Valid() && old(pos) < pos == CommentEnd(src, old(pos) + 2, 1).0
      ensures errors == old(errors) + if CommentEnd(src, old(pos) + 2, 1).1 > 0 then 1 else 0
    {
      pos := pos + 2;
      var depth := 1;
      while pos < |src| && depth > 0
        invariant Valid() && old(pos) < pos && errors == old(errors)
        invariant CommentEnd(src, old(pos) + 2, 1) == CommentEnd(src, pos, depth)
        decreases |src| - pos
      {
        if src[pos] == '{' && PeekAt(src, pos + 1) == '-' {
          depth := depth + 1;
          pos := pos + 2;
        } else if src[pos] == '-' && PeekAt(src, pos + 1) == '}' {
          depth := depth - 1;
          pos := pos + 2;
        } else {
          pos := pos + 1;
        }
      }
      if depth > 0 {
        errors := errors + 1;
      }
    }
  }

  method Tokenize(src: string) returns (tokens: seq<Token>, errors: nat)
    ensures tokens != [] && tokens[|tokens| - 1] == Token(EOF, "") && NoEof(tokens[..|tokens| - 1])
    ensures Nested(tokens) && Balance(tokens) == 0
    ensures (src == "" || !IsBlank(src[0])) && LineTokens(src, 0).Some? ==>
      tokens == LineTokens(src, 0).value + [Token(EOF, "")] && errors == 0
  {
    var l := new Lexer(src);
    l.Run();
    tokens, errors := l.tokens, l.errors;
  }
}
