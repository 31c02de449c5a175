/** Writing tokens as text, and reading the text back. */
module Rendering {
  import opened Wrappers
  import opened Chars
  import opened Tokens
  import opened Scan
  import Lexer

  function EscapeChar(c: char): string {
    match c
    case '\n' => "\\n"
    case '\\' => "\\\\"
    case '"' => "\\\""
    case '{' => "\\{"
    case _ => [c]
  }

  function Escape(s: string): string {
    if s == "" then "" else EscapeChar(s[0]) + Escape(s[1..])
  }

  function Render(t: Token): string {
    if t.kind.String? then "\"" + Escape(t.val) + "\"" else t.val
  }

  predicate Digits(s: string) {
    s != "" && forall i :: 0 <= i < |s| ==> IsDigit(s[i])
  }

  predicate NameLike(s: string) {
    s != "" && IsIdentStart(s[0]) && forall i :: 0 <= i < |s| ==> IsIdentPart(s[i])
  }

  predicate FloatLike(s: string) {
    exists k :: 0 < k < |s| && s[k] == '.' && Digits(s[..k]) && Digits(s[k + 1..])
  }

  /** A token that can stand on a line: any number, name, keyword, operator or string. */
  predicate Renderable(t: Token) {
    match t.kind
    case Int => Digits(t.val)
    case Float => FloatLike(t.val)
    case String => true
    case Ident => (NameLike(t.val) && t.val !in KEYWORDS) || (t.val != "" && t.val[0] == '$' && NameLike(t.val[1..]))
    case Keyword(w) => t.val in KEYWORDS && t.kind == KeywordKind(t.val)
    case Operator(o) => t.val in OPERATORS && t.kind == OperatorKind(t.val)
    case Logic(c, w) => t.val == if w then WordText(c) else SymbolText(c)
    case _ => false
  }

  function Spaced(a: string, b: string): (r: string)
    ensures |r| == |a| + 1 + |b|
  {
    a + (" " + b)
  }

  function RenderLine(ts: seq<Token>): string {
    if ts == [] then ""
    else if |ts| == 1 then Render(ts[0])
    else Spaced(Render(ts[0]), RenderLine(ts[1..]))
  }

  lemma CharAt(src: string, i: nat, r: string, m: nat)
    requires At(src, i, r) && m < |r|
    ensures i + m < |src| && src[i + m] == r[m]
  {
    assert src[i + m] == src[i..i + |r|][m];
  }

  lemma Cut(src: string, i: nat, a: string, b: string)
    requires At(src, i, a + b)
    ensures At(src, i, a) && At(src, i + |a|, b)
  {
    assert src[i..i + |a|] == src[i..i + |a + b|][..|a|] == a;
    assert src[i + |a|..i + |a| + |b|] == src[i..i + |a + b|][|a|..] == b;
  }

  /** What the character behind a backslash stands for; before any other both are kept. */
  const ESCAPES: map<char, string> :=
    map['n' := "\n", 't' := "\t", 'r' := "\r", '\\' := "\\", '"' := "\"", '{' := "{"]

  function Escaped(c: char): string {
    if c in ESCAPES then ESCAPES[c] else ['\\', c]
  }

  /** What follows a token on a rendered line. */
  predicate Ends(src: string, j: nat) {
    j == |src| || (j < |src| && src[j] == ' ')
  }

  lemma {:induction false} DigitsRun(src: string, i: nat, r: string)
    requires At(src, i, r) && (r == "" || Digits(r)) && !IsDigit(PeekAt(src, i + |r|))
    ensures DigitsEnd(src, i) == i + |r|
    decreases r
  {
    if r != "" {
      assert r == [r[0]] + r[1..];
      Cut(src, i, [r[0]], r[1..]);
      CharAt(src, i, r, 0);
      DigitsRun(src, i + 1, r[1..]);
    }
  }

  lemma {:induction false} NameRun(src: string, i: nat, r: string)
    requires At(src, i, r) && (forall m :: 0 <= m < |r| ==> IsIdentPart(r[m])) && !IsIdentPart(PeekAt(src, i + |r|))
    ensures IdentEnd(src, i) == i + |r|
    decreases r
  {
    if r != "" {
      assert r == [r[0]] + r[1..];
      Cut(src, i, [r[0]], r[1..]);
      CharAt(src, i, r, 0);
      NameRun(src, i + 1, r[1..]);
    }
  }

  lemma EscapedCharScans(src: string, i: nat, c: char, buf: string)
    requires At(src, i, EscapeChar(c))
    ensures StringScan(src, i, buf) == StringScan(src, i + |EscapeChar(c)|, buf + [c])
  {
    CharAt(src, i, EscapeChar(c), 0);
    if |EscapeChar(c)| == 2 {
      CharAt(src, i, EscapeChar(c), 1);
      assert Unescape(src[i + 1]) == [c];
    }
  }

  /** The escaped string and its closing quote stand at `i`. */
  predicate QuotedAt(src: string, i: nat, s: string) {
    At(src, i, Escape(s) + "\"")
  }

  lemma EscapeSplits(s: string)
    requires s != ""
    ensures Escape(s) + "\"" == EscapeChar(s[0]) + (Escape(s[1..]) + "\"")
  {
    hide EscapeChar;
  }

  lemma QuotedEnd(src: string, i: nat, buf: string)
    requires QuotedAt(src, i, "")
    ensures StringScan(src, i, buf) == Some((buf, i + 1)) && |Escape("")| == 0
  {
    assert Escape("") + "\"" == "\"";
    CharAt(src, i, "\"", 0);
  }

  /** Every byte string has a literal that scans back to it. */
  lemma {:induction false} EscapeScans(src: string, i: nat, s: string, buf: string)
    requires QuotedAt(src, i, s)
    ensures StringScan(src, i, buf) == Some((buf + s, i + |Escape(s)| + 1))
    decreases s
  {
    hide At, Escape, EscapeChar, StringScan;
    if s == "" {
      QuotedEnd(src, i, buf);
      assert buf + s == buf;
    } else {
      EscapeSplits(s);
      Cut(src, i, EscapeChar(s[0]), Escape(s[1..]) + "\"");
      EscapedCharScans(src, i, s[0], buf);
      EscapeScans(src, i + |EscapeChar(s[0])|, s[1..], buf + [s[0]]);
      assert buf + [s[0]] + s[1..] == buf + s;
    }
  }

  /** Text up to a place in a literal. */
  lemma {:induction false} EscapeRuns(src: string, i: nat, s: string, buf: string)
    requires At(src, i, Escape(s))
    ensures StringScan(src, i, buf) == StringScan(src, i + |Escape(s)|, buf + s)
    decreases s
  {
    hide At, EscapeChar, StringScan;
    if s == "" {
      assert buf + s == buf;
    } else {
      Cut(src, i, EscapeChar(s[0]), Escape(s[1..]));
      EscapedCharScans(src, i, s[0], buf);
      EscapeRuns(src, i + |EscapeChar(s[0])|, s[1..], buf + [s[0]]);
      assert buf + [s[0]] + s[1..] == buf + s;
    }
  }

  lemma EscapeRead(src: string, i: nat, c: char, buf: string)
    requires At(src, i, ['\\', c])
    ensures StringScan(src, i, buf) == StringScan(src, i + 2, buf + Escaped(c))
  {
    CharAt(src, i, ['\\', c], 0);
    CharAt(src, i, ['\\', c], 1);
  }

  /** The literal of `a`, a backslash, `c` and `b`. */
  function Quoted(a: string, c: char, b: string): string {
    "\"" + (Escape(a) + (['\\', c] + (Escape(b) + "\"")))
  }

  lemma LiteralParts(a: string, c: char, b: string)
    ensures var src := Quoted(a, c, b);
      && src[0] == '"' && At(src, 1, Escape(a)) && At(src, 1 + |Escape(a)|, ['\\', c])
      && QuotedAt(src, 3 + |Escape(a)|, b) && |src| == 4 + |Escape(a)| + |Escape(b)|
  {
    var src := Quoted(a, c, b);
    assert At(src, 0, src);
    hide At, Escape;
    Cut(src, 0, "\"", Escape(a) + (['\\', c] + (Escape(b) + "\"")));
    Cut(src, 1, Escape(a), ['\\', c] + (Escape(b) + "\""));
    Cut(src, 1 + |Escape(a)|, ['\\', c], Escape(b) + "\"");
  }

  lemma StringToken(src: string, v: string, e: nat)
    requires src != "" && src[0] == '"' && StringScan(src, 1, "") == Some((v, e))
    ensures Next(src, 0) == Some((Token(String, v), e))
  {
    hide StringScan;
  }

  /** Every backslash in a literal has exactly its own effect, whatever stands around it. */
  lemma {:induction false} EscapesMean(a: string, c: char, b: string)
    ensures Next(Quoted(a, c, b), 0) == Some((Token(String, a + Escaped(c) + b), |Quoted(a, c, b)|))
  {
    var src, i := Quoted(a, c, b), 1 + |Escape(a)|;
    LiteralParts(a, c, b);
    hide *;
    EscapeRuns(src, 1, a, "");
    EscapeRead(src, i, c, "" + a);
    EscapeScans(src, i + 2, b, "" + a + Escaped(c));
    assert "" + a == a;
    StringToken(src, a + Escaped(c) + b, |src|);
  }

  /** A keyword is a name. */
  lemma KeywordsAreNames(w: string)
    requires w in KEYWORDS
    ensures NameLike(w)
  {
  }

  lemma Connectives(c: Connective)
    ensures WordText(c) in KEYWORDS && KeywordKind(WordText(c)) == Logic(c, true)
    ensures SymbolText(c) in OPERATORS && OperatorKind(SymbolText(c)) == Logic(c, false)
  {
  }

  /** A rendered token, at the end or before a blank, is the next token there. */
  lemma NextIsRendered(src: string, i: nat, t: Token)
    requires Renderable(t) && At(src, i, Render(t)) && Ends(src, i + |Render(t)|)
    ensures i < |src| && !IsBlank(src[i]) && Next(src, i) == Some((t, i + |Render(t)|))
  {
    match t.kind {
      case Int => IntNext(src, i, t);
      case Float => FloatNext(src, i, t);
      case String => StringNext(src, i, t);
      case Ident =>
        if NameLike(t.val) {
          NameNext(src, i, t);
        } else {
          DollarNext(src, i, t);
        }
      case Keyword(w) => KeywordsAreNames(t.val); NameNext(src, i, t);
      case Operator(o) => OperatorNext(src, i, t);
      case Logic(c, w) =>
        Connectives(c);
        if w {
          KeywordsAreNames(t.val);
          NameNext(src, i, t);
        } else {
          OperatorNext(src, i, t);
        }
    }
  }

  lemma IntNext(src: string, i: nat, t: Token)
    requires t.kind.Int? && Digits(t.val) && At(src, i, t.val) && Ends(src, i + |t.val|)
    ensures i < |src| && !IsBlank(src[i]) && Next(src, i) == Some((t, i + |t.val|))
  {
    CharAt(src, i, t.val, 0);
    DigitsRun(src, i, t.val);
  }

  /** A float's two runs of digits around the point. */
  predicate FloatAt(src: string, i: nat, a: string, b: string) {
    At(src, i, a + ("." + b))
  }

  lemma FloatNext(src: string, i: nat, t: Token)
    requires t.kind.Float? && FloatLike(t.val) && At(src, i, t.val) && Ends(src, i + |t.val|)
    ensures i < |src| && !IsBlank(src[i]) && Next(src, i) == Some((t, i + |t.val|))
  {
    var a, b := FloatParts(src, i, t.val);
    hide *;
    FloatEnds(src, i, a, b);
    FloatToken(src, i, t);
  }

  lemma FloatParts(src: string, i: nat, v: string) returns (a: string, b: string)
    requires FloatLike(v) && At(src, i, v)
    ensures FloatAt(src, i, a, b) && |v| == |a| + 1 + |b| && Digits(a) && Digits(b)
  {
    var k :| 0 < k < |v| && v[k] == '.' && Digits(v[..k]) && Digits(v[k + 1..]);
    hide Digits;
    a, b := v[..k], v[k + 1..];
    assert v == a + ("." + b);
  }

  lemma FloatToken(src: string, i: nat, t: Token)
    requires t.kind.Float? && At(src, i, t.val) && i < |src| && IsDigit(src[i])
    requires DigitsEnd(src, i) < NumberEnd(src, i) == i + |t.val|
    ensures !IsBlank(src[i]) && Next(src, i) == Some((t, i + |t.val|))
  {
  }

  lemma FloatEnds(src: string, i: nat, a: string, b: string)
    requires Digits(a) && Digits(b) && FloatAt(src, i, a, b) && Ends(src, i + |a| + 1 + |b|)
    ensures i < |src| && IsDigit(src[i]) && DigitsEnd(src, i) == i + |a| && NumberEnd(src, i) == i + |a| + 1 + |b|
  {
    hide *;
    DigitsStart(a);
    DigitsStart(b);
    FloatCut(src, i, a, b);
    var j := i + |a|;
    PointAfter(src, j);
    DigitsRun(src, i, a);
    EndAfter(src, j + 1 + |b|);
    DigitsRun(src, j + 1, b);
    FractionEnds(src, i, j);
  }

  lemma DigitsStart(a: string)
    requires Digits(a)
    ensures a != "" && IsDigit(a[0])
  {
  }

  lemma PointAfter(src: string, j: nat)
    requires j < |src| && src[j] == '.'
    ensures !IsDigit(PeekAt(src, j))
  {
  }

  lemma EndAfter(src: string, j: nat)
    requires Ends(src, j)
    ensures !IsDigit(PeekAt(src, j))
  {
  }

  lemma FractionEnds(src: string, i: nat, j: nat)
    requires i <= |src| && DigitsEnd(src, i) == j && j + 1 < |src| && src[j] == '.' && IsDigit(src[j + 1])
    ensures NumberEnd(src, i) == DigitsEnd(src, j + 1)
  {
  }

  lemma FloatCut(src: string, i: nat, a: string, b: string)
    requires a != "" && b != "" && FloatAt(src, i, a, b)
    ensures i + |a| + 1 < |src| && At(src, i, a) && src[i] == a[0] && src[i + |a|] == '.'
    ensures At(src, i + |a| + 1, b) && src[i + |a| + 1] == b[0]
  {
    var j := i + |a|;
    Cut(src, i, a, "." + b);
    Cut(src, j, ".", b);
    hide At;
    CharAt(src, i, a, 0);
    CharAt(src, j, ".", 0);
    CharAt(src, j + 1, b, 0);
  }

  lemma StringNext(src: string, i: nat, t: Token)
    requires t.kind.String? && At(src, i, Render(t))
    ensures i < |src| && !IsBlank(src[i]) && Next(src, i) == Some((t, i + |Render(t)|))
  {
    StringParts(src, i, t);
    EscapeScans(src, i + 1, t.val, "");
    assert "" + t.val == t.val;
    hide At, QuotedAt, Escape, Render, StringScan;
  }

  lemma StringParts(src: string, i: nat, t: Token)
    requires t.kind.String? && At(src, i, Render(t))
    ensures i < |src| && src[i] == '"' && QuotedAt(src, i + 1, t.val) && |Render(t)| == |Escape(t.val)| + 2
  {
    assert Render(t) == "\"" + (Escape(t.val) + "\"");
    hide At, Escape, Render;
    Cut(src, i, "\"", Escape(t.val) + "\"");
    CharAt(src, i, "\"", 0);
  }

  lemma NameNext(src: string, i: nat, t: Token)
    requires NameLike(t.val) && t == IdentToken(t.val) && At(src, i, t.val) && Ends(src, i + |t.val|)
    ensures i < |src| && !IsBlank(src[i]) && Next(src, i) == Some((t, i + |t.val|))
  {
    CharAt(src, i, t.val, 0);
    NameRun(src, i, t.val);
  }

  lemma DollarNext(src: string, i: nat, t: Token)
    requires t.kind.Ident? && t.val != "" && t.val[0] == '$' && NameLike(t.val[1..])
    requires At(src, i, t.val) && Ends(src, i + |t.val|)
    ensures i < |src| && !IsBlank(src[i]) && Next(src, i) == Some((t, i + |t.val|))
  {
    assert t.val == "$" + t.val[1..];
    Cut(src, i, "$", t.val[1..]);
    CharAt(src, i, "$", 0);
    CharAt(src, i + 1, t.val[1..], 0);
    NameRun(src, i + 1, t.val[1..]);
  }

  lemma OperatorNext(src: string, i: nat, t: Token)
    requires t.val in OPERATORS && t.kind == OperatorKind(t.val) && At(src, i, t.val) && Ends(src, i + |t.val|)
    ensures i < |src| && !IsBlank(src[i]) && Next(src, i) == Some((t, i + |t.val|))
  {
    var o := t.val;
    OperatorChars(o);
    CharAt(src, i, o, 0);
    NoBlankOperator(src, i, o);
    if |o| >= 2 {
      CharAt(src, i, o, 1);
    }
    hide OPERATORS;
  }

  /** No operator begins another token, and none is longer than three characters. */
  lemma OperatorChars(o: string)
    requires o in OPERATORS
    ensures 1 <= |o| <= 3 && !IsIdentStart(o[0]) && !IsDigit(o[0]) && o[0] !in {' ', '\t', '\n', '\r', '"', '$'}
    ensures |o| >= 2 ==> !(o[0] == '-' && o[1] == '-') && !(o[0] == '{' && o[1] == '-')
    ensures forall m :: 0 <= m < |o| ==> o[m] != ' '
  {
  }

  lemma Blanked(r: string, m: nat)
    requires m < |r| && r[m] == ' '
    ensures r !in OPERATORS
  {
    assert forall o :: o in OPERATORS ==> ' ' !in o;
  }

  /** Before a blank no longer operator stands there. */
  lemma NoBlankOperator(src: string, i: nat, o: string)
    requires o in OPERATORS && At(src, i, o) && Ends(src, i + |o|)
    ensures LongestOperator(src, i) == |o|
  {
    OperatorChars(o);
    hide OPERATORS;
    forall n: nat | |o| < n <= 3 && i + n <= |src| ensures !IsOperatorAt(src, i, n) {
      Blanked(src[i..i + n], |o|);
    }
  }

  predicate AllRenderable(ts: seq<Token>) {
    forall m :: 0 <= m < |ts| ==> Renderable(ts[m])
  }

  lemma RenderableHead(ts: seq<Token>)
    requires AllRenderable(ts) && ts != []
    ensures Renderable(ts[0]) && AllRenderable(ts[1..])
  {
    hide Renderable;
  }

  /** From `i` on, the rest of the text is these tokens rendered. */
  predicate LineAt(src: string, i: nat, ts: seq<Token>) {
    At(src, i, RenderLine(ts)) && i + |RenderLine(ts)| == |src|
  }

  lemma SpacedAt(src: string, i: nat, a: string, b: string)
    requires At(src, i, Spaced(a, b))
    ensures At(src, i, a) && i + |a| < |src| && src[i + |a|] == ' ' && At(src, i + |a| + 1, b)
  {
    var s, j := Spaced(a, b), i + |a|;
    var r := src[i..i + |s|];
    assert src[i..j] == r[..|a|] == a;
    assert src[j] == r[|a|] == ' ';
    assert src[j + 1..j + 1 + |b|] == r[|a| + 1..] == b;
  }

  lemma LineHead(src: string, i: nat, ts: seq<Token>)
    requires LineAt(src, i, ts) && ts != []
    ensures At(src, i, Render(ts[0])) && Ends(src, i + |Render(ts[0])|)
    ensures |ts| == 1 ==> i + |Render(ts[0])| == |src|
    ensures |ts| > 1 ==> var j := i + |Render(ts[0])|; j < |src| && src[j] == ' ' && LineAt(src, j + 1, ts[1..])
  {
    hide Spaced, Render, At;
    if |ts| > 1 {
      SpacedAt(src, i, Render(ts[0]), RenderLine(ts[1..]));
    }
  }

  predicate ReadsAs(src: string, i: nat, ts: seq<Token>) {
    i <= |src| && LineTokens(src, i) == Some(ts) && (ts != [] ==> i < |src| && !IsBlank(src[i]))
  }

  /** A line of rendered tokens, separated by blanks, reads back as those tokens. */
  lemma {:induction false} LineReadsBack(src: string, i: nat, ts: seq<Token>)
    requires LineAt(src, i, ts) && AllRenderable(ts)
    ensures ReadsAs(src, i, ts)
    decreases ts
  {
    hide *;
    if ts == [] {
      LineEmpty(src, i);
    } else {
      LineHead(src, i, ts);
      RenderableHead(ts);
      NextIsRendered(src, i, ts[0]);
      var j := i + |Render(ts[0])|;
      if |ts| == 1 {
        LineEnds(src, i, ts, j);
      } else {
        LineReadsBack(src, j + 1, ts[1..]);
        LineCons(src, i, ts, j);
      }
    }
  }

  lemma LineEmpty(src: string, i: nat)
    requires LineAt(src, i, [])
    ensures ReadsAs(src, i, [])
  {
  }

  lemma LineEnds(src: string, i: nat, ts: seq<Token>, j: nat)
    requires |ts| == 1 && i < j == |src| && !IsBlank(src[i]) && Next(src, i) == Some((ts[0], j))
    ensures ReadsAs(src, i, ts)
  {
    hide Next;
    assert LineTokens(src, j) == Some([]);
    assert [ts[0]] + [] == ts;
  }

  lemma LineCons(src: string, i: nat, ts: seq<Token>, j: nat)
    requires |ts| > 1 && i < j < |src| && !IsBlank(src[i]) && Next(src, i) == Some((ts[0], j))
    requires src[j] == ' ' && ReadsAs(src, j + 1, ts[1..])
    ensures ReadsAs(src, i, ts)
  {
    hide Next;
    assert LineTokens(src, j) == Some(ts[1..]);
    assert ts == [ts[0]] + ts[1..];
  }

  /** Rendering any list of plain tokens and tokenizing the line gives the list, an EOF, and
      no error. */
  method RoundTrip(ts: seq<Token>) returns (tokens: seq<Token>, errors: nat)
    requires AllRenderable(ts)
    ensures tokens == ts + [Token(EOF, "")] && errors == 0
  {
    var src := RenderLine(ts);
    assert src[0..0 + |src|] == src;
    assert LineAt(src, 0, ts);
    LineReadsBack(src, 0, ts);
    tokens, errors := Lexer.Tokenize(src);
  }
}
