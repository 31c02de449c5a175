/** The plain tokens of a line: where each ends and what it stands for.  Characters are bytes. */
module Scan {
  import opened Wrappers
  import opened Chars
  import opened Tokens

  // ----- characters -----

  predicate IsIdentStart(c: char) { 'a' <= c <= 'z' || 'A' <= c <= 'Z' || c == '_' }

  predicate IsIdentPart(c: char) { IsIdentStart(c) || IsDigit(c) }

  predicate IsBlank(c: char) { c == ' ' || c == '\t' }

  /** Letter by letter. */
  lemma NameCharacters(c: char)
    ensures IsIdentStart(c) <==> c in SMALL || c in CAPITALS || c == '_'
    ensures IsIdentPart(c) <==> c in SMALL || c in CAPITALS || c in DIGITS || c == '_'
  {
    Alphabet(c);
    hide SMALL, CAPITALS, DIGITS;
  }

  const NUL: char := '\0'

  function PeekAt(src: string, i: nat): char {
    if i < |src| then src[i] else NUL
  }

  // ----- one token -----

  function DigitsEnd(src: string, i: nat): (e: nat)
    requires i <= |src|
    ensures i <= e <= |src|
    decreases |src| - i
  {
    if i < |src| && IsDigit(src[i]) then DigitsEnd(src, i + 1) else i
  }

  function IdentEnd(src: string, i: nat): (e: nat)
    requires i <= |src|
    ensures i <= e <= |src|
    decreases |src| - i
  {
    if i < |src| && IsIdentPart(src[i]) then IdentEnd(src, i + 1) else i
  }

  /** Digits, and a fraction only if a digit follows the point. */
  function NumberEnd(src: string, i: nat): (e: nat)
    requires i <= |src|
    ensures i <= e <= |src|
  {
    var e := DigitsEnd(src, i);
    if PeekAt(src, e) == '.' && IsDigit(PeekAt(src, e + 1)) then DigitsEnd(src, e + 1) else e
  }

  /** `r` stands in `src` at `i`. */
  predicate At(src: string, i: nat, r: string) {
    i + |r| <= |src| && src[i..i + |r|] == r
  }

  predicate IsOperatorAt(src: string, i: nat, n: nat) {
    i + n <= |src| && src[i..i + n] in OPERATORS
  }

  /** The length of the longest operator that stands at `i`; zero for none. */
  function LongestOperator(src: string, i: nat): (n: nat)
    ensures n > 0 ==> i + n <= |src| && IsOperatorAt(src, i, n)
    ensures n <= 3
  {
    if IsOperatorAt(src, i, 3) then 3
    else if IsOperatorAt(src, i, 2) then 2
    else if IsOperatorAt(src, i, 1) then 1
    else 0
  }

  function Unescape(c: char): string {
    match c
    case 'n' => "\n"
    case 't' => "\t"
    case 'r' => "\r"
    case '\\' => "\\"
    case '"' => "\""
    case '{' => "{"
    case _ => ['\\', c]
  }

  /** The value and the end of a string literal without embedded expressions. */
  function StringScan(src: string, i: nat, buf: string): (r: Option<(string, nat)>)
    ensures r.Some? ==> i < r.value.1 <= |src|
    decreases |src| - i
  {
    if i >= |src| || src[i] == '\n' || src[i] == '{' then None
    else if src[i] == '"' then Some((buf, i + 1))
    else if src[i] == '\\' then
      if i + 1 >= |src| then None else StringScan(src, i + 2, buf + Unescape(src[i + 1]))
    else StringScan(src, i + 1, buf + [src[i]])
  }

  /** The line or the text ends before the literal does, with no embedded expression in it. */
  predicate Unterminated(src: string, i: nat)
    decreases |src| - i
  {
    if i >= |src| || src[i] == '\n' then true
    else if src[i] == '"' || src[i] == '{' then false
    else if src[i] == '\\' then i + 1 >= |src| || Unterminated(src, i + 2)
    else Unterminated(src, i + 1)
  }

  function IdentToken(val: string): Token {
    Token(if val in KEYWORDS then KeywordKind(val) else Ident, val)
  }

  /** The token that starts at `i` and where it ends, if it is a number, a name, an operator
      or a string literal without embedded expressions. */
  function Next(src: string, i: nat): (r: Option<(Token, nat)>)
    requires i < |src|
    ensures r.Some? ==> i < r.value.1 <= |src| && !r.value.0.kind.EOF?
  {
    var c, d := src[i], PeekAt(src, i + 1);
    if IsBlank(c) || c == '\n' || c == '\r' || (c == '-' && d == '-') || (c == '{' && d == '-') then None
    else if c == '"' then
      var s := StringScan(src, i + 1, "");
      if s.Some? then Some((Token(String, s.value.0), s.value.1)) else None
    else if IsDigit(c) then
      var e := NumberEnd(src, i);
      Some((Token(if e == DigitsEnd(src, i) then Int else Float, src[i..e]), e))
    else if IsIdentStart(c) then
      var e := IdentEnd(src, i);
      Some((IdentToken(src[i..e]), e))
    else if c == '$' then
      if IsIdentStart(d) then Some((Token(Ident, src[i..IdentEnd(src, i + 1)]), IdentEnd(src, i + 1))) else None
    else
      var n := LongestOperator(src, i);
      if n == 0 then None else Some((Token(OperatorKind(src[i..i + n]), src[i..i + n]), i + n))
  }

  /** All tokens from `i` on, if there are only plain tokens and blanks. */
  function LineTokens(src: string, i: nat): Option<seq<Token>>
    requires i <= |src|
    decreases |src| - i
  {
    if i == |src| then Some([])
    else if IsBlank(src[i]) then LineTokens(src, i + 1)
    else
      var t := Next(src, i);
      if t.None? then None
      else
        var rest := LineTokens(src, t.value.1);
        if rest.Some? then Some([t.value.0] + rest.value) else None
  }
}
