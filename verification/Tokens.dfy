/** Tokens, as the tokenizer makes them and the parser reads them. */
module Tokens {

  /** `||`, `&&` and `!`, which can also be written as the words `or`, `and` and `not`. */
  datatype Connective = Disjunction | Conjunction | Negation

  datatype TokenType =
    | EOF | Newline | Indent | Dedent
    | Int | Float | String | Ident
    | StringStart | StringPart | StringEnd | InterpStart | InterpEnd
    | Keyword(word: string)
    | Operator(text: string)
    | Logic(connective: Connective, spelledOut: bool)

  datatype Token = Token(kind: TokenType, val: string)

  function SymbolText(c: Connective): string {
    match c
    case Disjunction => "||"
    case Conjunction => "&&"
    case Negation => "!"
  }

  function WordText(c: Connective): string {
    match c
    case Disjunction => "or"
    case Conjunction => "and"
    case Negation => "not"
  }

  function KeywordKind(w: string): TokenType {
    if w == "or" then Logic(Disjunction, true)
    else if w == "and" then Logic(Conjunction, true)
    else if w == "not" then Logic(Negation, true)
    else Keyword(w)
  }

  function OperatorKind(o: string): TokenType {
    if o == "||" then Logic(Disjunction, false)
    else if o == "&&" then Logic(Conjunction, false)
    else if o == "!" then Logic(Negation, false)
    else Operator(o)
  }

  const KEYWORDS: set<string> := {
    "fn", "let", "return", "if", "then", "else", "match", "when", "try", "catch", "and", "or", "not",
    "true", "false", "null", "query", "for", "in", "raise", "use", "record", "type"}

  /** Every operator and delimiter. */
  const OPERATORS: set<string> := {
    "+", "++", "-", "->", "*", "/", "%", "=", "==", "=>", "!", "!=", ">", ">=", "<", "<=", "&&", "|", "||",
    "?", "??", "?.", ".", "..", "...", ":", "::", "(", ")", "[", "]", "{", "}", ","}
}
