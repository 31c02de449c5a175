/** ASCII letters and digits; every other character is left as it is. */
module Chars {

  predicate IsUpper(c: char) { 'A' <= c <= 'Z' }

  predicate IsLower(c: char) { 'a' <= c <= 'z' }

  predicate IsDigit(c: char) { '0' <= c <= '9' }

  function ToLower(c: char): char {
    if IsUpper(c) then c - 'A' + 'a' else c
  }

  function ToUpper(c: char): char {
    if IsLower(c) then c - 'a' + 'A' else c
  }

  function Lower(s: string): string {
    seq(|s|, i requires 0 <= i < |s| => ToLower(s[i]))
  }

  function Upper(s: string): string {
    seq(|s|, i requires 0 <= i < |s| => ToUpper(s[i]))
  }

  const CAPITALS: string := "ABCDEFGHIJKLMNOPQRSTUVWXYZ"
  const SMALL: string := "abcdefghijklmnopqrstuvwxyz"
  const DIGITS: string := "0123456789"

  lemma Ordered()
    ensures |CAPITALS| == |SMALL| == 26 && |DIGITS| == 10
    ensures forall i: nat :: i < 26 ==> CAPITALS[i] == 'A' + i as char && SMALL[i] == 'a' + i as char
    ensures forall i: nat :: i < 10 ==> DIGITS[i] == '0' + i as char
  {
  }

  /** The classes of characters and the change of case, letter by letter. */
  lemma Alphabet(c: char)
    ensures (IsUpper(c) <==> c in CAPITALS) && (IsLower(c) <==> c in SMALL) && (IsDigit(c) <==> c in DIGITS)
    ensures forall i :: 0 <= i < 26 ==> ToLower(CAPITALS[i]) == SMALL[i] && ToUpper(SMALL[i]) == CAPITALS[i]
    ensures (c !in CAPITALS ==> ToLower(c) == c) && (c !in SMALL ==> ToUpper(c) == c)
  {
    Ordered();
    hide CAPITALS, SMALL, DIGITS;
    ByPlace(c, CAPITALS, SMALL, DIGITS);
  }

  lemma ByPlace(c: char, capitals: string, small: string, digits: string)
    requires |capitals| == |small| == 26 && |digits| == 10
    requires forall i: nat :: i < 26 ==> capitals[i] == 'A' + i as char && small[i] == 'a' + i as char
    requires forall i: nat :: i < 10 ==> digits[i] == '0' + i as char
    ensures (IsUpper(c) <==> c in capitals) && (IsLower(c) <==> c in small) && (IsDigit(c) <==> c in digits)
    ensures forall i :: 0 <= i < 26 ==> ToLower(capitals[i]) == small[i] && ToUpper(small[i]) == capitals[i]
    ensures (c !in capitals ==> ToLower(c) == c) && (c !in small ==> ToUpper(c) == c)
  {
    if IsUpper(c) { assert capitals[(c - 'A') as int] == c; }
    if IsLower(c) { assert small[(c - 'a') as int] == c; }
    if IsDigit(c) { assert digits[(c - '0') as int] == c; }
  }
}
