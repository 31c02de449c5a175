/** Word splitting and the naming styles built on it, on ASCII text. */
module TextCase {
  import opened Chars

  predicate IsAlnum(c: char) { IsUpper(c) || IsLower(c) || IsDigit(c) }

  function UpperFirst(w: string): string {
    if w == "" then w else [ToUpper(w[0])] + w[1..]
  }

  // ----- splitting -----

  /** A capital at `i` starts a word: after a lowercase letter or a digit, or as the last
      capital of an acronym that a lowercase letter follows. */
  predicate Breaks(s: string, i: nat)
    requires i < |s|
  {
    i > 0 && (IsLower(s[i - 1]) || IsDigit(s[i - 1]) || (IsUpper(s[i - 1]) && i + 1 < |s| && IsLower(s[i + 1])))
  }

  function Flush(current: string): seq<string> {
    if current == "" then [] else [Lower(current)]
  }

  /** The words of `s` from position `i` on, with `current` already collected. */
  function Scan(s: string, i: nat, current: string): seq<string>
    requires i <= |s|
    decreases |s| - i
  {
    if i == |s| then Flush(current)
    else if IsUpper(s[i]) && Breaks(s, i) then Flush(current) + Scan(s, i + 1, [s[i]])
    else if IsAlnum(s[i]) then Scan(s, i + 1, current + [s[i]])
    else Flush(current) + Scan(s, i + 1, "")
  }

  function Words(s: string): seq<string> {
    Scan(s, 0, "")
  }

  /** A stretch of the text, up to but without `upto`. */
  datatype Span = Span(from: nat, upto: nat)

  predicate InSpan(w: Span, i: nat) { w.from <= i < w.upto }

  predicate InText(s: string, spans: seq<Span>) {
    && (forall k :: 0 <= k < |spans| ==> spans[k].from < spans[k].upto <= |s|)
    && (forall j, k :: 0 <= j < k < |spans| ==> spans[j].upto <= spans[k].from)
  }

  ghost predicate Covered(spans: seq<Span>, i: nat) { exists k :: 0 <= k < |spans| && InSpan(spans[k], i) }

  ghost predicate Begun(spans: seq<Span>, i: nat) { exists k :: 0 <= k < |spans| && spans[k].from == i }

  /** The spans hold the letters and digits and nothing else; of two neighbouring ones the
      second begins a new span exactly if it is a capital after a lowercase letter or a digit,
      or the last capital of several before a lowercase letter. */
  ghost predicate Divided(s: string, spans: seq<Span>) {
    && InText(s, spans)
    && (forall i :: 0 <= i < |s| ==> (Covered(spans, i) <==> IsUpper(s[i]) || IsLower(s[i]) || IsDigit(s[i])))
    && (forall i :: 0 < i < |s| && Covered(spans, i) && Covered(spans, i - 1) ==>
          (Begun(spans, i) <==>
            IsUpper(s[i]) && (IsLower(s[i - 1]) || IsDigit(s[i - 1]) || (IsUpper(s[i - 1]) && i + 1 < |s| && IsLower(s[i + 1])))))
  }

  function WordsIn(s: string, spans: seq<Span>): seq<string>
    requires InText(s, spans)
  {
    seq(|spans|, k requires 0 <= k < |spans| => Lower(s[spans[k].from..spans[k].upto]))
  }

  // ----- where the words stand -----

  predicate StartsWord(s: string, i: nat)
    requires i < |s|
  {
    IsUpper(s[i]) && Breaks(s, i)
  }

  function Pending(a: nat, i: nat): seq<Span> { if a == i then [] else [Span(a, i)] }

  /** The spans of the words from `a` on; the part up to `i` has been collected. */
  function Spans(s: string, a: nat, i: nat): (spans: seq<Span>)
    requires a <= i <= |s|
    decreases |s| - i
  {
    if i == |s| then Pending(a, i)
    else if StartsWord(s, i) then Pending(a, i) + Spans(s, i, i + 1)
    else if IsAlnum(s[i]) then Spans(s, a, i + 1)
    else Pending(a, i) + Spans(s, i + 1, i + 1)
  }

  ghost predicate Collected(s: string, a: nat, i: nat) {
    a <= i <= |s| && (forall x :: a <= x < i ==> IsAlnum(s[x])) && (forall x :: a < x < i ==> !StartsWord(s, x))
  }

  /** As `Divided`, for the text from `a` on. */
  ghost predicate DividedFrom(s: string, spans: seq<Span>, a: nat) {
    && InText(s, spans)
    && (forall k :: 0 <= k < |spans| ==> a <= spans[k].from)
    && (forall x :: a <= x < |s| ==> (Covered(spans, x) <==> IsAlnum(s[x])))
    && (forall x :: a < x < |s| && IsAlnum(s[x]) && IsAlnum(s[x - 1]) ==> (Begun(spans, x) <==> StartsWord(s, x)))
  }

  lemma OneMore(w: Span, rest: seq<Span>, x: nat)
    ensures Covered([w] + rest, x) <==> InSpan(w, x) || Covered(rest, x)
    ensures Begun([w] + rest, x) <==> w.from == x || Begun(rest, x)
  {
    var all := [w] + rest;
    assert all[0] == w;
    assert forall k :: 0 <= k < |rest| ==> all[k + 1] == rest[k];
    assert forall k :: 0 < k < |all| ==> all[k] == rest[k - 1];
  }

  /** A collected word in front of spans that divide the text from `b` on. */
  lemma SpanBefore(s: string, a: nat, i: nat, b: nat, rest: seq<Span>)
    requires Collected(s, a, i) && a < i <= b <= i + 1 && DividedFrom(s, rest, b)
    requires b == i ==> i < |s| && StartsWord(s, i) && Begun(rest, i)
    requires b == i + 1 ==> i < |s| && !IsAlnum(s[i])
    ensures DividedFrom(s, [Span(a, i)] + rest, a)
  {
    var w, all := Span(a, i), [Span(a, i)] + rest;
    assert InText(s, all) && forall k :: 0 <= k < |all| ==> a <= all[k].from by {
      assert forall k :: 0 < k < |all| ==> all[k] == rest[k - 1];
    }
    hide InText, StartsWord;
    forall x | a <= x < |s|
      ensures Covered(all, x) <==> IsAlnum(s[x])
      ensures a < x && IsAlnum(s[x]) && IsAlnum(s[x - 1]) ==> (Begun(all, x) <==> StartsWord(s, x))
    {
      OneMore(w, rest, x);
    }
  }

  lemma {:induction false} SpansDivide(s: string, a: nat, i: nat)
    requires Collected(s, a, i)
    ensures DividedFrom(s, Spans(s, a, i), a)
    ensures a < i ==> Begun(Spans(s, a, i), a)
    decreases |s| - i
  {
    hide DividedFrom;
    if i == |s| {
      LastSpan(s, a);
    } else if StartsWord(s, i) {
      SpansDivide(s, i, i + 1);
      if a < i {
        SpanBefore(s, a, i, i, Spans(s, i, i + 1));
        OneMore(Span(a, i), Spans(s, i, i + 1), a);
      } else {
        assert Pending(a, i) + Spans(s, i, i + 1) == Spans(s, i, i + 1);
      }
    } else if IsAlnum(s[i]) {
      SpansDivide(s, a, i + 1);
    } else {
      SpansDivide(s, i + 1, i + 1);
      if a < i {
        SpanBefore(s, a, i, i + 1, Spans(s, i + 1, i + 1));
        OneMore(Span(a, i), Spans(s, i + 1, i + 1), a);
      } else {
        SkipOne(s, a, Spans(s, a + 1, a + 1));
        assert Pending(a, i) + Spans(s, i + 1, i + 1) == Spans(s, i + 1, i + 1);
      }
    }
  }

  lemma LastSpan(s: string, a: nat)
    requires Collected(s, a, |s|)
    ensures DividedFrom(s, Pending(a, |s|), a) && (a < |s| ==> Begun(Pending(a, |s|), a))
  {
    if a < |s| {
      assert Pending(a, |s|)[0] == Span(a, |s|);
    }
  }

  lemma SkipOne(s: string, a: nat, rest: seq<Span>)
    requires a < |s| && !IsAlnum(s[a]) && DividedFrom(s, rest, a + 1)
    ensures DividedFrom(s, rest, a)
  {
    hide StartsWord;
  }

  lemma PendingWord(s: string, a: nat, i: nat, rest: seq<Span>)
    requires a <= i <= |s| && InText(s, rest) && InText(s, Pending(a, i) + rest)
    ensures WordsIn(s, Pending(a, i) + rest) == Flush(s[a..i]) + WordsIn(s, rest)
  {
  }

  lemma InOrder(s: string, a: nat, i: nat)
    requires Collected(s, a, i)
    ensures InText(s, Spans(s, a, i))
  {
    SpansDivide(s, a, i);
  }

  /** The words from `i` on, `s[a..i]` collected, are those of the spans. */
  predicate Agree(s: string, a: nat, i: nat)
    requires a <= i <= |s|
  {
    InText(s, Spans(s, a, i)) && Scan(s, i, s[a..i]) == WordsIn(s, Spans(s, a, i))
  }

  lemma AgreeAtEnd(s: string, a: nat)
    requires a <= |s| && InText(s, Spans(s, a, |s|))
    ensures Agree(s, a, |s|)
  {
    hide InText, WordsIn, Lower, Flush, Pending;
    NoneCut(s);
    assert Pending(a, |s|) + [] == Pending(a, |s|);
    PendingWord(s, a, |s|, []);
    assert Flush(s[a..|s|]) + [] == Flush(s[a..|s|]);
  }

  lemma AgreeAtWord(s: string, a: nat, i: nat)
    requires a <= i < |s| && StartsWord(s, i) && Agree(s, i, i + 1) && InText(s, Spans(s, a, i))
    ensures Agree(s, a, i)
  {
    hide InText, WordsIn, Lower, Flush, Pending, Breaks;
    assert s[i..i + 1] == [s[i]];
    PendingWord(s, a, i, Spans(s, i, i + 1));
  }

  lemma AgreeInWord(s: string, a: nat, i: nat)
    requires a <= i < |s| && !StartsWord(s, i) && IsAlnum(s[i]) && Agree(s, a, i + 1)
    ensures Agree(s, a, i)
  {
    hide InText, WordsIn, Breaks;
    assert s[a..i + 1] == s[a..i] + [s[i]];
  }

  lemma AgreeAtSeparator(s: string, a: nat, i: nat)
    requires a <= i < |s| && !IsAlnum(s[i]) && Agree(s, i + 1, i + 1) && InText(s, Spans(s, a, i))
    ensures Agree(s, a, i)
  {
    hide InText, WordsIn, Lower, Flush, Pending, Breaks;
    assert s[i + 1..i + 1] == "";
    PendingWord(s, a, i, Spans(s, i + 1, i + 1));
  }

  lemma {:induction false} ScanCuts(s: string, a: nat, i: nat)
    requires Collected(s, a, i)
    ensures Agree(s, a, i)
    decreases |s| - i
  {
    InOrder(s, a, i);
    hide Agree, InText, Spans, Breaks;
    if i == |s| {
      AgreeAtEnd(s, a);
    } else if StartsWord(s, i) {
      ScanCuts(s, i, i + 1);
      AgreeAtWord(s, a, i);
    } else if IsAlnum(s[i]) {
      ScanCuts(s, a, i + 1);
      AgreeInWord(s, a, i);
    } else {
      ScanCuts(s, i + 1, i + 1);
      AgreeAtSeparator(s, a, i);
    }
  }

  lemma NoneCut(s: string)
    ensures InText(s, []) && WordsIn(s, []) == []
  {
  }

  /** The words are the spans of a division of the text, in lower case. */
  lemma WordsStand(s: string) returns (spans: seq<Span>)
    ensures Divided(s, spans) && Words(s) == WordsIn(s, spans)
  {
    assert Collected(s, 0, 0);
    spans := Spans(s, 0, 0);
    SpansDivide(s, 0, 0);
    ScanCuts(s, 0, 0);
    assert s[0..0] == "";
    WholeDivided(s, spans);
    hide Divided, DividedFrom, InText, WordsIn, Spans, Scan;
  }

  lemma WholeDivided(s: string, spans: seq<Span>)
    requires DividedFrom(s, spans, 0)
    ensures Divided(s, spans)
  {
    hide InText;
  }

  function Together(ws: seq<string>): string {
    if ws == [] then "" else ws[0] + Together(ws[1..])
  }

  function Letters(s: string): string {
    if s == "" then ""
    else (if IsUpper(s[0]) || IsLower(s[0]) || IsDigit(s[0]) then Lower([s[0]]) else "") + Letters(s[1..])
  }

  /** What one character does: the word it ends, if any, and what is collected after it. */
  function Ended(s: string, i: nat, current: string): seq<string>
    requires i < |s|
  {
    if StartsWord(s, i) || !IsAlnum(s[i]) then Flush(current) else []
  }

  function Going(s: string, i: nat, current: string): string
    requires i < |s|
  {
    if StartsWord(s, i) then [s[i]] else if IsAlnum(s[i]) then current + [s[i]] else ""
  }

  lemma ScanMoves(s: string, i: nat, words: seq<string>, current: string)
    requires i < |s|
    ensures words + Scan(s, i, current) == (words + Ended(s, i, current)) + Scan(s, i + 1, Going(s, i, current))
  {
    hide Breaks, Flush;
    var next := Scan(s, i + 1, Going(s, i, current));
    assert [] + next == next;
    assert words + (Ended(s, i, current) + next) == (words + Ended(s, i, current)) + next;
  }

  lemma {:induction false} TogetherLetters(s: string, i: nat, current: string)
    requires i <= |s|
    ensures Together(Scan(s, i, current)) == Lower(current) + Letters(s[i..])
    decreases |s| - i
  {
    if i == |s| {
      FlushTogether(current, []);
      assert Flush(current) + [] == Flush(current);
    } else {
      TogetherLetters(s, i + 1, Going(s, i, current));
      ScanMoves(s, i, [], current);
      assert [] + Scan(s, i, current) == Scan(s, i, current) && [] + Ended(s, i, current) == Ended(s, i, current);
      hide *;
      LettersHere(s, i);
      LettersMove(s, i, current, Scan(s, i + 1, Going(s, i, current)), Letters(s[i + 1..]));
    }
  }

  lemma LettersMove(s: string, i: nat, current: string, rest: seq<string>, letters: string)
    requires i < |s| && Together(rest) == Lower(Going(s, i, current)) + letters
    ensures Together(Ended(s, i, current) + rest) == Lower(current) + ((if IsAlnum(s[i]) then Lower([s[i]]) else "") + letters)
  {
    LowerMore(current, s[i]);
    FlushTogether(current, rest);
    assert [] + rest == rest && Lower("") == "" && "" + letters == letters;
    hide Lower, Breaks, Flush, Together;
  }

  lemma LettersHere(s: string, i: nat)
    requires i < |s|
    ensures Letters(s[i..]) == (if IsAlnum(s[i]) then Lower([s[i]]) else "") + Letters(s[i + 1..])
  {
    assert s[i..][0] == s[i] && s[i..][1..] == s[i + 1..];
  }

  lemma LowerMore(current: string, c: char)
    ensures Lower(current + [c]) == Lower(current) + Lower([c])
  {
  }

  lemma FlushTogether(current: string, rest: seq<string>)
    ensures Together(Flush(current) + rest) == Lower(current) + Together(rest)
  {
    if current != "" {
      assert (Flush(current) + rest)[1..] == rest;
    } else {
      assert Flush(current) + rest == rest;
    }
  }

  lemma SplitsRight(s: string)
    ensures exists spans :: Divided(s, spans) && Words(s) == WordsIn(s, spans)
    ensures Together(Words(s)) == Letters(s)
  {
    var _ := WordsStand(s);
    TogetherLetters(s, 0, "");
    assert s[0..] == s;
  }

  method SplitWords(s: string) returns (words: seq<string>)
    ensures words == Words(s)
    ensures exists spans :: Divided(s, spans) && words == WordsIn(s, spans)
    ensures Together(words) == Letters(s)
  {
    hide Divided, WordsIn, InText, Letters, Lower;
    SplitsRight(s);
    words := [];
    var current := "";
    var i := 0;
    while i < |s|
      invariant 0 <= i <= |s| && Words(s) == words + Scan(s, i, current)
    {
      hide Scan;
      ScanMoves(s, i, words, current);
      ghost var next, going := words + Ended(s, i, current), Going(s, i, current);
      if IsUpper(s[i]) {
        if Breaks(s, i) && current != "" {
          words := words + [Lower(current)];
          current := "";
        }
        current := current + [s[i]];
      } else if IsLower(s[i]) || IsDigit(s[i]) {
        current := current + [s[i]];
      } else if current != "" {
        words := words + [Lower(current)];
        current := "";
      }
      assert words == next && current == going;
      i := i + 1;
    }
    if current != "" {
      words := words + [Lower(current)];
    }
  }

  // ----- the styles -----

  function JoinWords(ws: seq<string>, sep: char): string {
    if ws == [] then "" else if |ws| == 1 then ws[0] else ws[0] + [sep] + JoinWords(ws[1..], sep)
  }

  function Capitalised(ws: seq<string>): string {
    if ws == [] then "" else UpperFirst(ws[0]) + Capitalised(ws[1..])
  }

  function Snake(s: string): string { JoinWords(Words(s), '_') }

  function Kebab(s: string): string { JoinWords(Words(s), '-') }

  function Camel(s: string): string {
    var ws := Words(s);
    if ws == [] then "" else ws[0] + Capitalised(ws[1..])
  }

  function Pascal(s: string): string { Capitalised(Words(s)) }

  lemma CapitalisedFrom(ws: seq<string>, i: nat, r: string)
    requires i < |ws|
    ensures r + Capitalised(ws[i..]) == (r + UpperFirst(ws[i])) + Capitalised(ws[i + 1..])
  {
    hide UpperFirst;
    assert ws[i..][0] == ws[i] && ws[i..][1..] == ws[i + 1..];
  }

  method CamelCase(s: string) returns (r: string)
    ensures r == Camel(s)
  {
    hide UpperFirst, Words, Divided, WordsIn, InText, Letters, Together;
    var words := SplitWords(s);
    if |words| == 0 {
      return "";
    }
    r := words[0];
    var i := 1;
    while i < |words|
      invariant 1 <= i <= |words|
      invariant words[0] + Capitalised(words[1..]) == r + Capitalised(words[i..])
    {
      CapitalisedFrom(words, i, r);
      r := r + UpperFirst(words[i]);
      i := i + 1;
    }
  }

  // ----- splitting undoes joining -----

  /** A word as splitting makes them: lowercase letters and digits, at least one. */
  predicate IsWord(w: string) {
    w != "" && forall i :: 0 <= i < |w| ==> IsLower(w[i]) || IsDigit(w[i])
  }

  predicate AllWords(ws: seq<string>) {
    forall i :: 0 <= i < |ws| ==> IsWord(ws[i])
  }

  predicate Alnum(s: string) {
    forall i :: 0 <= i < |s| ==> IsAlnum(s[i])
  }

  lemma {:induction false} ScanMakesWords(s: string, i: nat, current: string)
    requires i <= |s| && Alnum(current)
    ensures AllWords(Scan(s, i, current))
    decreases |s| - i
  {
    if i < |s| {
      if IsUpper(s[i]) && Breaks(s, i) {
        ScanMakesWords(s, i + 1, [s[i]]);
      } else if IsAlnum(s[i]) {
        ScanMakesWords(s, i + 1, current + [s[i]]);
      } else {
        ScanMakesWords(s, i + 1, "");
      }
    }
  }

  lemma LowerOfLower(w: string)
    requires forall i :: 0 <= i < |w| ==> !IsUpper(w[i])
    ensures Lower(w) == w
  {
  }

  predicate NoSeams(s: string, i: nat, j: nat)
    requires i <= j <= |s|
  {
    forall m :: i <= m < j ==> IsLower(s[m]) || IsDigit(s[m])
  }

  /** Characters that are no capitals and no separators just extend the word. */
  lemma {:induction false} ScanPlain(s: string, i: nat, j: nat, current: string)
    requires i <= j <= |s| && NoSeams(s, i, j)
    ensures Scan(s, i, current) == Scan(s, j, current + s[i..j])
    decreases j - i
  {
    if i < j {
      ScanPlain(s, i + 1, j, current + [s[i]]);
      assert current + [s[i]] + s[i + 1..j] == current + s[i..j];
    } else {
      assert current + s[i..j] == current;
    }
  }

  /** A word standing at position `i`, read with nothing collected yet. */
  lemma {:induction false} ScanWord(s: string, i: nat, w: string)
    requires IsWord(w) && i + |w| <= |s| && s[i..i + |w|] == w
    ensures Scan(s, i, "") == Scan(s, i + |w|, w)
  {
    hide Scan;
    PlainWord(s, i, w);
    ScanPlain(s, i, i + |w|, "");
    assert "" + w == w;
  }

  lemma PlainWord(s: string, i: nat, w: string)
    requires IsWord(w) && i + |w| <= |s| && s[i..i + |w|] == w
    ensures NoSeams(s, i, i + |w|)
  {
    assert forall m :: i <= m < i + |w| ==> s[m] == s[i..i + |w|][m - i];
  }

  lemma ScanSeparator(s: string, i: nat, w: string)
    requires i <= |s| && IsWord(w) && (i == |s| || !IsAlnum(s[i]))
    ensures Scan(s, i, w) == [w] + if i == |s| then [] else Scan(s, i + 1, "")
  {
    LowerOfLower(w);
  }

  lemma {:induction false} ScanJoined(pre: string, ws: seq<string>, sep: char)
    requires AllWords(ws) && !IsAlnum(sep)
    ensures Scan(pre + JoinWords(ws, sep), |pre|, "") == ws
    decreases ws
  {
    var s := pre + JoinWords(ws, sep);
    if ws == [] {
      assert s == pre;
    } else {
      hide Scan;
      var w, j := ws[0], |pre| + |ws[0]|;
      if |ws| > 1 {
        assert s == pre + w + ([sep] + JoinWords(ws[1..], sep));
        assert s == (pre + w + [sep]) + JoinWords(ws[1..], sep);
        ScanJoined(pre + w + [sep], ws[1..], sep);
        assert s[j] == sep;
      } else {
        assert s == pre + w;
      }
      assert s[|pre|..j] == w;
      ScanWord(s, |pre|, w);
      ScanSeparator(s, j, w);
      assert ws == [w] + ws[1..];
    }
  }

  /** Joining words by a separator and splitting again gives the words. */
  lemma {:induction false} SplitsJoined(ws: seq<string>, sep: char)
    requires AllWords(ws) && !IsAlnum(sep)
    ensures Words(JoinWords(ws, sep)) == ws
  {
    ScanJoined("", ws, sep);
    assert "" + JoinWords(ws, sep) == JoinWords(ws, sep);
  }

  /** Two styles that separate their words can be applied to each other's output: every
      style sees the words of the original, and repeating one changes nothing. */
  lemma {:induction false} StylesAgree(s: string)
    ensures Words(Snake(s)) == Words(s) && Words(Kebab(s)) == Words(s)
    ensures Snake(Snake(s)) == Snake(s) && Kebab(Kebab(s)) == Kebab(s)
    ensures Snake(Kebab(s)) == Snake(s) && Kebab(Snake(s)) == Kebab(s)
    ensures Camel(Snake(s)) == Camel(s) && Pascal(Snake(s)) == Pascal(s)
  {
    ScanMakesWords(s, 0, "");
    SplitsJoined(Words(s), '_');
    SplitsJoined(Words(s), '-');
  }

  // ----- what every style keeps -----

  lemma {:induction false} LettersSplit(a: string, b: string)
    ensures Letters(a + b) == Letters(a) + Letters(b)
    decreases a
  {
    if a == "" {
      assert a + b == b;
    } else {
      assert (a + b)[1..] == a[1..] + b;
      LettersSplit(a[1..], b);
    }
  }

  lemma {:induction false} LettersOfWord(w: string)
    requires IsWord(w) || w == ""
    ensures Letters(w) == w && Letters(UpperFirst(w)) == w
    decreases w
  {
    if w != "" {
      LettersOfWord(w[1..]);
      assert w == [w[0]] + w[1..] && UpperFirst(w)[1..] == w[1..];
    }
  }

  lemma {:induction false} LettersJoined(ws: seq<string>, sep: char)
    requires AllWords(ws) && !IsAlnum(sep)
    ensures Letters(JoinWords(ws, sep)) == Together(ws)
    decreases ws
  {
    if ws != [] {
      LettersOfWord(ws[0]);
      var rest := JoinWords(ws[1..], sep);
      hide Letters;
      if |ws| > 1 {
        LettersJoined(ws[1..], sep);
        LettersSplit(ws[0] + [sep], rest);
        LettersSplit(ws[0], [sep]);
        LettersOfSeparator(sep);
      } else {
        assert ws[1..] == [] && ws[0] + "" == ws[0];
      }
    }
  }

  lemma LettersOfSeparator(sep: char)
    requires !IsAlnum(sep)
    ensures Letters([sep]) == ""
  {
  }

  lemma {:induction false} LettersCapitalised(ws: seq<string>)
    requires AllWords(ws)
    ensures Letters(Capitalised(ws)) == Together(ws)
    decreases ws
  {
    if ws != [] {
      LettersCapitalised(ws[1..]);
      LettersOfWord(ws[0]);
      LettersSplit(UpperFirst(ws[0]), Capitalised(ws[1..]));
      hide Letters, UpperFirst;
    }
  }

  lemma CapitalFirst(w: string, rest: string)
    requires w != ""
    ensures UpperFirst(w + rest) == UpperFirst(w) + rest
  {
  }

  /** Every style keeps the letters and digits of the text in order, and changes nothing but
      separators and case; Pascal case is camel case with a capital in front. */
  lemma {:induction false} StylesKeepLetters(s: string)
    ensures Letters(Snake(s)) == Letters(s) && Letters(Kebab(s)) == Letters(s)
    ensures Letters(Camel(s)) == Letters(s) && Letters(Pascal(s)) == Letters(s)
    ensures Pascal(s) == UpperFirst(Camel(s))
  {
    var ws := Words(s);
    SplitsRight(s);
    ScanMakesWords(s, 0, "");
    hide Words, Letters, Divided, InText, WordsIn, JoinWords;
    LettersJoined(ws, '_');
    LettersJoined(ws, '-');
    LettersCapitalised(ws);
    if ws != [] {
      LettersOfWord(ws[0]);
      LettersCapitalised(ws[1..]);
      LettersSplit(ws[0], Capitalised(ws[1..]));
      CapitalFirst(ws[0], Capitalised(ws[1..]));
      hide UpperFirst;
    }
  }

  // ----- through camel case and back -----

  /** The seam between two words is still visible once they are capitalised and run
      together.  `first` says that the left word is the one that stays in lower case. */
  predicate Seam(first: bool, left: string, right: string)
    requires IsWord(left) && IsWord(right)
  {
    IsLower(right[0]) && (first || |left| >= 2 || IsDigit(left[0]) || (|right| >= 2 && IsLower(right[1])))
  }

  /** Every seam is visible. */
  predicate Seams(ws: seq<string>)
    requires AllWords(ws)
  {
    forall i :: 1 <= i < |ws| ==> Seam(i == 1, ws[i - 1], ws[i])
  }

  /** Words run together with the seams that cannot be seen closed up; `last` is the last
      of the original words that `current` is made of. */
  function Merge(current: string, first: bool, last: string, ws: seq<string>): seq<string>
    requires IsWord(last) && AllWords(ws)
    decreases ws
  {
    if ws == [] then [current]
    else if Seam(first, last, ws[0]) then [current] + Merge(ws[0], false, ws[0], ws[1..])
    else Merge(current + ws[0], false, ws[0], ws[1..])
  }

  lemma {:induction false} MergeCount(current: string, first: bool, last: string, ws: seq<string>)
    requires IsWord(last) && AllWords(ws)
    ensures |Merge(current, first, last, ws)| <= 1 + |ws|
    ensures |Merge(current, first, last, ws)| == 1 + |ws| ==>
      (ws != [] ==> Seam(first, last, ws[0])) && forall i :: 1 <= i < |ws| ==> Seam(false, ws[i - 1], ws[i])
    decreases ws
  {
    if ws != [] {
      MergeCount(if Seam(first, last, ws[0]) then ws[0] else current + ws[0], false, ws[0], ws[1..]);
      if |Merge(current, first, last, ws)| == 1 + |ws| {
        forall i | 1 <= i < |ws| ensures Seam(false, ws[i - 1], ws[i]) {
          if i > 1 {
            assert ws[1..][i - 2] == ws[i - 1] && ws[1..][i - 1] == ws[i];
          }
        }
      }
    }
  }

  lemma {:induction false} MergeAll(first: bool, last: string, ws: seq<string>)
    requires IsWord(last) && AllWords(ws)
    requires (ws != [] ==> Seam(first, last, ws[0])) && forall i :: 1 <= i < |ws| ==> Seam(false, ws[i - 1], ws[i])
    ensures Merge(last, first, last, ws) == [last] + ws
    decreases ws
  {
    if ws != [] {
      forall i | 1 <= i < |ws[1..]| ensures Seam(false, ws[1..][i - 1], ws[1..][i]) {
        assert ws[1..][i - 1] == ws[i] && ws[1..][i] == ws[i + 1];
      }
      assert |ws| > 1 ==> Seam(false, ws[0], ws[1]);
      MergeAll(false, ws[0], ws[1..]);
    }
  }

  lemma Tail(s: string, n: nat, a: string, b: string)
    requires n <= |s| && s[n..] == a + b
    ensures n + |a| <= |s| && s[n..n + |a|] == a && s[n + |a|..] == b
  {
    assert s[n..][..|a|] == a && s[n..][|a|..] == b;
  }

  predicate Between(s: string, a: nat, b: nat, t: string) {
    a <= b <= |s| && s[a..b] == t
  }

  predicate Follows(s: string, n: nat, ws: seq<string>) {
    n <= |s| && s[n..] == Capitalised(ws)
  }

  /** The character before `n` is the last one of `last`, which is capitalised unless it came
      first. */
  predicate After(s: string, n: nat, first: bool, last: string) {
    0 < n <= |s| && last != "" && s[n - 1] == if first || |last| >= 2 then last[|last| - 1] else ToUpper(last[0])
  }

  /** Where the first of some capitalised words stands. */
  lemma CapitalisedAt(s: string, n: nat, ws: seq<string>)
    requires AllWords(ws) && ws != [] && Follows(s, n, ws)
    ensures var w := ws[0];
      && n + |w| <= |s| && Follows(s, n + |w|, ws[1..]) && s[n] == ToUpper(w[0])
      && Between(s, n + 1, n + |w|, w[1..]) && After(s, n + |w|, false, w)
      && NoSeams(s, n + 1, n + |w|)
  {
    var w, up := ws[0], UpperFirst(ws[0]);
    Tail(s, n, up, Capitalised(ws[1..]));
    WordAt(s, n, w);
  }

  lemma WordAt(s: string, n: nat, w: string)
    requires IsWord(w) && Between(s, n, n + |w|, UpperFirst(w))
    ensures s[n] == ToUpper(w[0]) && Between(s, n + 1, n + |w|, w[1..]) && After(s, n + |w|, false, w)
    ensures NoSeams(s, n + 1, n + |w|)
  {
    assert s[n] == s[n..n + |w|][0];
    assert s[n + 1..n + |w|] == s[n..n + |w|][1..];
    forall m | n + 1 <= m < n + |w| ensures s[m] == w[m - n] {
      assert s[m] == s[n..n + |w|][m - n];
    }
  }

  /** Splitting a run of capitalised words merges exactly across the invisible seams. */
  lemma {:induction false} ScanCapitalised(s: string, n: nat, current: string, first: bool, last: string, ws: seq<string>)
    requires IsWord(last) && AllWords(ws) && current != "" && Alnum(current)
    requires Follows(s, n, ws) && After(s, n, first, last)
    ensures Scan(s, n, current) == Merge(Lower(current), first, last, ws)
    decreases ws
  {
    hide *;
    if ws == [] {
      ScanNothing(s, n, current, first, last, ws);
    } else {
      WordsHead(ws);
      var next := ScanOneWord(s, n, current, first, last, ws);
      CapitalisedAt(s, n, ws);
      ScanCapitalised(s, n + |ws[0]|, next, false, ws[0], ws[1..]);
      MergeStep(Lower(current), first, last, ws);
    }
  }

  lemma ScanNothing(s: string, n: nat, current: string, first: bool, last: string, ws: seq<string>)
    requires IsWord(last) && AllWords(ws) && ws == [] && current != "" && Follows(s, n, ws)
    ensures Scan(s, n, current) == Merge(Lower(current), first, last, ws)
  {
    assert n == |s|;
  }

  lemma WordsHead(ws: seq<string>)
    requires AllWords(ws) && ws != []
    ensures IsWord(ws[0]) && ws[0] != "" && AllWords(ws[1..])
  {
  }

  /** The splitter starts a word at a capital exactly when the seam is visible. */
  lemma SeamSeen(s: string, n: nat, current: string, first: bool, last: string, ws: seq<string>)
    requires IsWord(last) && AllWords(ws) && ws != [] && current != ""
    requires Follows(s, n, ws) && After(s, n, first, last)
    ensures n < |s| && Scan(s, n, current) ==
      if Seam(first, last, ws[0]) then [Lower(current)] + Scan(s, n + 1, [s[n]]) else Scan(s, n + 1, current + [s[n]])
  {
    CapitalisedAt(s, n, ws);
    SecondChar(s, n, ws[0], ws);
    hide Capitalised, Scan;
    ScanFirst(s, n, current, Seam(first, last, ws[0]));
  }

  lemma RestOfWord(s: string, n: nat, start: string, ws: seq<string>)
    requires AllWords(ws) && ws != [] && Follows(s, n, ws)
    ensures n + |ws[0]| <= |s| && s[n] == ToUpper(ws[0][0])
    ensures Scan(s, n + 1, start) == Scan(s, n + |ws[0]|, start + ws[0][1..])
  {
    assert ws[0] != "";
    hide *;
    CapitalisedAt(s, n, ws);
    ScanBetween(s, n + 1, n + |ws[0]|, start, ws[0][1..]);
  }

  lemma ScanBetween(s: string, a: nat, b: nat, start: string, t: string)
    requires Between(s, a, b, t) && NoSeams(s, a, b)
    ensures Scan(s, a, start) == Scan(s, b, start + t)
  {
    ScanPlain(s, a, b, start);
  }

  /** One capitalised word is read: after a visible seam it starts afresh. */
  lemma {:induction false} ScanOneWord(s: string, n: nat, current: string, first: bool, last: string, ws: seq<string>)
    returns (next: string)
    requires IsWord(last) && AllWords(ws) && ws != [] && current != "" && Alnum(current)
    requires Follows(s, n, ws) && After(s, n, first, last)
    ensures n + |ws[0]| <= |s| && next != "" && Alnum(next)
    ensures var rest := Scan(s, n + |ws[0]|, next);
      Scan(s, n, current) == if Seam(first, last, ws[0]) then [Lower(current)] + rest else rest
    ensures Lower(next) == if Seam(first, last, ws[0]) then ws[0] else Lower(current) + ws[0]
  {
    assert IsWord(ws[0]) && ws[0] != "";
    hide *;
    SeamSeen(s, n, current, first, last, ws);
    var start := if Seam(first, last, ws[0]) then [s[n]] else current + [s[n]];
    RestOfWord(s, n, start, ws);
    next := start + ws[0][1..];
    LowerOfUp(ws[0], start, next, current, Seam(first, last, ws[0]));
  }

  lemma MergeStep(current: string, first: bool, last: string, ws: seq<string>)
    requires IsWord(last) && AllWords(ws) && ws != []
    ensures Merge(current, first, last, ws) ==
      if Seam(first, last, ws[0]) then [current] + Merge(ws[0], false, ws[0], ws[1..])
      else Merge(current + ws[0], false, ws[0], ws[1..])
  {
  }

  lemma ScanFirst(s: string, n: nat, current: string, seam: bool)
    requires n < |s| && IsAlnum(s[n]) && current != ""
    requires seam <==> IsUpper(s[n]) && Breaks(s, n)
    ensures Scan(s, n, current) ==
      if seam then [Lower(current)] + Scan(s, n + 1, [s[n]]) else Scan(s, n + 1, current + [s[n]])
  {
  }

  /** After a one-letter word the next character is a capital, a digit, or nothing. */
  lemma SecondChar(s: string, n: nat, w: string, ws: seq<string>)
    requires AllWords(ws) && ws != [] && w == ws[0] && Follows(s, n, ws)
    ensures n + 1 < |s| && IsLower(s[n + 1]) <==> |w| >= 2 && IsLower(w[1])
  {
    assert s[n..] == Capitalised(ws);
    assert forall m :: 0 <= m < |s| - n ==> s[n + m] == Capitalised(ws)[m];
    if |w| == 1 && |ws| > 1 {
      assert Capitalised(ws)[1] == ToUpper(ws[1][0]);
    }
  }

  lemma LowerOfUp(w: string, start: string, next: string, current: string, seam: bool)
    requires IsWord(w) && next == start + w[1..] && Alnum(current)
    ensures Alnum(next) && next != ""
    requires start == if seam then [ToUpper(w[0])] else current + [ToUpper(w[0])]
    ensures Lower(next) == if seam then w else Lower(current) + w
  {
  }

  lemma {:induction false} WordsOfCamel(ws: seq<string>)
    requires AllWords(ws) && ws != []
    ensures Words(Camel(JoinWords(ws, '_'))) == Merge(ws[0], true, ws[0], ws[1..])
  {
    SplitsJoined(ws, '_');
    var w, rest := ws[0], ws[1..];
    var s := w + Capitalised(rest);
    assert Camel(JoinWords(ws, '_')) == s;
    assert s[0..0 + |w|] == w && Follows(s, |w|, rest) && After(s, |w|, true, w);
    ScanWord(s, 0, w);
    LowerOfLower(w);
    ScanCapitalised(s, |w|, w, true, w, rest);
  }

  /** Seams seen from the whole list and from its first word. */
  lemma SeamsOf(ws: seq<string>)
    requires AllWords(ws) && ws != []
    ensures Seams(ws) <==> var rest := ws[1..];
      (rest != [] ==> Seam(true, ws[0], rest[0])) && forall i :: 1 <= i < |rest| ==> Seam(false, rest[i - 1], rest[i])
  {
    var rest := ws[1..];
    if Seams(ws) {
      assert rest != [] ==> Seam(true, ws[0], ws[1]);
      forall i | 1 <= i < |rest| ensures Seam(false, rest[i - 1], rest[i]) {
        assert Seam(i + 1 == 1, ws[i + 1 - 1], ws[i + 1]);
      }
    }
    if (rest != [] ==> Seam(true, ws[0], rest[0])) && forall i :: 1 <= i < |rest| ==> Seam(false, rest[i - 1], rest[i]) {
      forall i | 1 <= i < |ws| ensures Seam(i == 1, ws[i - 1], ws[i]) {
        if i > 1 {
          assert Seam(false, rest[i - 1 - 1], rest[i - 1]);
        }
      }
    }
  }

  /** Snake case survives camel case for exactly the word lists whose seams stay visible. */
  lemma {:induction false} SnakeSurvivesCamelIff(ws: seq<string>)
    requires AllWords(ws)
    ensures Snake(Camel(JoinWords(ws, '_'))) == JoinWords(ws, '_') <==> Seams(ws)
  {
    SplitsJoined(ws, '_');
    if ws != [] {
      var s := Camel(JoinWords(ws, '_'));
      var w, rest := ws[0], ws[1..];
      WordsOfCamel(ws);
      SeamsOf(ws);
      ScanMakesWords(s, 0, "");
      SplitsJoined(Words(s), '_');
      assert ws == [w] + rest;
      if Seams(ws) {
        MergeAll(true, w, rest);
      }
      MergeCount(w, true, w, rest);
      hide Words, Camel, Merge, JoinWords, Seam;
    }
  }

  /** In particular for words that start with a letter and have two characters or more. */
  lemma SnakeSurvivesCamel(ws: seq<string>)
    requires AllWords(ws) && forall i :: 0 <= i < |ws| ==> |ws[i]| >= 2 && IsLower(ws[i][0])
    ensures Snake(Camel(JoinWords(ws, '_'))) == JoinWords(ws, '_')
  {
    SnakeSurvivesCamelIff(ws);
  }
}
