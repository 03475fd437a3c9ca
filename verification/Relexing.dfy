/** Lexing undoes writing: operators, words, numbers and string literals as the pretty printer emits
    them, with single spaces between. kclvm/ast_pretty/src/node.rs:732-759, kclvm/lexer/src. */
module Relexing {
  import opened LexerSpec
  import opened Numbers
  import opened StringGrammar
  import opened Wrappers
  import PrettyAst
  import PrintSpec
  import TypePrinter

  // ----- string literals -----

  /** `value.replace('"', "\\\"")` from index `i` on. */
  function EscapedFrom(v: string, i: nat): string
    decreases |v| - i
  {
    if i >= |v| then "" else (if v[i] == '"' then ['\\', '"'] else [v[i]]) + EscapedFrom(v, i + 1)
  }

  function Delimiter(long: bool): string { if long then ['"', '"', '"'] else ['"'] }

  /** What the printer writes for a literal without raw text. */
  function Quoted(v: string, long: bool): string
  {
    PrintSpec.StringText(PrettyAst.StringValue(long, "", v))
  }

  lemma QuotedIsEscaped(v: string, long: bool)
    ensures Quoted(v, long) == Delimiter(long) + EscapedFrom(v, 0) + Delimiter(long)
  {
    EscapedFromStart(v, 0);
    assert v[..|v|] == v;
  }

  lemma {:induction false} EscapedFromStart(v: string, i: nat)
    requires i <= |v|
    ensures TypePrinter.Escape(v) == TypePrinter.Escape(v[..i]) + EscapedFrom(v, i)
    decreases |v| - i
  {
    if i == |v| {
      assert v[..i] == v;
    } else {
      EscapedFromStart(v, i + 1);
      EscapeStep(v, i);
      hide TypePrinter.Escape;
      var one := if v[i] == '"' then ['\\', '"'] else [v[i]];
      assert (TypePrinter.Escape(v[..i]) + one) + EscapedFrom(v, i + 1)
        == TypePrinter.Escape(v[..i]) + (one + EscapedFrom(v, i + 1));
    }
  }

  lemma EscapeStep(v: string, i: nat)
    requires i < |v|
    ensures TypePrinter.Escape(v[..i + 1]) == TypePrinter.Escape(v[..i]) + if v[i] == '"' then ['\\', '"'] else [v[i]]
  {
    assert v[..i + 1][..i] == v[..i];
  }

  /** The printer escapes quotes but not backslashes, so a value reads back only when its own
      backslashes come in pairs where a quote follows; a short literal also has no line break, except
      at its start, after a quote or after a pair of backslashes. */
  ghost predicate ReadableFrom(v: string, i: nat, long: bool)
  {
    && !Escaped(v, i, |v|)
    && if long then i < |v| && v[|v| - 1] == '"' ==> !Escaped(v, i, |v| - 1)
       else
         && (forall k | i <= k < |v| && v[k] == '"' :: !Escaped(v, i, k))
         && (forall k | i < k < |v| && LineBreak(v[k]) :: v[k - 1] == '"' || (v[k - 1] == '\\' && Escaped(v, i, k - 1)))
  }

  /** The characters of the value from `i` to `j` are written as whole units of the literal. */
  predicate Step(v: string, i: nat, j: nat, long: bool)
  {
    && i < j <= |v|
    && if v[i] == '"' then j == i + 1
       else if v[i] == '\\' && i + 1 < |v| && v[i + 1] == '\\' then j == i + 2
       else if v[i] == '\\' && i + 1 < |v| && v[i + 1] == '"' then long && j == i + 2 && j < |v|
       else j == i + 1 && (v[i] == '\\' ==> j < |v|) && (!long && j < |v| ==> !LineBreak(v[j]))
  }

  lemma StepParity(v: string, i: nat, j: nat, long: bool)
    requires Step(v, i, j, long)
    ensures !Escaped(v, i, j) || (j < |v| && v[j] != '\\' && v[j] != '"')
  {
    assert Run(v, i, i) == 0;
    assert Run(v, i, i + 1) == if v[i] == '\\' then 1 else 0;
  }

  lemma StepKeepsReadable(v: string, i: nat, j: nat, long: bool)
    requires Step(v, i, j, long)
    ensures ReadableFrom(v, i, long) <==> ReadableFrom(v, j, long)
  {
    StepParity(v, i, j, long);
    forall k | j <= k <= |v| && (!Escaped(v, i, j) || j < k)
      ensures Escaped(v, i, k) == Escaped(v, j, k)
    {
      SameEscapes(v, i, j, k);
    }
    assert Run(v, i, i) == 0;
    assert Run(v, i, i + 1) == if v[i] == '\\' then 1 else 0;
  }

  /** A value is unreadable at a trailing backslash, at a break after a plain character, and at a quote
      after an odd backslash. */
  lemma Unreadable(v: string, i: nat, long: bool)
    requires i < |v| && v[i] != '"'
    requires
      || (v[i] == '\\' && i + 1 == |v|)
      || (!long && i + 1 < |v| && LineBreak(v[i + 1]))
      || (v[i] == '\\' && i + 1 < |v| && v[i + 1] == '"' && (long ==> i + 2 == |v|))
    ensures !ReadableFrom(v, i, long)
  {
    assert Run(v, i, i) == 0 && (v[i] == '\\' ==> Run(v, i, i + 1) == 1);
  }

  /** What is written at `p` for the value from `i` on. */
  predicate Rest(s: string, p: nat, v: string, i: nat, long: bool, tail: string)
  {
    i <= |v| && p <= |s| && s[p..] == EscapedFrom(v, i) + Delimiter(long) + tail
  }

  lemma RestStep(s: string, p: nat, v: string, i: nat, long: bool, tail: string)
    requires Rest(s, p, v, i, long, tail) && i < |v|
    ensures var w := if v[i] == '"' then 2 else 1;
      && p + w <= |s| && Rest(s, p + w, v, i + 1, long, tail)
      && s[p..p + w] == (if v[i] == '"' then ['\\', '"'] else [v[i]])
  {
    EscapedStep(v, i);
    RestAfter(s, p, v, i, long, tail, if v[i] == '"' then ['\\', '"'] else [v[i]]);
    hide *;
  }

  lemma RestAfter(s: string, p: nat, v: string, i: nat, long: bool, tail: string, piece: string)
    requires Rest(s, p, v, i, long, tail) && i < |v| && EscapedFrom(v, i) == piece + EscapedFrom(v, i + 1)
    ensures p + |piece| <= |s| && Rest(s, p + |piece|, v, i + 1, long, tail) && s[p..p + |piece|] == piece
  {
    hide EscapedFrom, Delimiter;
    Regroup(piece, EscapedFrom(v, i + 1), Delimiter(long), tail);
    CutFront(s, p, piece, EscapedFrom(v, i + 1) + Delimiter(long) + tail);
  }

  lemma EscapedStep(v: string, i: nat)
    requires i < |v|
    ensures EscapedFrom(v, i) == (if v[i] == '"' then ['\\', '"'] else [v[i]]) + EscapedFrom(v, i + 1)
  {
  }

  lemma Regroup(a: string, b: string, c: string, d: string)
    ensures a + b + c + d == a + (b + c + d)
  {
  }

  lemma CutFront(s: string, p: nat, piece: string, rest: string)
    requires p <= |s| && s[p..] == piece + rest
    ensures p + |piece| <= |s| && s[p..p + |piece|] == piece && s[p + |piece|..] == rest
  {
    assert |s| == p + |piece| + |rest|;
    assert s[p..p + |piece|] == s[p..][..|piece|];
    assert s[p + |piece|..] == s[p..][|piece|..];
  }

  /** The first character written for the value from `i` on, or the closing quote. */
  lemma RestNext(s: string, p: nat, v: string, i: nat, long: bool, tail: string)
    requires Rest(s, p, v, i, long, tail)
    ensures CharAt(s, p) == if i == |v| then '"' else if v[i] == '"' then '\\' else v[i]
  {
    assert s[p] == s[p..][0];
  }

  lemma {:induction false} ScanOfEscaped(s: string, p: nat, v: string, i: nat, long: bool, tail: string)
    requires Rest(s, p, v, i, long, tail)
    ensures StringScan(s, '"', long, p) == (true, |s| - |tail|) <==> ReadableFrom(v, i, long)
    decreases |v| - i, 2
  {
    if i == |v| {
      ScanOfDelimiter(s, p, long, tail);
    } else {
      hide ReadableFrom, Rest;
      RestStep(s, p, v, i, long, tail);
      if v[i] == '"' {
        assert s[p] == s[p..p + 2][0] && s[p + 1] == s[p..p + 2][1];
        StepKeepsReadable(v, i, i + 1, long);
        ScanOfEscaped(s, p + 2, v, i + 1, long, tail);
      } else {
        assert s[p] == s[p..p + 1][0];
        RestNext(s, p + 1, v, i + 1, long, tail);
        if v[i] == '\\' {
          ScanOfBackslash(s, p, v, i, long, tail);
        } else if Step(v, i, i + 1, long) {
          StepKeepsReadable(v, i, i + 1, long);
          ScanOfEscaped(s, p + 1, v, i + 1, long, tail);
        } else {
          Unreadable(v, i, long);
        }
      }
    }
  }

  lemma {:induction false} ScanOfBackslash(s: string, p: nat, v: string, i: nat, long: bool, tail: string)
    requires i < |v| && p < |s| && v[i] == s[p] == '\\' && Rest(s, p + 1, v, i + 1, long, tail)
    requires CharAt(s, p + 1) == if i + 1 == |v| then '"' else if v[i + 1] == '"' then '\\' else v[i + 1]
    ensures StringScan(s, '"', long, p) == (true, |s| - |tail|) <==> ReadableFrom(v, i, long)
    decreases |v| - i, 1
  {
    hide ReadableFrom, Rest;
    if i + 1 == |v| {
      Unreadable(v, i, long);
      ScanOfEscapedDelimiter(s, p, v, long, tail);
    } else {
      RestStep(s, p + 1, v, i + 1, long, tail);
      if v[i + 1] == '\\' {
        StepKeepsReadable(v, i, i + 2, long);
        ScanOfEscaped(s, p + 2, v, i + 2, long, tail);
      } else if v[i + 1] == '"' {
        assert s[p + 2] == s[p + 1..p + 3][1];
        ScanOfQuoteAfterBackslash(s, p, v, i, long, tail);
      } else if Step(v, i, i + 1, long) {
        StepKeepsReadable(v, i, i + 1, long);
        ScanOfEscaped(s, p + 1, v, i + 1, long, tail);
      } else {
        Unreadable(v, i, long);
      }
    }
  }

  /** After an odd backslash the printed escape no longer protects the quote, which then closes the
      literal unless more of a long one follows. */
  lemma {:induction false} ScanOfQuoteAfterBackslash(s: string, p: nat, v: string, i: nat, long: bool, tail: string)
    requires i + 1 < |v| && v[i] == '\\' && v[i + 1] == '"'
    requires p + 2 < |s| && s[p] == s[p + 1] == '\\' && s[p + 2] == '"' && Rest(s, p + 3, v, i + 2, long, tail)
    ensures StringScan(s, '"', long, p) == (true, |s| - |tail|) <==> ReadableFrom(v, i, long)
    decreases |v| - i, 0
  {
    hide ReadableFrom, Rest;
    RestNext(s, p + 3, v, i + 2, long, tail);
    RestLength(s, p + 3, v, i + 2, long, tail);
    assert StringScan(s, '"', long, p) == StringScan(s, '"', long, p + 2);
    if long && i + 2 < |v| {
      StepKeepsReadable(v, i, i + 2, long);
      ScanOfEscaped(s, p + 3, v, i + 2, long, tail);
    } else {
      Unreadable(v, i, long);
    }
  }

  lemma RestLength(s: string, p: nat, v: string, i: nat, long: bool, tail: string)
    requires Rest(s, p, v, i, long, tail)
    ensures |s| - |tail| >= p + |Delimiter(long)|
    ensures long && i == |v| ==> |s| - |tail| == p + 3 && CharAt(s, p + 1) == '"'
  {
    assert |s[p..]| == |s| - p;
    if long && i == |v| { assert s[p + 1] == s[p..][1]; }
  }

  /** A backslash at the end of the value escapes the closing quote. */
  lemma ScanOfEscapedDelimiter(s: string, p: nat, v: string, long: bool, tail: string)
    requires p < |s| && s[p] == '\\' && Rest(s, p + 1, v, |v|, long, tail)
    ensures StringScan(s, '"', long, p) != (true, |s| - |tail|)
  {
    assert s[p + 1] == s[p + 1..][0] == '"';
    if long {
      assert s[p + 2] == s[p + 1..][1] == '"' && s[p + 3] == s[p + 1..][2] == '"';
      assert StringScan(s, '"', long, p) == StringScan(s, '"', long, p + 2);
    }
  }

  lemma ScanOfDelimiter(s: string, p: nat, long: bool, tail: string)
    requires p <= |s| && s[p..] == Delimiter(long) + tail
    ensures StringScan(s, '"', long, p) == (true, |s| - |tail|)
  {
    assert s[p..][0] == '"';
    if long { assert s[p..][1] == '"' && s[p..][2] == '"'; }
  }

  /** What follows a written piece: nothing, or a space. */
  predicate Ends(tail: string) { tail == "" || tail[0] == ' ' }

  /** Characters that no word, number, or string goes on with. */
  predicate Closes(c: char)
  {
    || c == ' ' || c == '\n' || c == '#' || c == '(' || c == ')' || c == '[' || c == ']' || c == '{' || c == '}'
    || c == ',' || c == '?' || c == '=' || c == ':'
  }

  /** What may follow a word, number or string without changing it: nothing, a character that closes it, or a
      dot before a name. */
  predicate Boundary(cc: CharClass, tail: string)
  {
    tail == "" || Closes(tail[0]) || (tail[0] == '.' && |tail| > 1 && cc.idStart(tail[1]))
  }

  /** A written string literal is read back as one closed token exactly when its value is readable. */
  lemma QuotedLexesBack(cc: CharClass, v: string, long: bool, tail: string)
    requires Boundary(cc, tail) || v != ""
    ensures var text := Quoted(v, long);
      TokenSpec(cc, text + tail) == (Literal(Str(true, long), Bytes(text)), |text|) <==> ReadableFrom(v, 0, long)
  {
    hide Bytes, StringScan, ReadableFrom, TokenSpec, Quoted;
    QuotedIsEscaped(v, long);
    var text := Quoted(v, long);
    var s := text + tail;
    var p := if long then 3 else 1;
    assert s[p..] == EscapedFrom(v, 0) + Delimiter(long) + tail;
    RestNext(s, p, v, 0, long, tail);
    ScanOfEscaped(s, p, v, 0, long, tail);
    assert s[..|text|] == text;
    assert Triple(s, 1) == long by {
      if long { assert s[1] == '"' && s[2] == '"'; }
      else if v == "" { assert s[2..] == tail; }
    }
    TokenOfQuoted(cc, s);
  }

  lemma TokenOfQuoted(cc: CharClass, s: string)
    requires s != "" && s[0] == '"'
    ensures var (kind, n) := StringSpec(s, 1); TokenSpec(cc, s) == (Literal(kind, Bytes(s[..n])), n)
  {
    hide StringSpec, Bytes;
  }

  /** Without backslashes and line breaks there is nothing to worry about. */
  lemma PlainTextIsReadable(v: string, long: bool)
    requires forall k | 0 <= k < |v| :: v[k] != '\\' && (LineBreak(v[k]) ==> long)
    ensures ReadableFrom(v, 0, long)
  {
  }

  /** A quote after a lone backslash closes a short literal: the printer escapes the quote, and the backslash of
      the value takes that escape. When all is well before that backslash, the token that comes out is the
      literal of another value, which ends there in a pair of backslashes; the rest is left outside. */
  lemma BackslashQuoteEndsEarly(cc: CharClass, u: string, w: string, tail: string)
    requires ReadableFrom(u, 0, false)
    ensures var text, read := Quoted(u + ['\\', '"'] + w, false), Quoted(u + ['\\', '\\'], false);
      && |read| < |text| && text[..|read|] == read
      && TokenSpec(cc, text + tail) == (Literal(Str(true, false), Bytes(read)), |read|)
  {
    hide Bytes, TokenSpec, Quoted, ReadableFrom;
    var v, pair := u + ['\\', '"'] + w, u + ['\\', '\\'];
    var text, read, rest := Quoted(v, false), Quoted(pair, false), EscapedFrom(v, |u| + 2) + ['"'];
    PairKeepsReadable(u);
    EarlyText(u, w);
    assert text + tail == read + (rest + tail);
    QuotedLexesBack(cc, pair, false, rest + tail);
  }

  /** A pair of backslashes at the end does no harm. */
  lemma PairKeepsReadable(u: string)
    requires ReadableFrom(u, 0, false)
    ensures ReadableFrom(u + ['\\', '\\'], 0, false)
  {
    var pair, n := u + ['\\', '\\'], |u|;
    forall k | 0 <= k <= n ensures Run(pair, 0, k) == Run(u, 0, k) { SameRun(u, pair, k); }
    assert Run(pair, 0, n + 2) == 1 + Run(pair, 0, n + 1) == 2 + Run(pair, 0, n);
  }

  lemma {:induction false} SameRun(u: string, v: string, k: nat)
    requires u <= v && k <= |u|
    ensures Run(v, 0, k) == Run(u, 0, k)
  {
    if k > 0 { SameRun(u, v, k - 1); }
  }

  lemma EarlyText(u: string, w: string)
    ensures var v, pair := u + ['\\', '"'] + w, u + ['\\', '\\'];
      Quoted(v, false) == Quoted(pair, false) + (EscapedFrom(v, |u| + 2) + ['"'])
  {
    hide Quoted, EscapedFrom, TypePrinter.Escape;
    var v, pair := u + ['\\', '"'] + w, u + ['\\', '\\'];
    QuotedIsEscaped(v, false);
    QuotedIsEscaped(pair, false);
    assert v[..|u|] == u;
    LoneText(v, |u|);
    PairText(u);
    RegroupEarly(TypePrinter.Escape(u), ['\\', '\\'], ['"'], EscapedFrom(v, |u| + 2));
  }

  lemma LoneText(v: string, n: nat)
    requires n + 1 < |v| && v[n] == '\\' && v[n + 1] == '"'
    ensures EscapedFrom(v, 0) == TypePrinter.Escape(v[..n]) + (['\\', '\\'] + ['"'] + EscapedFrom(v, n + 2))
  {
    EscapedStep(v, n);
    EscapedStep(v, n + 1);
    hide EscapedFrom, TypePrinter.Escape;
    EscapedAfter(v, v[..n]);
    var rest := EscapedFrom(v, n + 2);
    assert EscapedFrom(v, n) == ['\\'] + (['\\', '"'] + rest);
    RegroupPair(rest);
  }

  lemma RegroupPair(rest: string)
    ensures ['\\'] + (['\\', '"'] + rest) == ['\\', '\\'] + ['"'] + rest
  {
  }

  lemma PairText(u: string)
    ensures EscapedFrom(u + ['\\', '\\'], 0) == TypePrinter.Escape(u) + ['\\', '\\']
  {
    var pair, n := u + ['\\', '\\'], |u|;
    assert EscapedFrom(pair, n + 2) == "";
    hide EscapedFrom, TypePrinter.Escape;
    EscapedAfter(pair, u);
    EscapedStep(pair, n);
    EscapedStep(pair, n + 1);
  }

  lemma RegroupEarly(done: string, pair: string, quote: string, rest: string)
    ensures quote + (done + (pair + quote + rest)) + quote == (quote + (done + pair) + quote) + (rest + quote)
  {
  }

  lemma EscapedAfter(v: string, u: string)
    requires u <= v
    ensures EscapedFrom(v, 0) == TypePrinter.Escape(u) + EscapedFrom(v, |u|)
  {
    hide EscapedFrom;
    EscapedFromStart(v, 0);
    EscapedFromStart(v, |u|);
    assert v[..|u|] == u && v[..0] == "";
  }

  // ----- numbers, words, operators -----

  lemma {:induction false} SkipIs(s: string, i: nat, j: nat, p: char -> bool)
    requires i <= j <= |s| && (forall k | i <= k < j :: p(s[k])) && (j < |s| ==> !p(s[j]))
    ensures Skip(s, i, p) == j
    decreases j - i
  {
    if i < j { SkipIs(s, i + 1, j, p); }
  }

  lemma {:induction false} AsciiBytes(s: string)
    requires forall k | 0 <= k < |s| :: Ascii(s[k])
    ensures Bytes(s) == |s|
  {
    if s != "" { AsciiBytes(s[1..]); }
  }

  /** What the printer writes for an integer that is not negative. */
  function NumberText(value: nat, suffix: Option<Suffix>): (s: string)
    ensures s == Numeral(value) + SuffixText(suffix)
  {
    PrintSpec.NumberText(PrettyAst.IntValue(value)) + SuffixText(suffix)
  }

  /** A written integer is one decimal token, with its suffix where the digits end. */
  lemma NumberLexesBack(cc: CharClass, value: nat, suffix: Option<Suffix>, tail: string)
    requires cc.Standard() && Boundary(cc, tail)
    ensures var text := NumberText(value, suffix);
      TokenSpec(cc, text + tail) == (Literal(Int(DecimalBase, false), |Numeral(value)|), |text|)
  {
    hide Bytes, Numeral, Suffix.Text, TokenSpec, NumberSpec, SuffixEnd;
    var text := NumberText(value, suffix);
    var s, n := text + tail, |Numeral(value)|;
    NumeralThenSuffix(cc, value, suffix, tail);
    assert s[..n] == Numeral(value);
    AsciiBytes(s[..n]);
    TokenOfNumber(cc, s);
  }

  lemma NumeralThenSuffix(cc: CharClass, value: nat, suffix: Option<Suffix>, tail: string)
    requires cc.Standard() && Boundary(cc, tail)
    ensures var s := NumberText(value, suffix) + tail;
      && Decimal(s[0]) && NumberSpec(cc, s) == (Int(DecimalBase, false), |Numeral(value)|)
      && SuffixEnd(cc, s, |Numeral(value)|) == |NumberText(value, suffix)|
  {
    hide Bytes, Numeral, SuffixText, WhileLen, NumberSpec, SuffixEnd, NumberText;
    var s, n, m := NumberText(value, suffix) + tail, |Numeral(value)|, |NumberText(value, suffix)|;
    assert forall k | 0 <= k < n :: s[k] == Numeral(value)[k];
    assert forall k | n <= k < m :: s[k] == SuffixText(suffix)[k - n];
    assert m < |s| ==> s[m] == tail[0];
    assert m + 1 < |s| ==> s[m + 1] == tail[1];
    SuffixLetters(suffix);
    NumeralEnds(cc, s, n);
    LettersEnd(cc, s, n, m);
  }

  lemma SuffixLetters(suffix: Option<Suffix>)
    ensures var t := SuffixText(suffix);
      && (forall k | 0 <= k < |t| :: Letter(t[k]))
      && (t != "" ==> t[0] != 'b' && t[0] != 'o' && t[0] != 'x' && t[0] != 'e' && t[0] != 'E')
  {
    if suffix.Some? { SuffixShape(suffix.value); }
  }

  lemma NumeralEnds(cc: CharClass, s: string, n: nat)
    requires 0 < n <= |s| && (forall k | 0 <= k < n :: Decimal(s[k])) && (s[0] == '0' ==> n == 1)
    requires n < |s| ==>
      || Closes(s[n]) || (s[n] == '.' && n + 1 < |s| && cc.idStart(s[n + 1]))
      || (Letter(s[n]) && s[n] !in {'b', 'o', 'x', 'e', 'E'})
    ensures NumberSpec(cc, s) == (Int(DecimalBase, false), n)
  {
    if s[0] != '0' { SkipIs(s, 1, n, DecimalOrUnderscore); }
  }

  lemma LettersEnd(cc: CharClass, s: string, n: nat, m: nat)
    requires cc.Standard() && n <= m <= |s| && (forall k | n <= k < m :: Letter(s[k]))
    requires m < |s| ==> Closes(s[m]) || s[m] == '.'
    ensures SuffixEnd(cc, s, n) == m
  {
    if n < m { SkipIs(s, n + 1, m, cc.idContinue); }
  }

  lemma TokenOfNumber(cc: CharClass, s: string)
    requires cc.Standard() && s != "" && Decimal(s[0])
    ensures var (kind, n) := NumberSpec(cc, s);
      TokenSpec(cc, s) == (Literal(kind, Bytes(s[..n])), SuffixEnd(cc, s, n))
  {
    hide NumberSpec, Bytes, SuffixEnd, Skip;
  }

  /** A C-style octal is marked as having no digits if and only if only underscores follow its first two
      digits; without an underscore there, exactly when no third digit follows. */
  lemma OctalIsMarkedEmpty(cc: CharClass, s: string)
    requires cc.Standard() && |s| >= 2 && s[0] == '0' && Decimal(s[1])
    ensures var marked := TokenSpec(cc, s).0.Literal? && TokenSpec(cc, s).0.kind == Int(OctalBase, true);
      && (marked <==> forall k | 2 <= k < Skip(s, 2, DecimalOrUnderscore) :: s[k] == '_')
      && (CharAt(s, 2) != '_' ==> (marked <==> !Decimal(CharAt(s, 2))))
  {
    hide TokenSpec, SuffixEnd;
    TokenOfNumber(cc, s);
    var n := Skip(s, 2, DecimalOrUnderscore);
    if |s| > 2 && Decimal(s[2]) {
      assert n > 2 && s[2] != '_';
    }
  }

  /** So every octal of two characters is marked, 07 among them. */
  lemma ShortOctalIsMarkedEmpty(cc: CharClass, d: char, tail: string)
    requires cc.Standard() && Decimal(d) && Ends(tail)
    ensures var kind := TokenSpec(cc, ['0', d] + tail).0; kind.Literal? && kind.kind == Int(OctalBase, true)
  {
    hide TokenSpec;
    OctalIsMarkedEmpty(cc, ['0', d] + tail);
  }

  ghost predicate IsWord(cc: CharClass, w: string)
  {
    && w != "" && IdentStart(cc, w)
    && forall k | 1 <= k < |w| :: cc.idContinue(w[k])
  }

  lemma WordLexesBack(cc: CharClass, w: string, tail: string)
    requires cc.Standard() && IsWord(cc, w) && Boundary(cc, tail)
    ensures TokenSpec(cc, w + tail) == (Ident, |w|)
  {
    hide Bytes, WhileLen, StringSpec, NumberSpec, SymbolSpec;
    var s := w + tail;
    assert forall k | 0 <= k < |w| :: s[k] == w[k];
    assert |w| < |s| ==> s[|w|] == tail[0];
    SkipIs(s, 1, |w|, cc.idContinue);
  }

  lemma OperatorLexesBack(cc: CharClass, op: Op, tail: string)
    requires cc.Standard() && Ends(tail)
    ensures TokenSpec(cc, Spelling(op) + tail) == (Operator(op), |Spelling(op)|)
  {
    hide Spelling, StartsOperator, TokenSpec, SymbolSpec;
    var s := Spelling(op) + tail;
    assert tail != "" ==> s[|Spelling(op)|] == ' ';
    forall other | Spelling(other) <= s
      ensures |Spelling(other)| <= |Spelling(op)|
    {
      NoSpaceInside(other);
    }
    assert Spelling(op) <= s;
    SymbolSpecOperator(cc, s, op);
    OperatorFirst(op);
    assert s[0] == Spelling(op)[0];
    assert s[0] == '$' ==> !cc.idStart(CharAt(s, 1)) by { if s[0] == '$' { DollarAlone(op); } }
    TokenOfSymbol(cc, s);
  }

  lemma NoSpaceInside(op: Op)
    ensures forall k | 0 <= k < |Spelling(op)| :: Spelling(op)[k] != ' '
  {
    hide StartsOperator, TakesEq, Doubles, Spelling;
    LongerSpellings(op);
    OperatorFirst(op);
    BlanksAreNoOperators();
  }

  lemma DollarAlone(op: Op)
    requires Spelling(op)[0] == '$'
    ensures |Spelling(op)| == 1
  {
  }

  lemma TokenOfSymbol(cc: CharClass, s: string)
    requires cc.Standard() && s != "" && StartsOperator(s[0]) && (s[0] == '$' ==> !cc.idStart(CharAt(s, 1)))
    ensures TokenSpec(cc, s) == SymbolSpec(cc, s)
  {
    hide SymbolSpec, Bytes, StringSpec, NumberSpec, WhileLen;
  }

  lemma SpaceLexes(cc: CharClass, s: string)
    requires cc.Standard() && s != "" && s[0] == ' '
    ensures TokenSpec(cc, s) == (Space, 1)
  {
    hide Bytes, StringSpec, NumberSpec, WhileLen, Longest;
  }

  // ----- texts -----

  datatype Piece =
    | Symbol(op: Op)
    | Word(text: string)
    | Number(number: nat, suffix: Option<Suffix>)
    | Text(value: string, long: bool)

  function Written(piece: Piece): string
  {
    match piece
    case Symbol(op) => Spelling(op)
    case Word(text) => text
    case Number(value, suffix) => NumberText(value, suffix)
    case Text(value, long) => Quoted(value, long)
  }

  function TokenOf(piece: Piece): Token
  {
    var kind := match piece
      case Symbol(op) => Operator(op)
      case Word(_) => Ident
      case Number(value, _) => Literal(Int(DecimalBase, false), |Numeral(value)|)
      case Text(value, long) => Literal(Str(true, long), Bytes(Quoted(value, long)));
    Token(kind, Bytes(Written(piece)))
  }

  /** Words are identifiers; everything else is fine as it is. */
  ghost predicate WellFormed(cc: CharClass, piece: Piece) { piece.Word? ==> IsWord(cc, piece.text) }

  ghost predicate PieceReadable(piece: Piece) { piece.Text? ==> ReadableFrom(piece.value, 0, piece.long) }

  function Spaced(pieces: seq<Piece>): string
  {
    if |pieces| == 0 then ""
    else if |pieces| == 1 then Written(pieces[0])
    else Written(pieces[0]) + " " + Spaced(pieces[1..])
  }

  function SpacedTokens(pieces: seq<Piece>): seq<Token>
  {
    if |pieces| == 0 then []
    else if |pieces| == 1 then [TokenOf(pieces[0])]
    else [TokenOf(pieces[0]), Token(Space, 1)] + SpacedTokens(pieces[1..])
  }

  lemma WrittenIsNotEmpty(cc: CharClass, piece: Piece)
    requires WellFormed(cc, piece)
    ensures Written(piece) != ""
  {
  }

  /** How a piece is read depends only on its own text when the text ends or a space follows. */
  lemma PieceLexesBack(cc: CharClass, piece: Piece, tail: string)
    requires cc.Standard() && WellFormed(cc, piece) && Ends(tail) && Written(piece) != ""
    ensures TokenSpec(cc, Written(piece) + tail) == (TokenOf(piece).kind, |Written(piece)|) <==> PieceReadable(piece)
  {
    hide TokenSpec, ReadableFrom, Spelling, Quoted, NumberText, Bytes;
    match piece
    case Symbol(op) => OperatorLexesBack(cc, op, tail);
    case Word(text) => WordLexesBack(cc, text, tail);
    case Number(value, suffix) => NumberLexesBack(cc, value, suffix, tail);
    case Text(value, long) => QuotedLexesBack(cc, value, long, tail);
  }

  lemma {:induction false} BytesGrow(s: string, n: nat, m: nat)
    requires n < m <= |s|
    ensures Bytes(s[..n]) < Bytes(s[..m])
  {
    BytesSplit(s[..m], n);
    assert s[..m][..n] == s[..n];
    assert s[..m][n..] != "";
  }

  /** The first token is the piece exactly when the piece is readable. */
  lemma FirstToken(cc: CharClass, piece: Piece, tail: string)
    requires cc.Standard() && WellFormed(cc, piece) && Ends(tail)
    ensures var s := Written(piece) + tail; var tokens := Tokens(cc, s);
      && tokens != []
      && (tokens[0] == TokenOf(piece) <==> PieceReadable(piece))
      && (PieceReadable(piece) ==> tokens[1..] == Tokens(cc, tail))
  {
    hide TokenSpec, PieceReadable, Written, Bytes;
    var s := Written(piece) + tail;
    var w := |Written(piece)|;
    WrittenIsNotEmpty(cc, piece);
    PieceLexesBack(cc, piece, tail);
    assert s[..w] == Written(piece) && s[w..] == tail;
    var n := TokenSpec(cc, s).1;
    if n < w { BytesGrow(s, n, w); } else if w < n { BytesGrow(s, w, n); }
  }

  lemma SpaceToken(cc: CharClass, rest: string)
    requires cc.Standard()
    ensures Tokens(cc, " " + rest) == [Token(Space, 1)] + Tokens(cc, rest)
  {
    var s := " " + rest;
    SpaceLexes(cc, s);
    assert s[..1] == " " && s[1..] == rest;
    assert Bytes(" ") == 1;
  }

  /** Pieces written with single spaces between them are read back as exactly those pieces, with space
      tokens between, if and only if every string literal among them is readable. */
  lemma {:induction false} RoundTrip(cc: CharClass, pieces: seq<Piece>)
    requires cc.Standard() && forall p | p in pieces :: WellFormed(cc, p)
    ensures Tokens(cc, Spaced(pieces)) == SpacedTokens(pieces) <==> forall p | p in pieces :: PieceReadable(p)
  {
    hide TokenSpec, PieceReadable, Written, TokenOf, Bytes, WellFormed;
    if |pieces| == 0 {
    } else if |pieces| == 1 {
      FirstToken(cc, pieces[0], "");
      assert Written(pieces[0]) + "" == Written(pieces[0]);
    } else {
      hide Tokens;
      var rest := Spaced(pieces[1..]);
      assert Spaced(pieces) == Written(pieces[0]) + (" " + rest);
      FirstToken(cc, pieces[0], " " + rest);
      SpaceToken(cc, rest);
      RoundTrip(cc, pieces[1..]);
      assert pieces == [pieces[0]] + pieces[1..];
      assert SpacedTokens(pieces) == [TokenOf(pieces[0]), Token(Space, 1)] + SpacedTokens(pieces[1..]);
      SameTokens(Tokens(cc, Spaced(pieces)), TokenOf(pieces[0]), Token(Space, 1), Tokens(cc, rest),
                 SpacedTokens(pieces[1..]));
    }
  }

  /** Two lists of tokens agree when their first tokens and the rests behind the space do. */
  lemma SameTokens(tokens: seq<Token>, first: Token, space: Token, found: seq<Token>, expected: seq<Token>)
    requires tokens != [] && (tokens[0] == first ==> tokens[1..] == [space] + found)
    ensures tokens == [first, space] + expected <==> tokens[0] == first && found == expected
  {
    var all := [first, space] + expected;
    assert all[1..] == [space] + expected && all[2..] == expected;
    if tokens[0] == first {
      assert tokens == [first] + tokens[1..];
      assert tokens[1..][1..] == found;
    }
  }
}
