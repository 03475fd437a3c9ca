/** What comments, blanks, line continuations, numbers, strings and words are lexed as, from the characters they are
    written with. kclvm/lexer/src/lib.rs:401-618, kcl_cursor.rs, number.rs. */
module LexerTexts {
  import opened LexerSpec
  import opened PrintLexing
  import opened Relexing
  import opened Wrappers

  // ----- comments -----

  lemma {:induction false} NewlineEnds(s: string, i: nat, j: nat)
    requires i <= j <= |s| && (forall k | i <= k < j :: s[k] != '\n') && (j < |s| ==> s[j] == '\n')
    ensures Skip(s, i, NotNewline) == j
    decreases j - i
  {
    if i < j { NewlineEnds(s, i + 1, j); }
  }

  lemma CommentToken(cc: CharClass, u: string, rest: string)
    requires '\n' !in u && (rest != "" ==> rest[0] == '\n')
    ensures ReadsAs(cc, "#" + u, [Token(LineComment, 1 + Bytes(u))], rest)
  {
    var text := "#" + u;
    var s := text + rest;
    assert forall k | 1 <= k < |text| :: s[k] == u[k - 1] && u[k - 1] in u;
    NewlineEnds(s, 1, |text|);
    assert text[1..] == u;
    OneToken(cc, text, LineComment, rest);
  }

  /** A comment goes up to the end of its line, whatever it holds, and the lexing of the next line starts afresh. */
  lemma CommentLexes(cc: CharClass, u: string, rest: string)
    requires cc.Standard() && '\n' !in u
    ensures Tokens(cc, "#" + u + "\n" + rest)
      == [Token(LineComment, 1 + Bytes(u)), Token(Newline, 1)] + Tokens(cc, rest)
    ensures Tokens(cc, "#" + u) == [Token(LineComment, 1 + Bytes(u))]
  {
    hide TokenSpec;
    CommentToken(cc, u, "\n" + rest);
    BlankLexes(cc, '\n', rest);
    assert ("#" + u) + ("\n" + rest) == "#" + u + "\n" + rest;
    assert [Token(LineComment, 1 + Bytes(u))] + ([Token(Newline, 1)] + Tokens(cc, rest))
      == [Token(LineComment, 1 + Bytes(u)), Token(Newline, 1)] + Tokens(cc, rest);
    CommentToken(cc, u, "");
    assert ("#" + u) + "" == "#" + u && Tokens(cc, "") == [];
  }

  // ----- blanks -----

  /** Characters that start none of the longer tokens. */
  predicate Bare(cc: CharClass, c: char)
  {
    && c != '#' && c != '$' && c != 'r' && c != 'R' && c != '\'' && c != '"' && !('0' <= c <= '9')
    && !IsWhitespace(c) && !cc.idStart(c)
  }

  lemma BareIsSymbol(cc: CharClass, s: string)
    requires s != "" && Bare(cc, s[0])
    ensures TokenSpec(cc, s) == SymbolSpec(cc, s)
  {
    hide SymbolSpec, Bytes, StringSpec, NumberSpec, WhileLen;
  }

  lemma BareAscii(cc: CharClass, c: char)
    requires cc.Standard() && c in {'\t', ' ', '\n', '\\', '`'}
    ensures Bare(cc, c) && Utf8Len(c) == 1 && !StartsOperator(c)
  {
  }

  /** Tabs, spaces and line ends are tokens of their own. */
  lemma BlankLexes(cc: CharClass, c: char, rest: string)
    requires cc.Standard() && (c == '\t' || c == ' ' || c == '\n')
    ensures ReadsAs(cc, [c], [Token(if c == '\t' then Tab else if c == ' ' then Space else Newline, 1)], rest)
  {
    hide TokenSpec, Tokens, Longest, ReadsAs, Bare, IsWhitespace;
    var s := [c] + rest;
    BareAscii(cc, c);
    BareIsSymbol(cc, s);
    assert Bytes([c]) == 1;
    OneToken(cc, [c], if c == '\t' then Tab else if c == ' ' then Space else Newline, rest);
  }

  /** The other blank characters, among them a carriage return, with their lengths in bytes. */
  lemma WhitespaceLexes(cc: CharClass, c: char, rest: string)
    requires c as int in {0x0B, 0x0C, 0x0D, 0x85, 0x200E, 0x200F, 0x2028, 0x2029}
    ensures var len := if c as int < 0x80 then 1 else if c as int == 0x85 then 2 else 3;
      ReadsAs(cc, [c], [Token(Whitespace, len)], rest)
  {
    hide Tokens, ReadsAs, StringSpec, NumberSpec, SymbolSpec, WhileLen;
    assert ([c] + rest)[0] == c && [c][1..] == "";
    assert Bytes([c]) == Utf8Len(c);
    OneToken(cc, [c], Whitespace, rest);
  }

  // ----- line continuations and unknown characters -----

  lemma NoSymbol(cc: CharClass, s: string)
    requires s != "" && Bare(cc, s[0]) && !StartsOperator(s[0])
    requires s[0] != '\t' && s[0] != ' ' && s[0] != '\n' && s[0] != '\\' && !cc.Emoji(s[0])
    ensures TokenSpec(cc, s) == (Unknown, 1)
  {
    hide TokenSpec, Longest, Bare, StartsOperator, IsWhitespace;
    BareIsSymbol(cc, s);
    NoOperator(s);
  }

  lemma BackslashSpec(cc: CharClass, s: string)
    requires cc.Standard() && s != "" && s[0] == '\\'
    ensures TokenSpec(cc, s)
      == if CharAt(s, 1) == '\n' then (LineContinue, 2)
         else if CharAt(s, 1) == '\0' then (LineContinue, 1) else (InvalidLineContinue, 1)
  {
    hide TokenSpec, Longest, Bare, StartsOperator, IsWhitespace;
    BareAscii(cc, '\\');
    BareIsSymbol(cc, s);
    NoOperator(s);
  }

  /** A backslash continues the line before a line end, which is part of the token, and at the end of the text;
      before anything else it is an error. */
  lemma LineContinues(cc: CharClass, rest: string)
    requires cc.Standard()
    ensures Tokens(cc, "\\\n" + rest) == [Token(LineContinue, 2)] + Tokens(cc, rest)
    ensures Tokens(cc, "\\") == [Token(LineContinue, 1)]
    ensures rest != "" && rest[0] != '\n' && rest[0] != '\0' ==>
      Tokens(cc, "\\" + rest) == [Token(InvalidLineContinue, 1)] + Tokens(cc, rest)
  {
    hide TokenSpec, Tokens, IsWhitespace;
    assert "\\\n"[1..] == "\n" && "\n"[1..] == "" && "\\"[1..] == "";
    assert Bytes("\\\n") == 2 && Bytes("\\") == 1;
    BackslashSpec(cc, "\\\n" + rest);
    OneToken(cc, "\\\n", LineContinue, rest);
    BackslashSpec(cc, "\\" + "");
    OneToken(cc, "\\", LineContinue, "");
    assert "\\" + "" == "\\" && Tokens(cc, "") == [] by { NoText(cc); }
    if rest != "" && rest[0] != '\n' && rest[0] != '\0' {
      BackslashSpec(cc, "\\" + rest);
      OneToken(cc, "\\", InvalidLineContinue, rest);
    }
  }

  lemma NoText(cc: CharClass)
    ensures Tokens(cc, "") == []
  {
  }

  /** A backquote and any other character that nothing starts with is unknown. */
  lemma UnknownLexes(cc: CharClass, c: char, rest: string)
    requires cc.Standard()
    requires c == '`' || c as int < 9 || (c as int >= 128 && !cc.idStart(c) && !cc.emoji(c) && !IsWhitespace(c))
    ensures ReadsAs(cc, [c], [Token(Unknown, Utf8Len(c))], rest)
  {
    hide TokenSpec, Tokens, ReadsAs;
    NothingStarts(cc, c);
    hide Bare, StartsOperator, IsWhitespace;
    NoSymbol(cc, [c] + rest);
    assert [c][1..] == "" && Bytes([c]) == Utf8Len(c);
    OneToken(cc, [c], Unknown, rest);
  }

  lemma NothingStarts(cc: CharClass, c: char)
    requires cc.Standard()
    requires c == '`' || c as int < 9 || (c as int >= 128 && !cc.idStart(c) && !cc.emoji(c) && !IsWhitespace(c))
    ensures Bare(cc, c) && !StartsOperator(c) && !cc.Emoji(c)
    ensures c != '\t' && c != ' ' && c != '\n' && c != '\\'
  {
  }
  // ----- numbers -----

  predicate IsDigit(c: char) { '0' <= c <= '9' || c == '_' }
  predicate IsHexDigit(c: char) { '0' <= c <= '9' || 'a' <= c <= 'f' || 'A' <= c <= 'F' || c == '_' }

  predicate AllDigits(ds: string) { forall k | 0 <= k < |ds| :: IsDigit(ds[k]) }

  /** Some digit is not an underscore. */
  predicate SomeDigit(ds: string) { exists k | 0 <= k < |ds| :: ds[k] != '_' }

  /** A number: digits with underscores behind a prefix for the base, and maybe a fraction and an exponent. */
  datatype NumberForm = NumberForm(base: Base, digits: string, fraction: Option<string>, exponent: Option<Power>) {
    function Text(): string { Prefix(base) + digits + Tail() }

    function Tail(): string
    {
      (if fraction.Some? then "." + fraction.value else "") + if exponent.Some? then exponent.value.Text() else ""
    }

    /** The digits of the base, in a number without leading zeros when it is decimal; and no exponent that the
        digits of a hexadecimal number would take. */
    predicate Valid()
    {
      && SomeDigit(digits)
      && (if base.HexadecimalBase? then forall k | 0 <= k < |digits| :: IsHexDigit(digits[k]) else AllDigits(digits))
      && (base.DecimalBase? ==> digits[0] != '_' && (digits[0] == '0' ==> digits == "0" || digits[1] == '_'))
      && (base.HexadecimalBase? && exponent.Some? ==> fraction.Some?)
      && (fraction.Some? ==> fraction.value != "" && fraction.value[0] != '_' && AllDigits(fraction.value))
      && (exponent.Some? ==> AllDigits(exponent.value.digits))
    }

    /** An exponent is marked empty when it has no digit. */
    function Kind(): LiteralKind
    {
      if fraction.None? && exponent.None? then Int(base, false)
      else Float(base, exponent.Some? && !SomeDigit(exponent.value.digits))
    }
  }

  datatype Power = Power(upper: bool, sign: Option<bool>, digits: string) {
    function Text(): string { [if upper then 'E' else 'e'] + Signed() }

    function Signed(): string
    {
      (match sign case None => "" case Some(negative) => if negative then "-" else "+") + digits
    }
  }

  function Prefix(base: Base): string
  {
    match base case BinaryBase => "0b" case OctalBase => "0o" case HexadecimalBase => "0x" case DecimalBase => ""
  }

  lemma BoundaryEndsNumber(cc: CharClass, rest: string)
    requires cc.Standard() && Boundary(cc, rest)
    ensures rest != "" ==>
      (!IsHexDigit(rest[0]) && rest[0] != '+' && rest[0] != '-' && !cc.idStart(rest[0])
       && (rest[0] == '.' ==> |rest| > 1 && cc.idStart(rest[1])))
  {
  }

  lemma DigitsEnd(s: string, a: string, ds: string, rest: string)
    requires s == a + ds + rest && AllDigits(ds) && (rest != "" ==> !IsDigit(rest[0]))
    ensures Skip(s, |a|, DecimalOrUnderscore) == |a| + |ds|
    ensures HasDigits(s, |a|, |a| + |ds|) <==> SomeDigit(ds)
  {
    assert forall k | 0 <= k < |ds| :: s[|a| + k] == ds[k];
    assert rest != "" ==> s[|a| + |ds|] == rest[0];
    SkipIs(s, |a|, |a| + |ds|, DecimalOrUnderscore);
    if SomeDigit(ds) {
      var k :| 0 <= k < |ds| && ds[k] != '_';
      assert s[|a| + k] != '_';
    }
    if HasDigits(s, |a|, |a| + |ds|) {
      var k :| |a| <= k < |a| + |ds| && s[k] != '_';
      assert ds[k - |a|] != '_';
    }
  }

  lemma HexDigitsEnd(s: string, a: string, ds: string, rest: string)
    requires s == a + ds + rest && SomeDigit(ds) && forall k | 0 <= k < |ds| :: IsHexDigit(ds[k])
    requires rest != "" ==> !IsHexDigit(rest[0])
    ensures Skip(s, |a|, HexadecimalOrUnderscore) == |a| + |ds| && HasDigits(s, |a|, |a| + |ds|)
  {
    assert forall k | 0 <= k < |ds| :: s[|a| + k] == ds[k];
    assert rest != "" ==> s[|a| + |ds|] == rest[0];
    SkipIs(s, |a|, |a| + |ds|, HexadecimalOrUnderscore);
    var k :| 0 <= k < |ds| && ds[k] != '_';
    assert s[|a| + k] != '_';
  }

  lemma ExponentEnds(s: string, a: string, p: Power, rest: string, base: Base)
    requires s == a + p.Signed() + rest && AllDigits(p.digits) && (rest != "" ==> !IsDigit(rest[0]))
    requires p.sign.None? && p.digits == "" ==> rest != "" ==> rest[0] != '-' && rest[0] != '+'
    ensures ExponentSpec(s, |a|, base) == (Float(base, !SomeDigit(p.digits)), |a| + |p.Signed()|)
  {
    hide Skip, HasDigits, SomeDigit;
    var sign := match p.sign case None => "" case Some(negative) => if negative then "-" else "+";
    var b := a + sign;
    assert s == b + p.digits + rest;
    DigitsEnd(s, b, p.digits, rest);
    assert sign != "" ==> s[|a|] == sign[0];
    assert sign == "" && p.digits != "" ==> s[|a|] == p.digits[0] && IsDigit(p.digits[0]);
    assert sign == "" && p.digits == "" && rest != "" ==> s[|a|] == rest[0];
  }
  lemma PowerEnds(s: string, a: string, p: Power, rest: string, base: Base)
    requires s == a + p.Text() + rest && AllDigits(p.digits)
    requires rest != "" ==> !IsDigit(rest[0]) && rest[0] != '-' && rest[0] != '+'
    ensures CharAt(s, |a|) == 'e' || CharAt(s, |a|) == 'E'
    ensures ExponentSpec(s, |a| + 1, base) == (Float(base, !SomeDigit(p.digits)), |a| + |p.Text()|)
  {
    hide ExponentSpec, Power.Signed;
    var mark := [if p.upper then 'E' else 'e'];
    assert s[|a|] == mark[0];
    assert s == (a + mark) + p.Signed() + rest;
    ExponentEnds(s, a + mark, p, rest, base);
  }

  lemma FractionEnds(s: string, a: string, fs: string, p: Option<Power>, rest: string, base: Base)
    requires s == a + fs + (if p.Some? then p.value.Text() else "") + rest
    requires fs != "" && fs[0] != '_' && AllDigits(fs) && (p.Some? ==> AllDigits(p.value.digits))
    requires rest != "" ==> !IsHexDigit(rest[0]) && rest[0] != '-' && rest[0] != '+'
    ensures FractionSpec(s, |a|, base)
      == (Float(base, p.Some? && !SomeDigit(p.value.digits)), |s| - |rest|)
  {
    hide ExponentSpec, Power.Text, Skip, SomeDigit, HasDigits;
    var power := if p.Some? then p.value.Text() else "";
    assert s[|a|] == fs[0] && IsDigit(fs[0]);
    assert s == a + fs + (power + rest);
    assert p.Some? ==> power != "" && (power[0] == 'e' || power[0] == 'E') by { if p.Some? { PowerMark(p.value); } }
    DigitsEnd(s, a, fs, power + rest);
    var b := a + fs;
    assert power + rest != "" ==> s[|b|] == (power + rest)[0];
    if p.Some? { PowerEnds(s, b, p.value, rest, base); }
  }

  lemma PowerMark(p: Power)
    ensures p.Text() != "" && (p.Text()[0] == 'e' || p.Text()[0] == 'E')
  {
  }

  /** What comes after the digits. */
  lemma TailEnds(cc: CharClass, x: NumberForm, s: string, a: string, rest: string)
    requires cc.Standard() && x.Valid() && Boundary(cc, rest) && s == a + x.Tail() + rest
    ensures NumberRest(cc, s, |a|, x.base) == (x.Kind(), |s| - |rest|)
  {
    hide ExponentSpec, FractionSpec, Power.Text, Boundary, SomeDigit;
    BoundaryEndsNumber(cc, rest);
    assert !x.base.HexadecimalBase? || x.exponent.None? || x.fraction.Some?;
    var power := if x.exponent.Some? then x.exponent.value.Text() else "";
    if x.fraction.Some? {
      var fs := x.fraction.value;
      assert s == (a + ".") + fs + power + rest;
      assert s[|a|] == '.' && s[|a| + 1] == fs[0] && IsDigit(fs[0]);
      FractionEnds(s, a + ".", fs, x.exponent, rest, x.base);
    } else if x.exponent.Some? {
      assert s == a + power + rest;
      PowerEnds(s, a, x.exponent.value, rest, x.base);
    } else {
      assert s == a + rest;
      assert rest != "" ==> s[|a|] == rest[0];
      assert |rest| > 1 ==> s[|a| + 1] == rest[1];
    }
  }

  /** The first character behind the digits is no digit of the base. */
  lemma TailStops(cc: CharClass, x: NumberForm, rest: string)
    requires cc.Standard() && x.Valid() && Boundary(cc, rest)
    ensures var more := x.Tail() + rest;
      more != "" ==> if x.base.HexadecimalBase? then !IsHexDigit(more[0]) else !IsDigit(more[0])
    ensures var more := x.Tail() + rest;
      && (more != "" ==> more[0] == '.' || more[0] == 'e' || more[0] == 'E' || Closes(more[0]))
      && (x.fraction.None? && x.exponent.None? && more != "" ==> more[0] == '.' || Closes(more[0]))
  {
    hide Power.Text, SomeDigit;
    BoundaryEndsNumber(cc, rest);
    if x.exponent.Some? { PowerMark(x.exponent.value); }
  }

  lemma TailBegins(x: NumberForm, rest: string)
    requires x.fraction.Some? || x.exponent.Some?
    ensures var more := x.Tail() + rest; more != "" && (more[0] == '.' || more[0] == 'e' || more[0] == 'E')
  {
    hide Power.Text;
    if x.exponent.Some? { PowerMark(x.exponent.value); }
  }

  lemma NumberForms(cc: CharClass, x: NumberForm, rest: string)
    requires cc.Standard() && x.Valid() && Boundary(cc, rest)
    ensures var s := x.Text() + rest;
      Decimal(s[0]) && NumberSpec(cc, s) == (x.Kind(), |x.Text()|)
  {
    hide NumberRest, NumberForm.Tail, NumberForm.Kind, Boundary, SomeDigit, HasDigits, Skip;
    var s, a, ds := x.Text() + rest, Prefix(x.base), x.digits;
    var more := x.Tail() + rest;
    assert s == a + ds + more && s == (a + ds) + x.Tail() + rest;
    TailStops(cc, x, rest);
    TailEnds(cc, x, s, a + ds, rest);
    assert |ds| > 0 by { NotEmpty(ds); }
    assert s[|a|] == ds[0];
    match x.base {
      case HexadecimalBase =>
        HexDigitsEnd(s, a, ds, more);
        assert s[0] == '0' && s[1] == 'x';
      case DecimalBase =>
        if x.fraction.Some? || x.exponent.Some? { TailBegins(x, rest); }
        DecimalStart(cc, x, s, more);
      case BinaryBase =>
        DigitsEnd(s, a, ds, more);
        assert s[0] == '0' && s[1] == 'b';
      case OctalBase =>
        DigitsEnd(s, a, ds, more);
        assert s[0] == '0' && s[1] == 'o';
    }
  }

  lemma NotEmpty(ds: string)
    ensures SomeDigit(ds) ==> ds != ""
  {
  }

  lemma DecimalStart(cc: CharClass, x: NumberForm, s: string, more: string)
    requires x.Valid() && x.base.DecimalBase? && s == x.digits + more
    requires more != "" ==> !IsDigit(more[0]) && (more[0] == '.' || more[0] == 'e' || more[0] == 'E' || Closes(more[0]))
    requires x.fraction.None? && x.exponent.None? && more != "" ==> more[0] == '.' || Closes(more[0])
    requires (x.fraction.Some? || x.exponent.Some?) && more != "" ==> more[0] == '.' || more[0] == 'e' || more[0] == 'E'
    requires x.fraction.Some? || x.exponent.Some? ==> more != ""
    requires NumberRest(cc, s, |x.digits|, DecimalBase) == (x.Kind(), |x.digits| + |x.Tail()|)
    ensures Decimal(s[0]) && NumberSpec(cc, s) == (x.Kind(), |x.digits| + |x.Tail()|)
  {
    hide NumberRest, Skip, NumberForm.Tail, HasDigits;
    var ds := x.digits;
    NotEmpty(ds);
    hide SomeDigit;
    assert s[0] == ds[0] && s == ds[..1] + ds[1..] + more;
    DigitsEnd(s, ds[..1], ds[1..], more);
    assert |ds| > 1 ==> s[1] == ds[1];
    assert |ds| == 1 && more != "" ==> s[1] == more[0];
    if ds == "0" && x.fraction.None? && x.exponent.None? { NothingBehind(x); }
  }

  lemma NothingBehind(x: NumberForm)
    requires x.fraction.None? && x.exponent.None?
    ensures x.Tail() == ""
  {
  }

  lemma NumberIsAscii(x: NumberForm)
    requires x.Valid()
    ensures Bytes(x.Text()) == |x.Text()|
  {
    hide Bytes, SomeDigit;
    assert forall c | IsHexDigit(c) || IsDigit(c) :: Ascii(c);
    assert forall k | 0 <= k < |Prefix(x.base)| :: Ascii(Prefix(x.base)[k]);
    assert forall k | 0 <= k < |x.digits| :: Ascii(x.digits[k]);
    TailIsAscii(x);
    hide NumberForm.Tail;
    AsciiBytes(x.Text());
  }

  lemma TailIsAscii(x: NumberForm)
    requires x.Valid()
    ensures forall k | 0 <= k < |x.Tail()| :: Ascii(x.Tail()[k])
  {
    hide SomeDigit;
    assert forall c | IsDigit(c) :: Ascii(c);
  }

  /** Every number of these forms is one token with the kind and length that its parts say. */
  lemma NumberTextLexes(cc: CharClass, x: NumberForm, rest: string)
    requires cc.Standard() && x.Valid() && Boundary(cc, rest)
    ensures ReadsAs(cc, x.Text(), [Token(Literal(x.Kind(), |x.Text()|), |x.Text()|)], rest)
  {
    hide NumberForm.Text, NumberForm.Kind, NumberForm.Valid, NumberSpec, Bytes, Tokens, TokenSpec, ReadsAs, Boundary;
    var text := x.Text();
    var s := text + rest;
    NumberForms(cc, x, rest);
    BoundaryEndsNumber(cc, rest);
    NumberIsAscii(x);
    TokenOfNumber(cc, s);
    assert s[..|text|] == text && (rest != "" ==> s[|text|] == rest[0]);
    OneToken(cc, text, Literal(x.Kind(), |text|), rest);
  }
  /** A prefix without digits behind it is marked as an empty number. */
  lemma NoDigitsAreMarked(cc: CharClass, base: Base, underscores: string, rest: string)
    requires cc.Standard() && Boundary(cc, rest) && !base.DecimalBase?
    requires forall k | 0 <= k < |underscores| :: underscores[k] == '_'
    ensures var text := Prefix(base) + underscores;
      ReadsAs(cc, text, [Token(Literal(Int(base, true), |text|), |text|)], rest)
  {
    hide Bytes, Tokens, TokenSpec, ReadsAs, Boundary;
    var a, text := Prefix(base), Prefix(base) + underscores;
    var s := text + rest;
    BoundaryEndsNumber(cc, rest);
    assert s == a + underscores + rest && s[0] == '0' && s[1] == a[1];
    assert forall k | 0 <= k < |underscores| :: s[|a| + k] == underscores[k];
    assert rest != "" ==> s[|text|] == rest[0];
    SkipIs(s, 2, |text|, DecimalOrUnderscore);
    SkipIs(s, 2, |text|, HexadecimalOrUnderscore);
    assert NumberSpec(cc, s) == (Int(base, true), |text|);
    hide NumberSpec;
    AsciiBytes(text);
    TokenOfNumber(cc, s);
    assert s[..|text|] == text;
    OneToken(cc, text, Literal(Int(base, true), |text|), rest);
  }

  // ----- strings -----

  /** A value without the quote and without backslashes; and in a short literal without line breaks. */
  predicate Plain(v: string, quote: char, long: bool)
  {
    forall k | 0 <= k < |v| ::
      v[k] != quote && v[k] != '\\' && (long || (v[k] != '\r' && v[k] != '\n' && v[k] != '\0'))
  }

  function Delimited(v: string, quote: char, long: bool): string
  {
    var d := if long then [quote, quote, quote] else [quote];
    d + v + d
  }

  lemma {:induction false} PlainScan(s: string, quote: char, long: bool, i: nat, v: string, rest: string)
    requires Quote(quote) && Plain(v, quote, long) && i <= |s|
    requires s[i..] == v + (if long then [quote, quote, quote] else [quote]) + rest
    ensures StringScan(s, quote, long, i) == (true, |s| - |rest|)
    decreases |v|
  {
    assert forall k | 0 <= k < |s| - i :: s[i + k] == s[i..][k];
    assert |s| == i + |v| + (if long then 3 else 1) + |rest|;
    if v != "" {
      assert s[i] == v[0];
      assert s[i + 1..] == s[i..][1..] == v[1..] + (if long then [quote, quote, quote] else [quote]) + rest;
      PlainScan(s, quote, long, i + 1, v[1..], rest);
    }
  }

  /** Where an unfinished short literal ends: at a line break or at the end of the text. */
  lemma {:induction false} BrokenScan(s: string, quote: char, i: nat, v: string, rest: string)
    requires Quote(quote) && Plain(v, quote, false) && v != "" && i <= |s| && s[i..] == v + rest
    requires rest != "" ==> rest[0] == '\r' || rest[0] == '\n' || rest[0] == '\0'
    ensures StringScan(s, quote, false, i) == (false, |s| - |rest|)
    decreases |v|
  {
    assert forall k | 0 <= k < |s| - i :: s[i + k] == s[i..][k];
    assert |s| == i + |v| + |rest| && s[i] == v[0];
    assert s[i + 1..] == s[i..][1..] == v[1..] + rest;
    if |v| > 1 { BrokenScan(s, quote, i + 1, v[1..], rest); }
  }

  lemma StringToken(cc: CharClass, raw: string, text: string, quote: char)
    requires (raw == "" || raw == "r" || raw == "R") && (quote == '\'' || quote == '"')
    requires text != "" && text[0] == quote
    ensures var s, open := raw + text, |raw| + 1; var (kind, n) := StringSpec(s, open);
      TokenSpec(cc, s) == (Literal(kind, Bytes(s[..n])), n)
  {
    hide StringSpec, Bytes;
    var s := raw + text;
    assert s[|raw|] == quote && (raw != "" ==> s[0] == raw[0]);
  }

  /** A string literal in either quotes, raw or not, short or in triple quotes. */
  lemma PlainStringLexes(cc: CharClass, raw: string, v: string, quote: char, long: bool, rest: string)
    requires (raw == "" || raw == "r" || raw == "R") && (quote == '\'' || quote == '"') && Plain(v, quote, long)
    requires !long && v == "" && rest != "" ==> rest[0] != quote
    ensures var text := raw + Delimited(v, quote, long);
      ReadsAs(cc, text, [Token(Literal(Str(true, long), Bytes(text)), Bytes(text))], rest)
  {
    hide Tokens, TokenSpec, ReadsAs, Bytes, StringScan, Delimited, Triple, Plain;
    var body := Delimited(v, quote, long);
    var text := raw + body;
    DelimitedAt(raw, v, quote, long, rest);
    StringToken(cc, raw, body + rest, quote);
    TriplesWhenLong(text + rest, raw, v, quote, long, rest);
    PlainScan(text + rest, quote, long, |raw| + if long then 3 else 1, v, rest);
    OneToken(cc, text, Literal(Str(true, long), Bytes(text)), rest);
  }

  lemma DelimitedAt(raw: string, v: string, quote: char, long: bool, rest: string)
    ensures var body := Delimited(v, quote, long); var s, w := raw + body + rest, if long then 3 else 1;
      && body != "" && s == raw + (body + rest) && (body + rest)[0] == quote && s[|raw|] == quote
      && s[|raw| + w..] == v + (if long then [quote, quote, quote] else [quote]) + rest
      && s[..|raw + body|] == raw + body
  {
  }

  lemma TriplesWhenLong(s: string, raw: string, v: string, quote: char, long: bool, rest: string)
    requires (quote == '\'' || quote == '"') && Plain(v, quote, long) && s == raw + Delimited(v, quote, long) + rest
    requires !long && v == "" && rest != "" ==> rest[0] != quote
    ensures Triple(s, |raw| + 1) == long
  {
    var k := |raw|;
    assert s[k] == quote;
    if long { assert s[k + 1] == quote && s[k + 2] == quote; }
    else if v != "" { assert s[k + 1] == v[0]; }
    else { assert s[k + 1] == quote && (rest != "" ==> s[k + 2] == rest[0]); }
  }

  /** A short literal that is not closed on its line is cut there, and marked. */
  lemma UnclosedStringLexes(cc: CharClass, raw: string, v: string, quote: char, rest: string)
    requires (raw == "" || raw == "r" || raw == "R") && (quote == '\'' || quote == '"')
    requires Plain(v, quote, false) && v != ""
    requires rest != "" ==> rest[0] == '\r' || rest[0] == '\n' || rest[0] == '\0'
    ensures var text := raw + [quote] + v;
      ReadsAs(cc, text, [Token(Literal(Str(false, false), Bytes(text)), Bytes(text))], rest)
  {
    hide Tokens, TokenSpec, ReadsAs, Bytes, StringScan;
    var text, p := raw + [quote] + v, |raw| + 1;
    var s := text + rest;
    assert s == raw + ([quote] + v + rest) && ([quote] + v + rest)[0] == quote;
    StringToken(cc, raw, [quote] + v + rest, quote);
    assert s[p - 1] == quote && s[p] == v[0] && s[p..] == v + rest;
    BrokenScan(s, quote, p, v, rest);
    assert s[..|text|] == text;
    OneToken(cc, text, Literal(Str(false, false), Bytes(text)), rest);
  }
  // ----- words -----

  /** A name with or without a dollar sign in front is one identifier. */
  lemma NameLexes(cc: CharClass, dollar: bool, name: string, rest: string)
    requires cc.Standard() && Boundary(cc, rest)
    requires name != "" && cc.idStart(name[0]) && forall k | 1 <= k < |name| :: cc.idContinue(name[k])
    ensures var text := if dollar then "$" + name else name;
      ReadsAs(cc, text, [Token(Ident, Bytes(text))], rest)
  {
    hide Tokens, TokenSpec, ReadsAs, Bytes, Boundary;
    var text := if dollar then "$" + name else name;
    assert IsWord(cc, text) by { if dollar { assert text[1..] == name && cc.idContinue(name[0]); } }
    WordLexesBack(cc, text, rest);
    OneToken(cc, text, Ident, rest);
  }

  /** Characters that a name with an emoji goes on with: those of names, emoji, and the joiner of emoji. */
  predicate Joined(cc: CharClass, c: char)
  {
    cc.idContinue(c) || (c as int >= 128 && cc.emoji(c)) || c as int == 0x200D
  }

  lemma {:induction false} JoinedEnd(cc: CharClass, s: string, i: nat, j: nat)
    requires i <= j <= |s| && (forall k | i <= k < j :: Joined(cc, s[k])) && (j < |s| ==> !Joined(cc, s[j]))
    ensures Skip(s, i, FakeIdent(cc)) == j
    decreases j - i
  {
    if i < j { JoinedEnd(cc, s, i + 1, j); }
  }

  /** A name that goes on with an emoji, or a word that starts with one, is one invalid identifier. */
  lemma EmojiLexes(cc: CharClass, name: string, mark: char, more: string, rest: string)
    requires cc.Standard() && mark as int >= 128 && cc.emoji(mark) && !cc.idContinue(mark) && !IsWhitespace(mark)
    requires name != "" ==> cc.idStart(name[0]) && forall k | 1 <= k < |name| :: cc.idContinue(name[k])
    requires (forall k | 0 <= k < |more| :: Joined(cc, more[k])) && (rest != "" ==> !Joined(cc, rest[0]))
    ensures var text := name + [mark] + more; ReadsAs(cc, text, [Token(InvalidIdent, Bytes(text))], rest)
  {
    hide Tokens, ReadsAs, Bytes, StringSpec, NumberSpec, SymbolSpec, TokenSpec, Skip, FakeIdent, IsWhitespace;
    var text := name + [mark] + more;
    var s, n := text + rest, |name|;
    assert s[n] == mark && Joined(cc, mark);
    assert forall k | 0 <= k < n :: s[k] == name[k];
    assert forall k | n < k < |text| :: s[k] == more[k - n - 1];
    assert rest != "" ==> s[|text|] == rest[0];
    JoinedEnd(cc, s, if n == 0 then 1 else n, |text|);
    if n == 0 { MarkFirst(cc, s); } else { MarkAfterName(cc, s, n); }
    assert s[..|text|] == text;
    OneToken(cc, text, InvalidIdent, rest);
  }

  lemma MarkFirst(cc: CharClass, s: string)
    requires cc.Standard() && s != "" && s[0] as int >= 128 && cc.emoji(s[0]) && !cc.idContinue(s[0])
    requires !IsWhitespace(s[0])
    ensures TokenSpec(cc, s) == (InvalidIdent, Skip(s, 1, FakeIdent(cc)))
  {
    hide TokenSpec, Skip, FakeIdent, Longest;
    assert Bare(cc, s[0]) && !StartsOperator(s[0]);
    BareIsSymbol(cc, s);
    NoOperator(s);
  }

  lemma MarkAfterName(cc: CharClass, s: string, n: nat)
    requires cc.Standard() && 0 < n < |s| && cc.idStart(s[0]) && forall k | 1 <= k < n :: cc.idContinue(s[k])
    requires s[n] as int >= 128 && cc.emoji(s[n]) && !cc.idContinue(s[n])
    ensures TokenSpec(cc, s) == (InvalidIdent, Skip(s, n, FakeIdent(cc)))
  {
    hide Bytes, StringSpec, NumberSpec, SymbolSpec, FakeIdent;
    SkipIs(s, 1, n, cc.idContinue);
    assert s[0] != '#' && !IsWhitespace(s[0]) && !Quote(s[0]);
    assert n > 1 ==> !Quote(s[1]);
    assert n == 1 ==> !Quote(s[n]);
  }

  // ----- lengths in bytes -----

  /** The UTF-8 encoding of a character, RFC 3629 section 3. */
  function Utf8(c: char): seq<int>
  {
    var n := c as int;
    if n < 0x80 then [n]
    else if n < 0x800 then [0xC0 + n / 0x40, 0x80 + n % 0x40]
    else if n < 0x10000 then [0xE0 + n / 0x40 / 0x40, 0x80 + n / 0x40 % 0x40, 0x80 + n % 0x40]
    else
      [0xF0 + n / 0x40 / 0x40 / 0x40, 0x80 + n / 0x40 / 0x40 % 0x40, 0x80 + n / 0x40 % 0x40, 0x80 + n % 0x40]
  }

  function Utf8All(s: string): seq<int>
  {
    if s == "" then [] else Utf8(s[0]) + Utf8All(s[1..])
  }

  /** The characters that bytes encode, by the number of bytes that the first one announces. */
  function Decoded(bytes: seq<int>): int
  {
    match |bytes|
    case 1 => bytes[0]
    case 2 => (bytes[0] - 0xC0) * 0x40 + (bytes[1] - 0x80)
    case 3 => (bytes[0] - 0xE0) * 0x1000 + (bytes[1] - 0x80) * 0x40 + (bytes[2] - 0x80)
    case 4 => (bytes[0] - 0xF0) * 0x40000 + (bytes[1] - 0x80) * 0x1000 + (bytes[2] - 0x80) * 0x40 + (bytes[3] - 0x80)
    case _ => 0
  }

  lemma Utf8RoundTrip(c: char)
    ensures Decoded(Utf8(c)) == c as int && forall b | b in Utf8(c) :: 0 <= b < 256
    ensures |Utf8(c)| == Utf8Len(c)
  {
    var n := c as int;
    var a := n / 0x40;
    var b := a / 0x40;
    assert n == a * 0x40 + n % 0x40 && a == b * 0x40 + a % 0x40 && b == b / 0x40 * 0x40 + b % 0x40;
  }

  /** Token lengths count the bytes of the encoded text. */
  lemma {:induction false} BytesAreUtf8(s: string)
    ensures Bytes(s) == |Utf8All(s)|
  {
    hide Utf8;
    if s != "" {
      Utf8RoundTrip(s[0]);
      BytesAreUtf8(s[1..]);
    }
  }
}
