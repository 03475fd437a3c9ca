/** The low-level lexer: a cursor over the remaining characters, kclvm/lexer/src. */
module Lexer {
  import opened LexerSpec
  import opened Wrappers

  lemma PunctuationStandsAlone(c: char)
    requires IsPunctuation(c)
    ensures !TakesEq(c) && !Doubles(c)
  {
  }

  /** The operators of one character that no other extends, and the dot. */
  function Punctuation(c: char): (op: Op)
    requires IsPunctuation(c)
    ensures Spelling(op) == [c]
  {
    match c
    case ';' => Semi case ',' => Comma case '.' => Dot case '(' => OpenParen case ')' => CloseParen
    case '{' => OpenBrace case '}' => CloseBrace case '[' => OpenBracket case ']' => CloseBracket
    case '@' => At case '~' => Tilde case '?' => Question case ':' => Colon case _ => Dollar
  }

  // The operators a symbol starts: alone, with an equals sign, doubled, and both.

  function Bare(c: char): (op: Op)
    requires TakesEq(c)
    ensures Spelling(op) == [c]
  {
    match c
    case '<' => Lt
    case '>' => Gt
    case '*' => Star
    case '/' => Slash
    case '=' => Eq
    case '!' => Bang
    case '-' => Minus
    case '&' => And
    case '|' => Or
    case '+' => Plus
    case '^' => Caret
    case _ => Percent
  }

  function WithEq(c: char): (op: Op)
    requires TakesEq(c)
    ensures Spelling(op) == [c, '=']
  {
    match c
    case '<' => LtEq
    case '>' => GtEq
    case '*' => StarEq
    case '/' => SlashEq
    case _ => PlainWithEq(c)
  }

  function PlainWithEq(c: char): (op: Op)
    requires TakesEq(c) && !Doubles(c)
    ensures Spelling(op) == [c, '=']
  {
    match c
    case '=' => EqEq
    case '!' => BangEq
    case '-' => MinusEq
    case '&' => AndEq
    case '|' => OrEq
    case '+' => PlusEq
    case '^' => CaretEq
    case _ => PercentEq
  }

  function Doubled(c: char): (op: Op)
    requires Doubles(c)
    ensures Spelling(op) == [c, c]
  {
    match c
    case '<' => LtLt
    case '>' => GtGt
    case '*' => StarStar
    case _ => SlashSlash
  }

  function DoubledEq(c: char): (op: Op)
    requires Doubles(c)
    ensures Spelling(op) == [c, c, '=']
  {
    match c
    case '<' => LtLtEq
    case '>' => GtGtEq
    case '*' => StarStarEq
    case _ => SlashSlashEq
  }

  class Cursor {
    const cc: CharClass
    var initialLen: nat
    var chars: string
    /** The last character taken, for the assertions the code makes about it. */
    var prev: char

    constructor (cc: CharClass, input: string)
      ensures this.cc == cc && chars == input && initialLen == Bytes(input) && prev == EOF_CHAR
    {
      this.cc := cc;
      initialLen := Bytes(input);
      chars := input;
      prev := EOF_CHAR;
    }

    function Peek(): char
      reads this`chars
    {
      CharAt(chars, 0)
    }

    function Peek1th(): char
      reads this`chars
    {
      CharAt(chars, 1)
    }

    predicate IsEof()
      reads this`chars
    {
      chars == ""
    }

    /** The cursor is inside a token that started with `s` remaining, `n` characters ago. */
    ghost predicate In(s: string, n: nat)
      reads this
    {
      n <= |s| && chars == s[n..] && initialLen == Bytes(s) && (n > 0 ==> prev == s[n - 1])
    }

    function LenConsumed(): nat
      requires Bytes(chars) <= initialLen
      reads this
    {
      initialLen - Bytes(chars)
    }

    lemma Consumed(s: string, n: nat)
      requires In(s, n)
      ensures Bytes(chars) <= initialLen && LenConsumed() == Bytes(s[..n])
    {
      BytesSplit(s, n);
    }

    method ResetLenConsumed()
      modifies this`initialLen
      ensures In(chars, 0)
    {
      initialLen := Bytes(chars);
    }

    method Bump()
      requires chars != ""
      modifies this`chars, this`prev
      ensures chars == old(chars)[1..] && prev == old(chars)[0]
    {
      prev := chars[0];
      chars := chars[1..];
    }

    method EatWhile(p: char -> bool, ghost s: string, ghost n: nat)
      requires In(s, n)
      modifies this`chars, this`prev
      ensures In(s, Skip(s, n, p))
    {
      ghost var i := n;
      while p(Peek()) && !IsEof()
        invariant In(s, i) && Skip(s, i, p) == Skip(s, n, p)
        decreases |s| - i
      {
        Bump();
        i := i + 1;
      }
    }

    // ----- comments, strings, identifiers (kcl_cursor.rs) -----

    method EatComment(ghost s: string) returns (kind: TokenKind)
      requires In(s, 1) && s[0] == '#'
      modifies this`chars, this`prev
      ensures kind == LineComment && In(s, Skip(s, 1, NotNewline))
    {
      assert prev == '#';
      EatWhile(NotNewline, s, 1);
      return LineComment;
    }

    predicate TryStringMagic(c: char)
      reads this`chars
    {
      if c == 'r' || c == 'R' then Quote(Peek()) else Quote(c)
    }

    method EatString(c: char, ghost s: string) returns (kind: TokenKind)
      requires In(s, 1) && s[0] == c && StringStart(s)
      modifies this`chars, this`prev
      ensures var (k, n) := StringSpec(s, if Quote(c) then 1 else 2);
        kind == Literal(k, Bytes(s[..n])) && In(s, n)
    {
      if c == 'r' || c == 'R' {
        var quote := Peek();
        Bump();
        kind := EatQuotedString(quote, s, 2);
      } else {
        kind := EatQuotedString(c, s, 1);
      }
    }

    method EatQuotedString(quote: char, ghost s: string, ghost start: nat) returns (kind: TokenKind)
      requires 0 < start && In(s, start) && s[start - 1] == quote && Quote(quote)
      modifies this`chars, this`prev
      ensures var (k, n) := StringSpec(s, start); kind == Literal(k, Bytes(s[..n])) && In(s, n)
    {
      hide Bytes, StringScan;
      assert prev == quote;
      ghost var i := start;
      var tripleQuoted := false;
      if quote == Peek() && quote == Peek1th() {
        Bump();
        Bump();
        i := i + 2;
        tripleQuoted := true;
      }
      var terminated := EatStringBody(quote, tripleQuoted, s, i);
      Consumed(s, StringScan(s, quote, tripleQuoted, i).1);
      return Literal(Str(terminated, terminated && tripleQuoted), LenConsumed());
    }

    /** The loop of `eat_quoted_string`: whether it closes the string. */
    method EatStringBody(quote: char, tripleQuoted: bool, ghost s: string, ghost start: nat) returns (terminated: bool)
      requires In(s, start) && Quote(quote)
      modifies this`chars, this`prev
      ensures StringScan(s, quote, tripleQuoted, start).0 == terminated
      ensures In(s, StringScan(s, quote, tripleQuoted, start).1)
    {
      hide Bytes;
      ghost var i := start;
      terminated := false;
      while !IsEof()
        invariant In(s, i) && !terminated
        invariant StringScan(s, quote, tripleQuoted, i) == StringScan(s, quote, tripleQuoted, start)
        decreases |s| - i
      {
        var c := Peek();
        Bump();
        i := i + 1;
        if c == '\\' && (Peek() == '\\' || Peek() == quote) {
          // Skip the escaped character.
          Bump();
          i := i + 1;
        } else if c == quote {
          if !tripleQuoted {
            terminated := true;
            break;
          } else if quote == Peek() && quote == Peek1th() {
            Bump();
            Bump();
            i := i + 2;
            terminated := true;
            break;
          }
        } else if !tripleQuoted && LineBreak(Peek()) {
          break;
        }
      }
      assert StringScan(s, quote, tripleQuoted, start) == (terminated, i);
    }

    predicate TryIdentMagic(c: char)
      reads this
    {
      if c == '$' then cc.idStart(Peek()) else cc.idStart(c)
    }

    method EatIdent(ghost s: string) returns (kind: TokenKind)
      requires In(s, 1) && IdentStart(cc, s)
      modifies this`chars, this`prev
      ensures var n := Skip(s, 1, cc.idContinue);
        if n < |s| && cc.Emoji(s[n]) then kind == InvalidIdent && In(s, Skip(s, n, FakeIdent(cc)))
        else kind == Ident && In(s, n)
    {
      assert cc.idStart(prev) || prev == '$';
      EatWhile(cc.idContinue, s, 1);
      if cc.Emoji(Peek()) {
        kind := FakeIdentOrUnknownPrefix(s, Skip(s, 1, cc.idContinue));
      } else {
        kind := Ident;
      }
    }

    method FakeIdentOrUnknownPrefix(ghost s: string, ghost n: nat) returns (kind: TokenKind)
      requires In(s, n)
      modifies this`chars, this`prev
      ensures kind == InvalidIdent && In(s, Skip(s, n, FakeIdent(cc)))
    {
      EatWhile(FakeIdent(cc), s, n);
      return InvalidIdent;
    }

    // ----- numbers (number.rs) -----

    method Number(firstDigit: char, ghost s: string) returns (kind: LiteralKind)
      requires In(s, 1) && s[0] == firstDigit && Decimal(firstDigit)
      modifies this`chars, this`prev
      ensures kind == NumberSpec(cc, s).0 && In(s, NumberSpec(cc, s).1)
    {
      assert Decimal(prev);
      var base := DecimalBase;
      ghost var n := 1;
      if firstDigit == '0' {
        var hasDigits;
        if Peek() == 'b' {
          base := BinaryBase;
          Bump();
          hasDigits := EatDecimalDigits(s, 2);
          n := Skip(s, 2, DecimalOrUnderscore);
        } else if Peek() == 'o' || Decimal(Peek()) {
          base := OctalBase;
          Bump();
          hasDigits := EatDecimalDigits(s, 2);
          n := Skip(s, 2, DecimalOrUnderscore);
        } else if Peek() == 'x' {
          base := HexadecimalBase;
          Bump();
          hasDigits := EatHexadecimalDigits(s, 2);
          n := Skip(s, 2, HexadecimalOrUnderscore);
        } else if Peek() == '_' || Peek() == '.' || Peek() == 'e' || Peek() == 'E' {
          var _ := EatDecimalDigits(s, 1);
          n := Skip(s, 1, DecimalOrUnderscore);
          hasDigits := true;
        } else {
          return Int(base, false);
        }
        if !hasDigits { return Int(base, true); }
      } else {
        var _ := EatDecimalDigits(s, 1);
        n := Skip(s, 1, DecimalOrUnderscore);
      }
      kind := EatNumberRest(s, n, base);
    }

    /** The final match of `number`. */
    method EatNumberRest(ghost s: string, ghost n: nat, base: Base) returns (kind: LiteralKind)
      requires In(s, n)
      modifies this`chars, this`prev
      ensures kind == NumberRest(cc, s, n, base).0 && In(s, NumberRest(cc, s, n, base).1)
    {
      hide Bytes, WhileLen, HasDigits, FractionSpec, ExponentSpec;
      if Peek() == '.' && Peek1th() != '.' && !cc.idStart(Peek1th()) {
        Bump();
        kind := EatFraction(s, n + 1, base);
      } else if Peek() == 'e' || Peek() == 'E' {
        Bump();
        var hasDigits := EatFloatExponent(s, n + 1, base);
        return Float(base, !hasDigits);
      } else {
        return Int(base, false);
      }
    }

    /** The fraction, after its dot. */
    method EatFraction(ghost s: string, ghost n: nat, base: Base) returns (kind: LiteralKind)
      requires 0 < n && In(s, n)
      modifies this`chars, this`prev
      ensures kind == FractionSpec(s, n, base).0 && In(s, FractionSpec(s, n, base).1)
    {
      hide Bytes, WhileLen, HasDigits, ExponentSpec;
      var emptyExponent := false;
      if Decimal(Peek()) {
        var _ := EatDecimalDigits(s, n);
        if Peek() == 'e' || Peek() == 'E' {
          Bump();
          var hasDigits := EatFloatExponent(s, Skip(s, n, DecimalOrUnderscore) + 1, base);
          emptyExponent := !hasDigits;
        }
      }
      return Float(base, emptyExponent);
    }

    method EatDecimalDigits(ghost s: string, ghost n: nat) returns (hasDigits: bool)
      requires In(s, n)
      modifies this`chars, this`prev
      ensures var m := Skip(s, n, DecimalOrUnderscore); In(s, m) && hasDigits == HasDigits(s, n, m)
    {
      hide WhileLen, HasDigits, Bytes;
      hasDigits := false;
      assert !HasDigits(s, n, n) by { NoDigits(s, n); }
      ghost var i := n;
      while true
        invariant n <= i && In(s, i) && Skip(s, i, DecimalOrUnderscore) == Skip(s, n, DecimalOrUnderscore)
        invariant hasDigits == HasDigits(s, n, i)
        decreases |s| - i
      {
        if i < |s| && DecimalOrUnderscore(s[i]) { DigitStep(s, n, i, DecimalOrUnderscore); }
        if Peek() == '_' {
          Bump();
        } else if Decimal(Peek()) {
          hasDigits := true;
          Bump();
        } else {
          break;
        }
        i := i + 1;
      }
    }

    method EatHexadecimalDigits(ghost s: string, ghost n: nat) returns (hasDigits: bool)
      requires In(s, n)
      modifies this`chars, this`prev
      ensures var m := Skip(s, n, HexadecimalOrUnderscore); In(s, m) && hasDigits == HasDigits(s, n, m)
    {
      hide WhileLen, HasDigits, Bytes;
      hasDigits := false;
      assert !HasDigits(s, n, n) by { NoDigits(s, n); }
      ghost var i := n;
      while true
        invariant n <= i && In(s, i) && Skip(s, i, HexadecimalOrUnderscore) == Skip(s, n, HexadecimalOrUnderscore)
        invariant hasDigits == HasDigits(s, n, i)
        decreases |s| - i
      {
        if i < |s| && HexadecimalOrUnderscore(s[i]) { DigitStep(s, n, i, HexadecimalOrUnderscore); }
        if Peek() == '_' {
          Bump();
        } else if Hexadecimal(Peek()) {
          hasDigits := true;
          Bump();
        } else {
          break;
        }
        i := i + 1;
      }
    }

    method EatFloatExponent(ghost s: string, ghost n: nat, ghost base: Base) returns (hasDigits: bool)
      requires 0 < n && In(s, n) && (s[n - 1] == 'e' || s[n - 1] == 'E')
      modifies this`chars, this`prev
      ensures var (kind, m) := ExponentSpec(s, n, base); In(s, m) && kind == Float(base, !hasDigits)
    {
      assert prev == 'e' || prev == 'E';
      ghost var i := n;
      if Peek() == '-' || Peek() == '+' {
        Bump();
        i := i + 1;
      }
      hasDigits := EatDecimalDigits(s, i);
    }

    method EatLitSuffix(ghost s: string, ghost n: nat)
      requires In(s, n) && cc.Standard()
      modifies this`chars, this`prev
      ensures In(s, SuffixEnd(cc, s, n))
    {
      if !cc.idStart(Peek()) { return; }
      Bump();
      EatWhile(cc.idContinue, s, n + 1);
    }

    // ----- tokens (lib.rs) -----

    /** One token, from a cursor whose consumed length has just been reset. */
    method Token() returns (token: LexerSpec.Token)
      requires chars != "" && In(chars, 0) && cc.Standard()
      modifies this`chars, this`prev
      ensures var (kind, n) := TokenSpec(cc, old(chars));
        token == LexerSpec.Token(kind, Bytes(old(chars)[..n])) && chars == old(chars)[n..]
    {
      hide Bytes, WhileLen, StringSpec, NumberSpec, SuffixEnd, SymbolSpec;
      ghost var s := chars;
      var c := Peek();
      Bump();
      assert In(s, 1);
      ghost var n := TokenSpec(cc, s).1;
      var kind: TokenKind;
      if c == '#' {
        kind := EatComment(s);
      } else if IsWhitespace(c) {
        kind := Whitespace;
      } else if TryStringMagic(c) {
        kind := EatString(c, s);
      } else if TryIdentMagic(c) {
        kind := EatIdent(s);
      } else if Decimal(c) {
        var number := Number(c, s);
        ghost var end := NumberSpec(cc, s).1;
        Consumed(s, end);
        var suffixStart := LenConsumed();
        EatLitSuffix(s, end);
        kind := Literal(number, suffixStart);
      } else {
        kind := EatOther(c, s);
      }
      Consumed(s, n);
      return LexerSpec.Token(kind, LenConsumed());
    }

    /** The remaining branches of `token`. */
    method EatOther(c: char, ghost s: string) returns (kind: TokenKind)
      requires In(s, 1) && s[0] == c
      modifies this`chars, this`prev
      ensures kind == SymbolSpec(cc, s).0 && In(s, SymbolSpec(cc, s).1)
    {
      hide Bytes, WhileLen, Longest, Spelling;
      if c == '\t' {
        kind := Tab;
      } else if c == ' ' {
        kind := Space;
      } else if c == '\n' {
        kind := Newline;
      } else if c == '\\' {
        NoOperator(s);
        kind := EatLineContinue(s);
      } else {
        var op := EatOperator(c, s);
        if op.Some? {
          SymbolSpecOperator(cc, s, op.value);
          kind := Operator(op.value);
        } else {
          NoOperator(s);
          if cc.Emoji(c) {
            kind := FakeIdentOrUnknownPrefix(s, 1);
          } else {
            kind := Unknown;
          }
        }
      }
    }

    method EatLineContinue(ghost s: string) returns (kind: TokenKind)
      requires In(s, 1) && s[0] == '\\'
      modifies this`chars, this`prev
      ensures In(s, if CharAt(s, 1) == '\n' then 2 else 1)
      ensures kind == if LineBreak(CharAt(s, 1)) && CharAt(s, 1) != '\r' then LineContinue else InvalidLineContinue
    {
      hide Bytes;
      if Peek() == '\n' {
        Bump();
        return LineContinue;
      } else if Peek() == EOF_CHAR {
        return LineContinue;
      } else {
        return InvalidLineContinue;
      }
    }

    /** The operator branches of `token`: `c` is taken, the rest is decided by one or two characters
        of lookahead. */
    method EatOperator(c: char, ghost s: string) returns (op: Option<Op>)
      requires In(s, 1) && s[0] == c
      modifies this`chars, this`prev
      ensures op.Some? ==> Longest(s, op.value) && In(s, |Spelling(op.value)|)
      ensures op.None? ==> In(s, 1) && !StartsOperator(c)
    {
      hide Longest, Spelling, In;
      if IsPunctuation(c) {
        op := EatPunctuation(c, s);
      } else if TakesEq(c) {
        op := EatSymbol(c, s);
      } else {
        op := None;
      }
    }

    method EatPunctuation(c: char, ghost s: string) returns (op: Option<Op>)
      requires In(s, 1) && s[0] == c && IsPunctuation(c)
      modifies this`chars, this`prev
      ensures op.Some? && Longest(s, op.value) && In(s, |Spelling(op.value)|)
    {
      hide Longest, Bytes, Punctuation, TakesEq, Doubles;
      PunctuationStandsAlone(c);
      if c == '.' && Peek() == '.' && Peek1th() == '.' {
        Bump();
        Bump();
        TripleIsLongest(s, DotDotDot);
        return Some(DotDotDot);
      }
      var o := Punctuation(c);
      BareIsLongest(s, o);
      return Some(o);
    }

    /** A symbol that an equals sign may follow, and that some symbols may double before it. */
    method EatSymbol(c: char, ghost s: string) returns (op: Option<Op>)
      requires In(s, 1) && s[0] == c && TakesEq(c)
      modifies this`chars, this`prev
      ensures op.Some? && Longest(s, op.value) && In(s, |Spelling(op.value)|)
    {
      hide Longest, Bytes, Spelling, TakesEq, Doubles;
      SymbolsArePrintable(c);
      if Peek() == '=' {
        Bump();
        PairIsLongest(s, WithEq(c));
        op := Some(WithEq(c));
      } else if Doubles(c) && Peek() == c {
        Bump();
        if Peek() == '=' {
          Bump();
          TripleIsLongest(s, DoubledEq(c));
          op := Some(DoubledEq(c));
        } else {
          PairIsLongest(s, Doubled(c));
          op := Some(Doubled(c));
        }
      } else {
        BareIsLongest(s, Bare(c));
        op := Some(Bare(c));
      }
    }
  }

  /** `tokenize`, run to the end of the input. */
  method Tokenize(cc: CharClass, input: string) returns (tokens: seq<Token>)
    requires cc.Standard()
    ensures tokens == Tokens(cc, input)
    ensures TotalLength(tokens) == Bytes(input)
  {
    TokensPartition(cc, input);
    var cursor := new Cursor(cc, input);
    tokens := [];
    while !cursor.IsEof()
      invariant cursor.cc == cc && tokens + Tokens(cc, cursor.chars) == Tokens(cc, input)
      decreases |cursor.chars|
    {
      cursor.ResetLenConsumed();
      var token := cursor.Token();
      tokens := tokens + [token];
    }
  }
}
