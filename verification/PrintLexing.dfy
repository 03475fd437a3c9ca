/** Reading one text before another, and which signs stand whatever follows, kclvm/lexer/src/lib.rs:401-618. */
module PrintLexing {
  import opened LexerSpec
  import opened Numbers
  import opened Relexing
  import opened Wrappers
  import P = PrettyAst

  // ----- reading one text before another -----

  /** Before `tail`, the text is read as the tokens. */
  ghost predicate ReadsAs(cc: CharClass, text: string, tokens: seq<Token>, tail: string)
  {
    Tokens(cc, text + tail) == tokens + Tokens(cc, tail)
  }

  /** Before whatever may follow a word, number or string. */
  ghost predicate Closed(cc: CharClass, text: string, tokens: seq<Token>)
  {
    forall tail | Boundary(cc, tail) :: ReadsAs(cc, text, tokens, tail)
  }

  lemma Chained(cc: CharClass, a: string, ka: seq<Token>, b: string, kb: seq<Token>, tail: string)
    requires ReadsAs(cc, a, ka, b + tail) && ReadsAs(cc, b, kb, tail)
    ensures ReadsAs(cc, a + b, ka + kb, tail)
  {
    assert (a + b) + tail == a + (b + tail);
    assert ka + (kb + Tokens(cc, tail)) == (ka + kb) + Tokens(cc, tail);
  }

  lemma OneToken(cc: CharClass, text: string, kind: TokenKind, tail: string)
    requires text != "" && TokenSpec(cc, text + tail) == (kind, |text|)
    ensures ReadsAs(cc, text, [Token(kind, Bytes(text))], tail)
  {
    var s := text + tail;
    assert s[..|text|] == text && s[|text|..] == tail;
  }

  // ----- signs -----

  /** Operators that no character makes longer. */
  predicate Alone(op: Op)
  {
    || op.Comma? || op.OpenParen? || op.CloseParen? || op.OpenBracket? || op.CloseBracket? || op.Question? || op.Colon?
    || op.OpenBrace? || op.CloseBrace? || op.At? || op.Tilde? || op.Semi?
  }

  /** What may stand first behind any operator. */
  predicate Tame(tail: string)
  {
    tail != "" ==>
      tail[0] != '=' && tail[0] != '<' && tail[0] != '>' && tail[0] != '*' && tail[0] != '/' && tail[0] != '.'
  }

  lemma SignReads(cc: CharClass, op: Op, tail: string)
    requires cc.Standard() && op != Dollar && (Alone(op) || Tame(tail))
    ensures ReadsAs(cc, Spelling(op), [Token(Operator(op), |Spelling(op)|)], tail)
  {
    hide Spelling, StartsOperator, TokenSpec, SymbolSpec, Tokens;
    var s := Spelling(op) + tail;
    SignIsLongest(op, tail);
    SymbolSpecOperator(cc, s, op);
    OperatorFirst(op);
    assert s[0] == Spelling(op)[0];
    DollarOnly(op);
    TokenOfSymbol(cc, s);
    OneToken(cc, Spelling(op), Operator(op), tail);
    OperatorBytes(op);
  }

  lemma DollarOnly(op: Op)
    ensures Spelling(op)[0] == '$' <==> op == Dollar
  {
  }

  lemma OperatorBytes(op: Op)
    ensures Bytes(Spelling(op)) == |Spelling(op)|
  {
    OperatorAscii(op);
    hide Spelling, Bytes;
    AsciiBytes(Spelling(op));
  }

  lemma OperatorAscii(op: Op)
    ensures forall k | 0 <= k < |Spelling(op)| :: Ascii(Spelling(op)[k])
  {
    hide StartsOperator, TakesEq, Doubles, Spelling;
    LongerSpellings(op);
    OperatorFirst(op);
    SignsAreAscii(Spelling(op)[0]);
  }

  lemma SignsAreAscii(c: char)
    requires StartsOperator(c)
    ensures Ascii(c)
  {
  }

  lemma SignIsLongest(op: Op, tail: string)
    requires Alone(op) || Tame(tail)
    ensures Longest(Spelling(op) + tail, op)
  {
    var s := Spelling(op) + tail;
    forall other | Spelling(other) <= s
      ensures |Spelling(other)| <= |Spelling(op)|
    {
      if |Spelling(other)| > |Spelling(op)| {
        LongerSpellings(other);
        AloneStands(op, other);
      }
    }
    assert Spelling(op) <= s;
  }

  /** What makes a longer operator out of one. */
  lemma AloneStands(op: Op, other: Op)
    requires Spelling(op) < Spelling(other)
    ensures !Alone(op)
    ensures var c := Spelling(other)[|Spelling(op)|];
      c == '=' || c == '<' || c == '>' || c == '*' || c == '/' || c == '.'
  {
    AloneStarts(op);
    hide Spelling, Alone;
    LongerSpellings(other);
    assert Spelling(other)[0] == Spelling(op)[0];
    DotsAreTame();
  }

  lemma AloneStarts(op: Op)
    ensures Alone(op) ==> !TakesEq(Spelling(op)[0]) && Spelling(op)[0] != '.'
    ensures Spelling(op) != ""
  {
  }

  lemma DotsAreTame()
    ensures forall c | Doubles(c) :: TakesEq(c) && (c == '<' || c == '>' || c == '*' || c == '/')
    ensures "..."[0] == '.' && "..."[1] == '.' && "..."[2] == '.'
  {
  }

  function ArithOp(op: P.ArithOp): Op
  {
    match op
    case Add => Plus case Minus => Minus case Mul => Star case Div => Slash case Mod => Percent case Pow => StarStar
    case FloorDiv => SlashSlash case LShift => LtLt case RShift => GtGt case BitXor => Caret case BitAnd => And
    case BitOr => Or
  }

  // ----- words and literals -----

  lemma AsciiWord(cc: CharClass, w: string)
    requires cc.Standard() && w != "" && forall k | 0 <= k < |w| :: Letter(w[k])
    ensures IsWord(cc, w)
  {
  }

  lemma StartIsTame(cc: CharClass, text: string)
    requires cc.Standard() && text != "" && cc.idStart(text[0])
    ensures Tame(text)
  {
  }

  lemma LiteralIsTame(cc: CharClass, piece: Piece)
    requires piece.Number? || piece.Text?
    ensures Written(piece) != "" && Tame(Written(piece))
  {
    hide Quoted, NumberText;
    WrittenIsNotEmpty(cc, piece);
    if piece.Text? { QuotedIsEscaped(piece.value, piece.long); }
  }

  lemma WordIsText(cc: CharClass, w: string)
    requires IsWord(cc, w)
    ensures w != ""
  {
  }
}
