/** The pieces that printed text is made of, and when a sequence of them is lexed piece by piece.
    kclvm/ast_pretty/src, kclvm/lexer/src. */
module PrintAtoms {
  import opened LexerSpec
  import opened Numbers
  import opened Relexing
  import opened Wrappers
  import opened PrintLexing
  import LexerTexts

  datatype Atom =
    | Gap(c: char)                                // a blank or a line end
    | Note(text: string)                          // a comment
    | Name(text: string)                          // an identifier or keyword
    | Field(text: string)                         // a dot and a name
    | Punct(op: Op)
    | Num(n: nat, suffix: Option<Suffix>)
    | Str(value: string, long: bool)
    | Given(text: string)                         // a text that comes with the syntax tree, such as a type

  function AtomText(a: Atom): string
  {
    match a
    case Gap(c) => [c]
    case Note(text) => text
    case Name(text) => text
    case Field(text) => "." + text
    case Punct(op) => Spelling(op)
    case Num(n, suffix) => NumberText(n, suffix)
    case Str(value, long) => Quoted(value, long)
    case Given(text) => text
  }

  ghost function AtomTokens(cc: CharClass, a: Atom): seq<Token>
  {
    match a
    case Gap(c) => [Token(if c == ' ' then Space else Newline, 1)]
    case Note(text) => [Token(LineComment, Bytes(text))]
    case Name(text) => [Token(Ident, Bytes(text))]
    case Field(text) => [Token(Operator(Dot), 1), Token(Ident, Bytes(text))]
    case Punct(op) => [Token(Operator(op), |Spelling(op)|)]
    case Num(n, suffix) => [TokenOf(Number(n, suffix))]
    case Str(value, long) => [TokenOf(Text(value, long))]
    case Given(text) => Tokens(cc, text)
  }

  /** A comment runs up to its line end, a string is readable, and a text that comes with the tree ends where its
      last token ends. */
  ghost predicate AtomOk(cc: CharClass, a: Atom)
  {
    match a
    case Gap(c) => c == ' ' || c == '\n'
    case Note(text) => text != "" && text[0] == '#' && '\n' !in text
    case Name(text) => IsWord(cc, text)
    case Field(text) => IsWord(cc, text) && cc.idStart(text[0])
    case Punct(op) => op != Dollar
    case Num(_, _) => true
    case Str(value, long) => ReadableFrom(value, 0, long)
    case Given(text) => text != "" && Tame(text) && Closed(cc, text, Tokens(cc, text))
  }

  /** Signs that a word, number or string may stand before. */
  predicate Closing(op: Op)
  {
    || op.OpenParen? || op.CloseParen? || op.OpenBracket? || op.CloseBracket? || op.OpenBrace? || op.CloseBrace?
    || op.Comma? || op.Question? || op.Colon? || op.Eq?
  }

  /** Signs that an expression may start with. */
  predicate Opening(op: Op)
  {
    op.OpenParen? || op.OpenBracket? || op.OpenBrace? || op.Plus? || op.Minus? || op.Tilde?
  }

  predicate Ending(b: Atom) { b.Gap? || b.Note? || b.Field? || (b.Punct? && Closing(b.op)) }

  predicate Starting(b: Atom)
  {
    b.Gap? || b.Note? || b.Name? || b.Num? || b.Str? || b.Given? || (b.Punct? && Opening(b.op))
  }

  /** The first may stand directly before the second. */
  predicate Meets(a: Atom, b: Atom)
  {
    match a
    case Gap(_) => true
    case Note(_) => b == Gap('\n')
    case Punct(op) => Alone(op) || (op.Minus? && b == Punct(Gt)) || Starting(b)
    case _ => Ending(b)
  }

  function AtomsText(atoms: seq<Atom>): string
  {
    if atoms == [] then "" else AtomText(atoms[0]) + AtomsText(atoms[1..])
  }

  ghost function AtomsTokens(cc: CharClass, atoms: seq<Atom>): seq<Token>
  {
    if atoms == [] then [] else AtomTokens(cc, atoms[0]) + AtomsTokens(cc, atoms[1..])
  }

  ghost predicate Fit(cc: CharClass, atoms: seq<Atom>)
  {
    && (forall i | 0 <= i < |atoms| :: AtomOk(cc, atoms[i]))
    && forall i | 0 <= i < |atoms| - 1 :: Meets(atoms[i], atoms[i + 1])
  }

  lemma EndingIsBoundary(cc: CharClass, b: Atom, more: string)
    requires cc.Standard() && AtomOk(cc, b) && Ending(b)
    ensures Boundary(cc, AtomText(b) + more)
  {
    match b
    case Punct(op) => ClosingFirst(op);
    case Field(text) => assert (("." + text) + more)[1] == text[0];
    case _ =>
  }

  lemma ClosingFirst(op: Op)
    requires Closing(op)
    ensures Closes(Spelling(op)[0])
  {
  }

  lemma StartingIsTame(cc: CharClass, b: Atom, more: string)
    requires cc.Standard() && AtomOk(cc, b) && Starting(b)
    ensures Tame(AtomText(b) + more)
  {
    hide Quoted, NumberText, Spelling, IsWord;
    match b
    case Name(text) => WordIsTame(cc, text);
    case Num(n, suffix) => LiteralIsTame(cc, Number(n, suffix));
    case Str(value, long) => LiteralIsTame(cc, Text(value, long));
    case Punct(op) => OpeningFirst(op);
    case _ =>
  }

  lemma WordIsTame(cc: CharClass, text: string)
    requires cc.Standard() && IsWord(cc, text)
    ensures text != "" && Tame(text)
  {
  }

  lemma OpeningFirst(op: Op)
    requires Opening(op)
    ensures Tame(Spelling(op)) && Spelling(op) != ""
  {
  }

  lemma ArrowReads(cc: CharClass, tail: string)
    requires cc.Standard() && tail != "" && tail[0] == '>'
    ensures ReadsAs(cc, "-", [Token(Operator(Minus), 1)], tail)
  {
    hide TokenSpec, SymbolSpec, Tokens, StartsOperator;
    var s := "-" + tail;
    BareIsLongest(s, Minus);
    SymbolSpecOperator(cc, s, Minus);
    assert StartsOperator('-') by { OperatorFirst(Minus); }
    TokenOfSymbol(cc, s);
    OneToken(cc, "-", Operator(Minus), tail);
    OperatorBytes(Minus);
  }

  lemma DotReads(cc: CharClass, text: string, tail: string)
    requires cc.Standard() && IsWord(cc, text) && cc.idStart(text[0]) && Boundary(cc, tail)
    ensures ReadsAs(cc, "." + text, [Token(Operator(Dot), 1), Token(Ident, Bytes(text))], tail)
  {
    hide Tokens, TokenSpec, Boundary, Bytes, IsWord;
    WordIsText(cc, text);
    StartIsTame(cc, text + tail);
    SignReads(cc, Dot, text + tail);
    WordLexesBack(cc, text, tail);
    OneToken(cc, text, Ident, tail);
    Chained(cc, ".", [Token(Operator(Dot), 1)], text, [Token(Ident, Bytes(text))], tail);
    assert [Token(Operator(Dot), 1)] + [Token(Ident, Bytes(text))]
      == [Token(Operator(Dot), 1), Token(Ident, Bytes(text))];
  }

  /** Atoms that end with a word, number or string. */
  lemma ClosedReads(cc: CharClass, a: Atom, tail: string)
    requires cc.Standard() && AtomOk(cc, a) && Boundary(cc, tail)
    requires a.Name? || a.Field? || a.Num? || a.Str? || a.Given?
    ensures ReadsAs(cc, AtomText(a), AtomTokens(cc, a), tail)
  {
    hide Tokens, TokenSpec, Boundary, Bytes, IsWord, Quoted, NumberText, ReadableFrom;
    match a
    case Name(text) =>
      WordLexesBack(cc, text, tail);
      WordIsText(cc, text);
      OneToken(cc, text, Ident, tail);
    case Field(text) => DotReads(cc, text, tail);
    case Num(n, suffix) =>
      LiteralIsTame(cc, Number(n, suffix));
      NumberLexesBack(cc, n, suffix, tail);
      OneToken(cc, NumberText(n, suffix), TokenOf(Number(n, suffix)).kind, tail);
    case Str(value, long) =>
      LiteralIsTame(cc, Text(value, long));
      QuotedLexesBack(cc, value, long, tail);
      OneToken(cc, Quoted(value, long), TokenOf(Text(value, long)).kind, tail);
    case Given(text) =>
  }

  /** What must follow an atom for it to be read. */
  predicate Stands(cc: CharClass, a: Atom, tail: string)
  {
    match a
    case Gap(_) => true
    case Note(_) => tail != "" ==> tail[0] == '\n'
    case Punct(op) => Alone(op) || (op.Minus? && tail != "" && tail[0] == '>') || Tame(tail)
    case _ => Boundary(cc, tail)
  }

  lemma StandingReads(cc: CharClass, a: Atom, tail: string)
    requires cc.Standard() && AtomOk(cc, a) && Stands(cc, a, tail)
    ensures ReadsAs(cc, AtomText(a), AtomTokens(cc, a), tail)
  {
    hide Tokens, TokenSpec, ReadsAs, Boundary, Tame, Spelling, Alone;
    match a
    case Gap(c) => LexerTexts.BlankLexes(cc, c, tail);
    case Note(text) =>
      assert text == "#" + text[1..] && (forall c | c in text[1..] :: c in text);
      LexerTexts.CommentToken(cc, text[1..], tail);
      assert Bytes(text) == 1 + Bytes(text[1..]);
    case Punct(op) =>
      if op.Minus? && tail != "" && tail[0] == '>' { MinusText(); ArrowReads(cc, tail); }
      else { SignReads(cc, op, tail); }
    case _ => ClosedReads(cc, a, tail);
  }

  lemma MinusText()
    ensures Spelling(Minus) == "-"
  {
  }

  lemma MeetingStands(cc: CharClass, a: Atom, b: Atom, more: string)
    requires cc.Standard() && AtomOk(cc, b) && Meets(a, b)
    ensures Stands(cc, a, AtomText(b) + more)
  {
    hide Boundary, Tame, Closing, Opening, Alone;
    if Ending(b) { EndingIsBoundary(cc, b, more); }
    if Starting(b) { StartingIsTame(cc, b, more); }
    if b == Punct(Gt) { assert Spelling(Gt)[0] == '>'; }
  }

  lemma NothingStands(cc: CharClass, a: Atom)
    ensures Stands(cc, a, "")
  {
  }

  /** Atoms that fit are lexed one after the other, before any text that the last one may stand before. */
  lemma {:induction false} AtomsReadBefore(cc: CharClass, atoms: seq<Atom>, tail: string)
    requires cc.Standard() && Fit(cc, atoms) && (atoms != [] ==> Stands(cc, atoms[|atoms| - 1], tail))
    ensures ReadsAs(cc, AtomsText(atoms), AtomsTokens(cc, atoms), tail)
    decreases |atoms|
  {
    hide AtomOk, Meets, AtomText, AtomTokens, Stands, Tokens;
    if atoms == [] {
      assert "" + tail == tail && [] + Tokens(cc, tail) == Tokens(cc, tail);
    } else {
      var a, rest := atoms[0], atoms[1..];
      assert AtomOk(cc, a);
      if rest != [] {
        assert AtomOk(cc, atoms[1]) && Meets(atoms[0], atoms[1]);
        MeetingStands(cc, a, rest[0], AtomsText(rest[1..]) + tail);
        assert AtomsText(rest) + tail == AtomText(rest[0]) + (AtomsText(rest[1..]) + tail);
      } else {
        assert AtomsText(rest) + tail == tail;
      }
      StandingReads(cc, a, AtomsText(rest) + tail);
      forall i | 0 <= i < |rest| - 1 ensures Meets(rest[i], rest[i + 1]) { assert Meets(atoms[i + 1], atoms[i + 2]); }
      AtomsReadBefore(cc, rest, tail);
      Chained(cc, AtomText(a), AtomTokens(cc, a), AtomsText(rest), AtomsTokens(cc, rest), tail);
    }
  }

  lemma AtomsRead(cc: CharClass, atoms: seq<Atom>)
    requires cc.Standard() && Fit(cc, atoms)
    ensures Tokens(cc, AtomsText(atoms)) == AtomsTokens(cc, atoms)
  {
    hide Fit, Stands;
    if atoms != [] { NothingStands(cc, atoms[|atoms| - 1]); }
    AtomsReadBefore(cc, atoms, "");
    assert AtomsText(atoms) + "" == AtomsText(atoms);
    assert AtomsTokens(cc, atoms) + [] == AtomsTokens(cc, atoms);
  }

  /** Any such text, such as a dotted name or a type in brackets, may come with the tree. */
  lemma AtomsAreText(cc: CharClass, atoms: seq<Atom>)
    requires cc.Standard() && Fit(cc, atoms) && atoms != []
    requires Starting(atoms[0]) && AtomText(atoms[0]) != ""
    requires forall tail | Boundary(cc, tail) :: Stands(cc, atoms[|atoms| - 1], tail)
    ensures AtomOk(cc, Given(AtomsText(atoms)))
  {
    hide Fit, Stands, Boundary, Tokens, Starting;
    AtomsRead(cc, atoms);
    assert AtomOk(cc, atoms[0]) by { FirstIsOk(cc, atoms); }
    StartingIsTame(cc, atoms[0], AtomsText(atoms[1..]));
    forall tail | Boundary(cc, tail)
      ensures ReadsAs(cc, AtomsText(atoms), Tokens(cc, AtomsText(atoms)), tail)
    {
      AtomsReadBefore(cc, atoms, tail);
    }
  }

  lemma FirstIsOk(cc: CharClass, atoms: seq<Atom>)
    requires Fit(cc, atoms) && atoms != []
    ensures AtomOk(cc, atoms[0])
  {
  }
}
