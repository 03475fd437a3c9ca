/** What is left of the printed text without blanks, line ends and comments: the tokens of the tree, whatever the
    layout is. kclvm/ast_pretty/src/node.rs, kclvm/lexer/src. */
module PrintMeaning {
  import opened LexerSpec
  import opened Wrappers
  import opened PrintLexing
  import opened PrintAtoms
  import opened PrintItems
  import opened PrintCells
  import opened PrintOk
  import opened PrintTree
  import P = PrettyAst
  import PS = PrintSpec
  import TypePrinter

  predicate IsLayout(token: Token) { token.kind.Space? || token.kind.Newline? || token.kind.LineComment? }

  /** Without blanks, line ends and comments. */
  function Solid(tokens: seq<Token>): seq<Token>
  {
    if tokens == [] then []
    else Solid(tokens[..|tokens| - 1]) + if IsLayout(tokens[|tokens| - 1]) then [] else [tokens[|tokens| - 1]]
  }

  function CommaToken(): Token { Token(Operator(Op.Comma), 1) }

  /** The tokens of a tree. All that depends on the layout is whether items stand on one line, with commas between,
      and whether a comment has come into an `elif`. */
  ghost function Meaning(cc: CharClass, t: Items, fills: seq<Fill>): seq<Token>
  {
    if t == [] then []
    else
      var front, item, m := t[..|t| - 1], t[|t| - 1], |fills| - 1;
      if item.Is? then Meaning(cc, front, fills) + Solid(AtomTokens(cc, item.atom))
      else if fills == [] then []
      else
        Meaning(cc, front, fills[..m]) +
          if item.Between? then if fills[m] != [] && fills[m][0] == Punct(Op.Comma) then [CommaToken()] else []
          else if item.Split? then
            if fills[m] == [] then [Token(Ident, 4)] else [Token(Ident, 2), Token(Ident, 2)]
          else []
  }

  lemma {:induction false} SolidAppend(a: seq<Token>, b: seq<Token>)
    ensures Solid(a + b) == Solid(a) + Solid(b)
    decreases |b|
  {
    if b == [] {
      assert a + b == a;
    } else {
      var n := |b| - 1;
      SolidAppend(a, b[..n]);
      assert (a + b)[..|a| + n] == a + b[..n] && (a + b)[|a| + n] == b[n];
    }
  }

  lemma {:induction false} AtomsTokensAppend(cc: CharClass, a: seq<Atom>, b: seq<Atom>)
    ensures AtomsTokens(cc, a + b) == AtomsTokens(cc, a) + AtomsTokens(cc, b)
    decreases |a|
  {
    hide AtomTokens;
    if a == [] {
      assert a + b == b;
    } else {
      AtomsTokensAppend(cc, a[1..], b);
      assert (a + b)[0] == a[0] && (a + b)[1..] == a[1..] + b;
    }
  }

  lemma OneAtomTokens(cc: CharClass, a: Atom)
    ensures AtomsTokens(cc, [a]) == AtomTokens(cc, a)
  {
    assert [a][1..] == [];
    assert AtomTokens(cc, a) + [] == AtomTokens(cc, a);
  }

  /** Layout leaves nothing. */
  lemma {:induction false} LayoutIsNothing(cc: CharClass, f: Fill)
    requires forall i | 0 <= i < |f| :: f[i].Gap? || f[i].Note?
    ensures Solid(AtomsTokens(cc, f)) == []
    decreases |f|
  {
    if f != [] {
      LayoutIsNothing(cc, f[1..]);
      SolidAppend(AtomTokens(cc, f[0]), AtomsTokens(cc, f[1..]));
      OneIsNothing(cc, f[0]);
    }
  }

  lemma OneIsNothing(cc: CharClass, a: Atom)
    requires a.Gap? || a.Note?
    ensures Solid(AtomTokens(cc, a)) == []
  {
    var tokens := AtomTokens(cc, a);
    assert tokens == [tokens[0]] && IsLayout(tokens[0]) && tokens[..0] == [];
  }

  lemma WordToken(cc: CharClass, w: string)
    requires w == "el" || w == "if" || w == "elif"
    ensures AtomsTokens(cc, [Name(w)]) == [Token(Ident, |w|)] && Solid([Token(Ident, |w|)]) == [Token(Ident, |w|)]
  {
    OneAtomTokens(cc, Name(w));
    assert "elif"[1..] == "lif" && "lif"[1..] == "if" && "if"[1..] == "f" && "f"[1..] == "" && "el"[1..] == "l";
    assert "l"[1..] == "" && Bytes("l") == 1 && Bytes("f") == 1 && Bytes("if") == 2 && Bytes("lif") == 3;
    assert [Token(Ident, |w|)][..0] == [];
  }

  /** The word `elif` stays one word exactly when no comment is put into it. */
  lemma ElifTokens(cc: CharClass, f: Fill)
    requires LayoutFill(f)
    ensures var words := if f == [] then [Name("elif")] else [Name("el")] + f + [Name("if")];
      Solid(AtomsTokens(cc, words)) == if f == [] then [Token(Ident, 4)] else [Token(Ident, 2), Token(Ident, 2)]
  {
    if f == [] { WordToken(cc, "elif"); } else { CutTokens(cc, f); }
  }

  lemma CutTokens(cc: CharClass, f: Fill)
    requires LayoutFill(f)
    ensures Solid(AtomsTokens(cc, [Name("el")] + f + [Name("if")])) == [Token(Ident, 2), Token(Ident, 2)]
  {
    hide AtomsTokens, Solid, LayoutFill, AtomTokens, Bytes;
    var el, fi, word := [Name("el")], [Name("if")], Token(Ident, 2);
    assert AtomsTokens(cc, el) == [word] && Solid([word]) == [word] by { WordToken(cc, "el"); }
    assert AtomsTokens(cc, fi) == [word] by { WordToken(cc, "if"); }
    LayoutLeavesNothing(cc, f);
    AtomsTokensAppend(cc, el, f);
    AtomsTokensAppend(cc, el + f, fi);
    SolidAppend([word], AtomsTokens(cc, f));
    assert Solid(AtomsTokens(cc, el + f)) == [word] + [] == [word];
    SolidAppend(AtomsTokens(cc, el + f), [word]);
    assert [word] + [word] == [word, word];
  }

  /** A comment that is due at the second condition of a conditional item comes into the word: the source writes
      `el` before it reaches the node. */
  lemma CommentCutsElif(cc: CharClass, at: PS.Reached, notes: seq<P.Comment>, indent: nat)
    requires forall note | note in notes :: CommentText(note.text)
    ensures var f := PieceFill(PS.Visit(at, notes, indent));
      var words := if f == [] then [Name("elif")] else [Name("el")] + f + [Name("if")];
      Solid(AtomsTokens(cc, words)) == [Token(Ident, 4)] <==> notes == []
  {
    NotesAreLayout(notes, indent);
    VisitFill(at, notes, indent);
    hide PieceFill, NotesFill, Solid, AtomsTokens, LayoutFill, CommentText;
    ElifTokens(cc, NotesFill(notes, indent));
  }

  lemma VisitFill(at: PS.Reached, notes: seq<P.Comment>, indent: nat)
    ensures PieceFill(PS.Visit(at, notes, indent)) == NotesFill(notes, indent)
    ensures NotesFill(notes, indent) == [] <==> notes == []
  {
  }

  lemma BetweenTokens(cc: CharClass, f: Fill)
    requires BetweenFill(f)
    ensures Solid(AtomsTokens(cc, f)) == if f != [] && f[0] == Punct(Op.Comma) then [CommaToken()] else []
  {
    if f == [Punct(Op.Comma), Gap(' ')] {
      AtomsTokensAppend(cc, [Punct(Op.Comma)], [Gap(' ')]);
      OneAtomTokens(cc, Punct(Op.Comma));
      OneIsNothing(cc, Gap(' '));
      OneAtomTokens(cc, Gap(' '));
      assert [Punct(Op.Comma)] + [Gap(' ')] == f;
      SolidAppend([CommaToken()], AtomTokens(cc, Gap(' ')));
      assert [CommaToken()][..0] == [];
    } else {
      LayoutIsNothing(cc, f);
      assert f[0] != Punct(Op.Comma);
    }
  }

  lemma {:induction false} FilledMeans(cc: CharClass, t: Items, fills: seq<Fill>)
    requires Matches(AllCells(t), fills)
    ensures Solid(AtomsTokens(cc, Filled(t, fills))) == Meaning(cc, t, fills)
    decreases |t|
  {
    if t != [] {
      hide Matches, AtomsTokens, Solid, AtomText, AtomTokens, Chars, LayoutFill, BetweenFill, LineFill;
      var front, item := t[..|t| - 1], t[|t| - 1];
      var cells, m := AllCells(front), |fills| - 1;
      if item.Is? {
        CharsText(cells, AtomText(item.atom), fills);
        FilledMeans(cc, front, fills);
        AtomsTokensAppend(cc, Filled(front, fills), [item.atom]);
        OneAtomTokens(cc, item.atom);
        SolidAppend(AtomsTokens(cc, Filled(front, fills)), AtomTokens(cc, item.atom));
      } else {
        var place := if item.Between? then BetweenCell else if item.LineEnd? then LineCell else LayoutCell;
        if item.Split? { SplitMatches(cells, fills); } else { PlaceMatches(cells, place, fills); }
        FilledMeans(cc, front, fills[..m]);
        var words := if fills[m] == [] then [Name("elif")] else [Name("el")] + fills[m] + [Name("if")];
        var last := if item.Split? then words else fills[m];
        AtomsTokensAppend(cc, Filled(front, fills[..m]), last);
        SolidAppend(AtomsTokens(cc, Filled(front, fills[..m])), AtomsTokens(cc, last));
        if item.Split? { ElifTokens(cc, fills[m]); }
        else if item.Between? { BetweenTokens(cc, fills[m]); }
        else { LayoutLeavesNothing(cc, fills[m]); }
      }
    } else {
      assert Filled(t, fills) == [];
    }
  }

  lemma LayoutLeavesNothing(cc: CharClass, f: Fill)
    requires LayoutFill(f) || LineFill(f)
    ensures Solid(AtomsTokens(cc, f)) == []
  {
    LayoutIsNothing(cc, f);
  }

  lemma {:induction false} RestIsLayoutToo(ps: seq<PS.Piece>)
    ensures forall i | 0 <= i < |RestAtoms(ps)| :: RestAtoms(ps)[i].Gap? || RestAtoms(ps)[i].Note?
    decreases |ps|
  {
    if ps != [] && ps[|ps| - 1].Rest? { RestIsLayoutToo(ps[..|ps| - 1]); }
  }

  /** Formatting keeps the tokens: without blanks, line ends and comments, the printed text of a module is lexed as the
      tokens of the module. */
  lemma FormattingKeepsTokens(cc: CharClass, m: P.Module, ps: seq<PS.Piece>)
    requires cc.Standard() && OkModule(cc, m) && NotesOk(ps)
    requires PS.Shape(ps) == PS.ModuleShape([], m) && PS.Placed(ps)
    ensures Solid(Tokens(cc, PS.Render(ps))) == Meaning(cc, ModuleItems(m), FillsOf(BeforeRest(ps)))
  {
    hide Solid, Meaning, AtomsTokens, Filled, Matches, AllCells, Cells, PS.ModuleShape, ModuleItems, OkModule, Reads;
    hide PS.Render, PS.Shape, PS.Placed;
    var t, fills := ModuleItems(m), FillsOf(BeforeRest(ps));
    PrintedModuleLexes(cc, m, ps);
    AtomsTokensAppend(cc, Filled(t, fills), RestAtoms(ps));
    SolidAppend(AtomsTokens(cc, Filled(t, fills)), AtomsTokens(cc, RestAtoms(ps)));
    RestIsLayoutToo(ps);
    LayoutIsNothing(cc, RestAtoms(ps));
    ModuleTracks(cc, m);
    FillsMatch(ps);
    BeforeRestShape(ps);
    ShapeCells(BeforeRest(ps));
    FilledMeans(cc, t, fills);
  }

  lemma {:induction false} BeforeRestShape(ps: seq<PS.Piece>)
    ensures PS.Shape(BeforeRest(ps)) == PS.Shape(ps)
    decreases |ps|
  {
    if ps != [] && ps[|ps| - 1].Rest? {
      RestShape(ps);
      BeforeRestShape(ps[..|ps| - 1]);
    }
  }

  lemma {:induction false} FillsMatch(ps: seq<PS.Piece>)
    requires PS.Placed(ps) && NotesOk(ps)
    ensures Matches(Cells(BeforeRest(ps)), FillsOf(BeforeRest(ps)))
    decreases |ps|
  {
    if ps != [] && ps[|ps| - 1].Rest? {
      RestShape(ps);
      PlacedFront(ps);
      FillsMatch(ps[..|ps| - 1]);
    } else {
      forall i | 0 <= i < |ps| ensures !ps[i].Rest? { NoRestInside(ps, i); }
      RenderIsCells(ps);
    }
  }
  // ----- interpolated strings -----

  /** The text of an interpolated string: the quotes, its texts with their quotes escaped, and for each value `${`, the
      value, its format behind a colon, and `}`. */
  lemma InterpolatedText(long: bool, text: string, name: string, format: string, line: nat)
    ensures var value := P.Node(P.Ident(P.Identifier([P.Part(name, true, name)])), line);
      var plain := P.Node(P.StringLit(P.StringValue(false, "", text)), line);
      var shown := P.Node(P.FormattedValue(value, Some(format)), line);
      var quotes := if long then "\"\"\"" else "\"";
      PS.Render(PS.ExprShape([], P.Node(P.JoinedString(long, [plain, shown]), line)))
        == quotes + TypePrinter.Escape(text) + "${" + name + ": " + format + "}" + quotes
  {
    hide TypePrinter.Escape, PS.Render, PS.ExprShape;
    var value := P.Node(P.Ident(P.Identifier([P.Part(name, true, name)])), line);
    var plain := P.Node(P.StringLit(P.StringValue(false, "", text)), line);
    var shown := P.Node(P.FormattedValue(value, Some(format)), line);
    var quotes := if long then "\"\"\"" else "\"";
    var a1 := PS.W(PS.V([], PS.AtNode(line)), quotes);
    var a2 := PS.W(a1, TypePrinter.Escape(text));
    var a3 := PS.W(PS.V(a2, PS.AtNode(line)), "${");
    var a4 := PS.W(PS.V(a3, PS.AtNode(line)), name);
    var a5 := PS.W(PS.W(a4, ": " + format), "}");
    FormattedShape(a2, name, format, line);
    InterpolatedShape(long, text, shown, line);
    Wrote([], PS.Visit(PS.AtNode(line), [], 0));
    Wrote(PS.V([], PS.AtNode(line)), PS.Tok(quotes));
    Wrote(a1, PS.Tok(TypePrinter.Escape(text)));
    Wrote(a2, PS.Visit(PS.AtNode(line), [], 0));
    Wrote(PS.V(a2, PS.AtNode(line)), PS.Tok("${"));
    Wrote(a3, PS.Visit(PS.AtNode(line), [], 0));
    Wrote(PS.V(a3, PS.AtNode(line)), PS.Tok(name));
    Wrote(a4, PS.Tok(": " + format));
    Wrote(PS.W(a4, ": " + format), PS.Tok("}"));
    Wrote(a5, PS.Tok(quotes));
    assert PS.Render([]) == "" by { NothingRendered(); }
  }

  lemma NothingRendered()
    ensures PS.Render([]) == ""
  {
  }

  lemma Wrote(a: PS.S, piece: PS.Piece)
    ensures PS.Render(a + [piece]) == PS.Render(a) + PS.PieceText(piece)
  {
    assert (a + [piece])[..|a|] == a;
  }

  lemma FormattedShape(a: PS.S, name: string, format: string, line: nat)
    ensures var value := P.Node(P.Ident(P.Identifier([P.Part(name, true, name)])), line);
      var shown := P.Node(P.FormattedValue(value, Some(format)), line);
      PS.ExprShape(a, shown)
        == PS.W(PS.W(PS.W(PS.V(PS.W(PS.V(a, PS.AtNode(line)), "${"), PS.AtNode(line)), name), ": " + format), "}")
  {
    var value := P.Node(P.Ident(P.Identifier([P.Part(name, true, name)])), line);
    var x := P.FormattedValue(value, Some(format));
    var b := PS.V(a, PS.AtNode(line));
    assert PS.ExprKindShape(b, x) == PS.OtherKindShape(b, x) == PS.LiteralShape(b, x);
    var id := P.Identifier([P.Part(name, true, name)]);
    assert PS.Texts(id.names) == [name] && PS.Name(id) == name;
    var c := PS.W(b, "${");
    assert PS.ExprShape(c, value) == PS.ExprKindShape(PS.V(c, PS.AtNode(line)), P.Ident(id));
    assert PS.ExprKindShape(PS.V(c, PS.AtNode(line)), P.Ident(id)) == PS.W(PS.V(c, PS.AtNode(line)), name);
  }

  lemma InterpolatedShape(long: bool, text: string, shown: P.Node<P.Expr>, line: nat)
    requires shown.node.FormattedValue?
    ensures var plain := P.Node(P.StringLit(P.StringValue(false, "", text)), line);
      var quotes := if long then "\"\"\"" else "\"";
      PS.ExprShape([], P.Node(P.JoinedString(long, [plain, shown]), line))
        == PS.W(PS.ExprShape(PS.W(PS.W(PS.V([], PS.AtNode(line)), quotes), TypePrinter.Escape(text)), shown), quotes)
  {
    var plain := P.Node(P.StringLit(P.StringValue(false, "", text)), line);
    JoinedKind(PS.V([], PS.AtNode(line)), long, [plain, shown]);
    hide PS.ExprKindShape, PS.JoinedShape, TypePrinter.Escape;
    JoinedTwo(PS.W(PS.V([], PS.AtNode(line)), if long then "\"\"\"" else "\""), text, shown, line);
  }

  lemma JoinedKind(a: PS.S, long: bool, values: seq<P.Node<P.Expr>>)
    ensures var quotes := if long then "\"\"\"" else "\"";
      PS.ExprKindShape(a, P.JoinedString(long, values)) == PS.W(PS.JoinedShape(PS.W(a, quotes), values), quotes)
  {
    hide PS.JoinedShape;
    var x := P.JoinedString(long, values);
    assert PS.ExprKindShape(a, x) == PS.OtherKindShape(a, x) == PS.LiteralShape(a, x);
  }

  lemma JoinedTwo(a: PS.S, text: string, shown: P.Node<P.Expr>, line: nat)
    requires shown.node.FormattedValue?
    ensures var plain := P.Node(P.StringLit(P.StringValue(false, "", text)), line);
      PS.JoinedShape(a, [plain, shown]) == PS.ExprShape(PS.W(a, TypePrinter.Escape(text)), shown)
  {
    hide PS.ExprShape, TypePrinter.Escape;
    var plain := P.Node(P.StringLit(P.StringValue(false, "", text)), line);
    assert [plain, shown][..1] == [plain] && [plain][..0] == [];
    assert PS.JoinedShape(a, [plain]) == PS.JoinedValueShape(PS.JoinedShape(a, []), plain);
    assert PS.JoinedShape(a, [plain, shown]) == PS.JoinedValueShape(PS.JoinedShape(a, [plain]), shown);
  }

  // ----- one line or several -----

  /** When no comment waits, the items of a list stand on one line exactly when they start on one line and the first
      one is not conditional. */
  lemma ListOnOneLine(elts: seq<P.Node<P.Expr>>)
    ensures PS.OneLine(PS.ExprLines(elts), PS.StartsConditional(elts), None) <==>
      (forall i | 0 <= i < |elts| :: elts[i].line == elts[0].line && (i == 0 ==> !elts[0].node.ListIfItem?))
  {
    var lines := PS.ExprLines(elts);
    assert forall i | 0 <= i < |elts| :: lines[i] == elts[i].line;
    if forall i | 0 <= i < |elts| :: elts[i].line == elts[0].line && (i == 0 ==> !elts[0].node.ListIfItem?) {
      assert elts != [] ==> !elts[0].node.ListIfItem?;
    }
  }

  /** The entries of a configuration do when they start on one line and it is not a single one that holds a
      conditional entry, a configuration or a schema value. */
  lemma ConfigOnOneLine(items: seq<P.Node<P.ConfigEntry>>)
    ensures PS.OneLine(PS.EntryLines(items), PS.IsBlock(items), None) <==>
      && (forall i | 0 <= i < |items| :: items[i].line == items[0].line)
      && !(|items| == 1 && match items[0].node.value.node
             case ConfigIfEntry(_) => true case Config(_) => true case Schema(_) => true case _ => false)
  {
    var lines := PS.EntryLines(items);
    assert forall i | 0 <= i < |items| :: lines[i] == items[i].line;
  }

  /** Each level is indented by four blanks. */
  lemma FourBlanks()
    ensures PS.NewlineText(0) == "\n" && PS.NewlineText(1) == "\n    " && PS.NewlineText(2) == "\n        "
  {
  }
  // ----- an `elif` that is cut -----

  function NameNode(name: string, line: nat): P.Node<P.Expr>
  {
    P.Node(P.Ident(P.Identifier([P.Part(name, true, name)])), line)
  }

  /** A list of one conditional item: `if a:`, then `x`, on line 5 `elif b:`, and `y`. */
  function ElifList(): P.Node<P.Expr>
  {
    var second := P.ListIfItemExpr(NameNode("b", 5), [NameNode("y", 6)], P.NoListElse);
    var first := P.ListIfItemExpr(NameNode("a", 2), [NameNode("x", 3)], P.ListElif(5, second));
    P.Node(P.ListExpr([P.Node(P.ListIfItem(first), 2)]), 1)
  }

  function NameShape(a: PS.S, name: string, line: nat): PS.S { PS.W(PS.V(a, PS.AtNode(line)), name) }

  lemma NameShapeIs(a: PS.S, name: string, line: nat)
    ensures PS.ExprShape(a, NameNode(name, line)) == NameShape(a, name, line)
  {
    var id := P.Identifier([P.Part(name, true, name)]);
    assert PS.Texts(id.names) == [name] && PS.Name(id) == name;
    assert PS.ExprKindShape(PS.V(a, PS.AtNode(line)), P.Ident(id)) == PS.W(PS.V(a, PS.AtNode(line)), name);
  }

  /** What the printer has written up to the word. */
  function UpToElif(): PS.S
  {
    var a := PS.O(PS.W(PS.V([], PS.AtNode(1)), "["), [2], true);
    var b := NameShape(PS.W(PS.V(a, PS.AtNode(2)), "if "), "a", 2);
    PS.W(PS.N(PS.D(NameShape(PS.N(PS.I(PS.W(b, ":"))), "x", 3))), "el")
  }

  function BehindElif(a: PS.S): PS.S
  {
    var b := PS.W(NameShape(PS.W(a, "if "), "b", 5), ":");
    PS.W(PS.C(PS.N(PS.D(NameShape(PS.N(PS.I(b)), "y", 6)))), "]")
  }

  lemma ElifListShape()
    ensures PS.ExprShape([], ElifList()) == BehindElif(PS.V(UpToElif(), PS.AtNode(5)))
  {
    var second := P.ListIfItemExpr(NameNode("b", 5), [NameNode("y", 6)], P.NoListElse);
    var first := P.ListIfItemExpr(NameNode("a", 2), [NameNode("x", 3)], P.ListElif(5, second));
    var item := P.Node(P.ListIfItem(first), 2);
    var a := PS.O(PS.W(PS.V([], PS.AtNode(1)), "["), [2], true);
    hide PS.ExprShape, NameShape, NameNode;
    ConditionalShape(PS.V(a, PS.AtNode(2)), first, "a", 2, "x", 3);
    ConditionalShape(PS.V(UpToElif(), PS.AtNode(5)), second, "b", 5, "y", 6);
    ListShapeIs(item);
  }

  lemma ConditionalShape(a: PS.S, x: P.ListIfItemExpr, cond: string, line: nat, value: string, below: nat)
    requires x.ifCond == NameNode(cond, line) && x.exprs == [NameNode(value, below)]
    ensures var b := PS.N(PS.D(NameShape(PS.N(PS.I(PS.W(NameShape(PS.W(a, "if "), cond, line), ":"))), value, below)));
      && (x.orelse.NoListElse? ==> PS.ListIfShape(a, x) == b)
      && (x.orelse.ListElif? ==>
            PS.ListIfShape(a, x) == PS.ListIfShape(PS.V(PS.W(b, "el"), PS.AtNode(x.orelse.line)), x.orelse.listIf))
  {
    NameShapeIs(PS.W(a, "if "), cond, line);
    var c := PS.N(PS.I(PS.W(NameShape(PS.W(a, "if "), cond, line), ":")));
    NameShapeIs(c, value, below);
    hide PS.ExprShape, NameShape, NameNode;
    assert PS.ExprsShape(c, x.exprs, PS.Line) == PS.ExprShape(c, x.exprs[0]);
  }

  lemma ListShapeIs(item: P.Node<P.Expr>)
    requires item.node.ListIfItem? && item.line == 2
    ensures var a := PS.O(PS.W(PS.V([], PS.AtNode(1)), "["), [2], true);
      PS.ExprShape([], P.Node(P.ListExpr([item]), 1))
        == PS.W(PS.C(PS.ListIfShape(PS.V(a, PS.AtNode(2)), item.node.listIf)), "]")
  {
    var a := PS.O(PS.W(PS.V([], PS.AtNode(1)), "["), [2], true);
    assert PS.ExprLines([item]) == [2] && PS.StartsConditional([item]);
    hide PS.ListIfShape;
    assert PS.ExprsShape(a, [item], PS.Item(true)) == PS.ExprShape(a, item);
    assert PS.ExprShape(a, item) == PS.ExprKindShape(PS.V(a, PS.AtNode(2)), item.node);
    assert PS.ListShape(PS.V([], PS.AtNode(1)), [item]) == PS.W(PS.C(PS.ExprShape(a, item)), "]");
  }

  /** Up to the word only nodes of the first three lines are reached. */
  lemma EarlyNodes()
    ensures |UpToElif()| == 15 && forall i | 0 <= i < 15 && UpToElif()[i].Visit? :: UpToElif()[i].at.Line() <= 3
    ensures UpToElif()[14] == PS.Tok("el")
  {
  }

  lemma Prefixed(a: PS.S)
    ensures a <= BehindElif(a)
  {
  }

  lemma {:induction false} ShapePieces(ps: seq<PS.Piece>)
    requires forall i | 0 <= i < |ps| :: !ps[i].Rest?
    ensures |PS.Shape(ps)| == |ps| && forall i | 0 <= i < |ps| :: PS.Erase(ps[i]) == [PS.Shape(ps)[i]]
    decreases |ps|
  {
    hide PS.Erase;
    if ps != [] {
      ShapePieces(ps[..|ps| - 1]);
      assert |PS.Erase(ps[|ps| - 1])| == 1 by { OneErased(ps[|ps| - 1]); }
    }
  }

  lemma OneErased(piece: PS.Piece)
    requires !piece.Rest?
    ensures |PS.Erase(piece)| == 1
  {
  }

  lemma {:induction false} NotePlace(ps: seq<PS.Piece>, note: P.Comment) returns (i: nat)
    requires note in PS.NotesOf(ps)
    ensures i < |ps| && note in PS.PieceNotes(ps[i])
    decreases |ps|
  {
    var n := |ps| - 1;
    if note in PS.PieceNotes(ps[n]) { i := n; } else { i := NotePlace(ps[..n], note); }
  }

  lemma {:induction false} BeforeRestIs(ps: seq<PS.Piece>)
    requires PS.Placed(ps)
    ensures BeforeRest(ps) <= ps && forall i | 0 <= i < |BeforeRest(ps)| :: !ps[i].Rest?
    ensures |BeforeRest(ps)| < |ps| ==> ps[|BeforeRest(ps)|].Rest?
    decreases |ps|
  {
    hide PS.Placed;
    if ps != [] && ps[|ps| - 1].Rest? {
      PlacedFront(ps);
      BeforeRestIs(ps[..|ps| - 1]);
    } else {
      forall i | 0 <= i < |ps| ensures !ps[i].Rest? { NoRestInside(ps, i); }
    }
  }

  lemma ElifFacts()
    ensures var shape := PS.ExprShape([], ElifList());
      && |shape| > 16 && shape[14] == PS.Tok("el") && shape[15] == PS.Visit(PS.AtNode(5), [], 0)
      && shape[16] == PS.Tok("if ") && forall k | 0 <= k < 15 && shape[k].Visit? :: shape[k].at.Line() <= 3
  {
    hide PS.ExprShape, UpToElif, BehindElif;
    var a, visited := UpToElif(), PS.V(UpToElif(), PS.AtNode(5));
    ElifListShape();
    EarlyNodes();
    Prefixed(visited);
    BehindIt(visited);
    var shape := PS.ExprShape([], ElifList());
    assert shape[..16] == visited && visited[..15] == a;
    forall k | 0 <= k < 15 ensures shape[k] == a[k] { assert shape[..16][k] == visited[..15][k]; }
    assert shape[15] == shape[..16][15];
  }

  /** The pieces before the comments after the last node are those of the shape. */
  lemma PieceFacts(ps: seq<PS.Piece>, k: nat)
    requires PS.Placed(ps) && k < |PS.Shape(ps)|
    ensures k < |ps| && !ps[k].Rest? && PS.Erase(ps[k]) == [PS.Shape(ps)[k]]
  {
    hide PS.Shape, PS.Placed, BeforeRest, PS.Erase;
    BeforeRestShape(ps);
    BeforeRestIs(ps);
    ShapePieces(BeforeRest(ps));
  }

  lemma Unerased(piece: PS.Piece)
    requires !piece.Rest?
    ensures forall text :: PS.Erase(piece) == [PS.Tok(text)] ==> piece == PS.Tok(text)
    ensures forall at :: PS.Erase(piece) == [PS.Visit(at, [], 0)] ==> piece.Visit? && piece.at == at
    ensures piece.Visit? ==> PS.Erase(piece) == [PS.Visit(piece.at, [], 0)]
  {
  }

  /** With a comment on line 4 of this list, every output that the printer can give has the comment inside `elif`. */
  lemma ElifIsCut(note: P.Comment, ps: seq<PS.Piece>)
    requires note.line == 4 && PS.Shape(ps) == PS.ExprShape([], ElifList()) && PS.Placed(ps)
    requires PS.NotesOf(ps) == [note]
    ensures |ps| > 16 && ps[14] == PS.Tok("el") && ps[15].Visit? && note in ps[15].notes && ps[16] == PS.Tok("if ")
  {
    hide PS.Shape, PS.ExprShape, PS.NotesOf, PS.Placed, PS.PlacedAt, PS.Erase, ElifList;
    ElifFacts();
    forall k | 0 <= k <= 16
      ensures k < |ps| && !ps[k].Rest? && PS.Erase(ps[k]) == [PS.Shape(ps)[k]]
      ensures k < 15 && ps[k].Visit? ==> ps[k].at.Line() <= 3
    {
      PieceFacts(ps, k);
      Unerased(ps[k]);
    }
    Unerased(ps[14]);
    Unerased(ps[15]);
    Unerased(ps[16]);
    var i := NotePlace(ps, note);
    PlacedThere(ps, i);
    OnlyThere(ps, note, i);
  }

  /** The note can be at no other node. */
  lemma OnlyThere(ps: seq<PS.Piece>, note: P.Comment, i: nat)
    requires |ps| > 16 && ps[15].Visit? && ps[15].at.Line() == 5 && note.line == 4
    requires forall k | 0 <= k < 15 && ps[k].Visit? :: ps[k].at.Line() <= 3
    requires forall k | 0 <= k < 15 :: !ps[k].Rest?
    requires i < |ps| && PS.PlacedAt(ps, i) && note in PS.PieceNotes(ps[i])
    ensures i == 15
  {
  }

  lemma BehindIt(a: PS.S)
    ensures |BehindElif(a)| > |a| && BehindElif(a)[|a|] == PS.Tok("if ")
  {
  }

  lemma PlacedThere(ps: seq<PS.Piece>, i: nat)
    requires PS.Placed(ps) && i < |ps|
    ensures PS.PlacedAt(ps, i)
  {
  }
}
